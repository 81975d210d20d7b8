/**
 TcpServer and the connection handlers it wires up, as code that updates the map,
 the connections and the functor queues. The source's asserts stand in the
 bodies; the invariant of `ServerProofs` discharges them.
 */
module Servers {
  import opened ConnectionStates
  import opened ServerSpec
  import opened ServerProofs

  class TcpServer {
    var queues: seq<seq<Functor>>     // the functor queue of each loop; loop 0 is the server's own
    var handling: seq<Handling>       // the event each loop is dispatching
    var conns: seq<Conn>              // every connection ever accepted, by number
    var connections: set<nat>         // the server's map, keyed by connection number

    ghost var flying: multiset<nat>   // connections that calls on other threads hold

    ghost function View(): World
      reads this
    {
      World(queues, handling, conns, connections, flying, true)
    }

    constructor (loops: nat)
      requires loops > 0
      ensures View() == Init(loops) && Inv(View())
    {
      queues := seq(loops, _ => []);
      handling := seq(loops, _ => Idle);
      conns, connections, flying := [], {}, multiset{};
    }

    method QueueInLoop(loop: nat, f: Functor)
      requires loop < |queues|
      modifies `queues
      ensures queues == old(queues)[loop := old(queues)[loop] + [f]]
    {
      queues := queues[loop := queues[loop] + [f]];
    }

    method ConnectEstablished(here: nat, c: nat)
      requires c < |conns| && !conns[c].freed
      requires here == conns[c].loop && conns[c].state == Connecting
      modifies `conns
      ensures View() == ServerSpec.ConnectEstablished(old(View()), here, c)
    {
      var k := conns[c];
      assert here == k.loop;
      assert k.state == Connecting;
      conns := conns[c := k.(state := Connected, reading := true, trail := k.trail + [Established])];
    }

    method NewConnection(io: nat)
      requires Inv(View()) && Enabled(View(), Accept(io))
      modifies this
      ensures View() == Next(old(View()), Accept(io)) && Inv(View())
      ensures var c := |old(conns)|;
              && |conns| == c + 1 && conns[..c] == old(conns) && conns[c].loop == io
              && connections == old(connections) + {c}
              && conns[c].state == (if io == 0 then Connected else Connecting)
              && queues == if io == 0 then old(queues) else old(queues)[io := old(queues)[io] + [Establish(c)]]
    {
      KeepsNext(View(), Accept(io));
      var c := |conns|;
      conns := conns + [Conn(io, Connecting, false, false, true, false, [])];
      connections := connections + {c};
      if io == 0 {
        ConnectEstablished(0, c);
      } else {
        QueueInLoop(io, Establish(c));
      }
    }

    method RemoveConnectionInLoop(here: nat, c: nat)
      requires c < |conns| && !conns[c].freed && conns[c].loop < |queues|
      requires here == 0 && c in connections
      modifies this
      ensures View() == ServerSpec.RemoveConnectionInLoop(old(View()), here, c)
    {
      assert here == 0;
      var n := if c in connections then 1 else 0;
      connections := connections - {c};
      assert n == 1;
      var k := conns[c];
      conns := conns[c := k.(trail := k.trail + [Erased])];
      QueueInLoop(k.loop, Destroy(c));
    }

    /** handleClose on an I/O loop, when its read callback met the end of the stream. */
    method HandleClose(here: nat)
      requires Inv(View()) && Enabled(View(), ReadZero(here))
      modifies this
      ensures View() == Next(old(View()), ReadZero(here)) && Inv(View())
    {
      KeepsNext(View(), ReadZero(here));
      var c := handling[here].conn;
      assert HandlingOk(View(), here) && ConnOk(View(), c);
      handling := handling[here := handling[here].(read := false)];
      var k := conns[c];
      assert here == k.loop;
      assert k.state == Connected || k.state == Disconnecting;
      conns := conns[c := k.(reading := false, writing := false, trail := k.trail + [Shut])];
      if here == 0 {
        RemoveConnectionInLoop(here, c);
      } else {
        QueueInLoop(0, Remove(c));
      }
    }

    method ConnectDestroyed(here: nat, c: nat)
      requires c < |conns| && !conns[c].freed && here == conns[c].loop && Up(conns[c].state)
      modifies `conns
      ensures View() == ServerSpec.ConnectDestroyed(old(View()), here, c)
    {
      var k := conns[c];
      assert here == k.loop;
      assert k.state == Connected || k.state == Disconnecting;
      var quiet := k.(state := Disconnected, reading := false, writing := false);
      assert !quiet.reading && !quiet.writing;      // Channel::remove: isNoneEvent
      conns := conns[c := quiet.(watched := false, trail := k.trail + [Destroyed])];
    }

    /** A loop runs the oldest functor of its queue. Every assert on the way is met. */
    method RunFunctor(here: nat, writes: bool)
      requires Inv(View()) && Enabled(View(), Step.Functor(here, writes))
      modifies this
      ensures View() == Next(old(View()), Step.Functor(here, writes)) && Inv(View())
    {
      KeepsNext(View(), Step.Functor(here, writes));
      Head(View(), here);
      assert ConnOk(View(), queues[here][0].conn);
      var f := queues[here][0];
      queues := queues[here := queues[here][1..]];
      match f {
        case Establish(c) => ConnectEstablished(here, c);
        case Remove(c) => RemoveConnectionInLoop(here, c);
        case Destroy(c) => ConnectDestroyed(here, c);
        case Request(c) =>
          var k := conns[c];
          assert here == k.loop;
          conns := conns[c := k.(writing := k.writing || writes)];
      }
    }
  }
}
