/**
 The life of every connection of a TcpServer, over one accepting loop (loop 0)
 and any number of I/O loops that talk only through their functor queues.

 A step is one handler on one loop thread, or one callback of an event being
 dispatched; loops interleave freely. `ok` turns false as soon as an assert of
 the source fails, a handler runs on a foreign thread, a destroyed connection is
 touched, or a channel dies while it handles an event.
 */
module ServerSpec {
  import opened ConnectionStates

  datatype Event = Established | Shut | Erased | Destroyed

  /** A connection's whole life, in the only order it can have. */
  const LIFE: seq<Event> := [Established, Shut, Erased, Destroyed]

  datatype Functor =
    | Establish(conn: nat)      // TcpConnection::connectEstablished
    | Remove(conn: nat)         // TcpServer::removeConnectionInLoop
    | Destroy(conn: nat)        // TcpConnection::connectDestroyed
    | Request(conn: nat)        // a send or shutdown queued by another thread

  datatype Conn = Conn(
    loop: nat,
    state: StateE,
    reading: bool,
    writing: bool,
    watched: bool,
    freed: bool,
    trail: seq<Event>)

  /** What a loop is dispatching: one connection's event, with the callbacks still to come. */
  datatype Handling = Idle | Handling(conn: nat, read: bool, write: bool)

  datatype World = World(
    queues: seq<seq<Functor>>,
    handling: seq<Handling>,
    conns: seq<Conn>,
    connections: set<nat>,
    flying: multiset<nat>,      // connections that calls on other threads hold, past their look at the state
    ok: bool)

  function Init(loops: nat): World {
    World(seq(loops, _ => []), seq(loops, _ => Idle), [], {}, multiset{}, true)
  }

  // ---------------------------------------------------------------------------
  // Handlers
  // ---------------------------------------------------------------------------

  function Push(w: World, loop: nat, f: Functor): World
    requires loop < |w.queues|
  {
    w.(queues := w.queues[loop := w.queues[loop] + [f]])
  }

  /** Replaces one connection, recording whether the asserts on the way held. */
  function Become(w: World, c: nat, k: Conn, held: bool): World
    requires c < |w.conns|
  {
    w.(conns := w.conns[c := k], ok := w.ok && held && !w.conns[c].freed)
  }

  predicate Up(state: StateE) {
    state == Connected || state == Disconnecting
  }

  function ConnectEstablished(w: World, here: nat, c: nat): World
    requires c < |w.conns|
  {
    var k := w.conns[c];
    Become(w, c, k.(state := Connected, reading := true, trail := k.trail + [Established]),
           here == k.loop && k.state == Connecting)
  }

  /** TcpServer::newConnection, with the I/O loop the pool picked. */
  function NewConnection(w: World, io: nat): World
    requires io < |w.queues|
  {
    var c := |w.conns|;
    var w1 := w.(conns := w.conns + [Conn(io, Connecting, false, false, true, false, [])],
                 connections := w.connections + {c});
    if io == 0 then ConnectEstablished(w1, 0, c) else Push(w1, io, Establish(c))
  }

  function RemoveConnectionInLoop(w: World, here: nat, c: nat): World
    requires c < |w.conns| && w.conns[c].loop < |w.queues|
  {
    var k := w.conns[c];
    var w1 := Become(w, c, k.(trail := k.trail + [Erased]), here == 0 && c in w.connections);
    Push(w1.(connections := w.connections - {c}), k.loop, Destroy(c))
  }

  /** TcpConnection::handleClose with its close callback, TcpServer::removeConnection. */
  function HandleClose(w: World, here: nat, c: nat): World
    requires c < |w.conns| && w.conns[c].loop < |w.queues| && |w.queues| > 0
  {
    var k := w.conns[c];
    var w1 := Become(w, c, k.(reading := false, writing := false, trail := k.trail + [Shut]),
                     here == k.loop && Up(k.state));
    if here == 0 then RemoveConnectionInLoop(w1, here, c) else Push(w1, 0, Remove(c))
  }

  function ConnectDestroyed(w: World, here: nat, c: nat): World
    requires c < |w.conns|
  {
    var k := w.conns[c];
    Become(w, c, k.(state := Disconnected, reading := false, writing := false, watched := false, trail := k.trail + [Destroyed]),
           here == k.loop && Up(k.state))
  }

  /** A queued request runs: it may switch write interest on, whatever the state is by now. */
  function RunRequest(w: World, here: nat, c: nat, writes: bool): World
    requires c < |w.conns|
  {
    var k := w.conns[c];
    Become(w, c, k.(writing := k.writing || writes), here == k.loop)
  }

  function RunFunctor(w: World, l: nat, writes: bool): World
    requires l < |w.queues| && w.queues[l] != [] && w.queues[l][0].conn < |w.conns|
    requires w.conns[w.queues[l][0].conn].loop < |w.queues|
  {
    var w1 := w.(queues := w.queues[l := w.queues[l][1..]]);
    match w.queues[l][0]
    case Establish(c) => ConnectEstablished(w1, l, c)
    case Remove(c) => RemoveConnectionInLoop(w1, l, c)
    case Destroy(c) => ConnectDestroyed(w1, l, c)
    case Request(c) => RunRequest(w1, l, c, writes)
  }

  /** The rest of a call on another thread: its request is queued, wherever the connection has got to. */
  function PushRequest(w: World, c: nat): World
    requires c < |w.conns| && w.conns[c].loop < |w.queues|
  {
    Push(w.(flying := w.flying - multiset{c}, ok := w.ok && !w.conns[c].freed), w.conns[c].loop, Request(c))
  }

  /** Nothing refers to the connection any more: no map entry, no call on another thread, no queued functor. */
  predicate Unreferenced(w: World, c: nat) {
    c !in w.connections && c !in w.flying && forall l, f :: 0 <= l < |w.queues| && f in w.queues[l] ==> f.conn != c
  }

  // ---------------------------------------------------------------------------
  // Steps
  // ---------------------------------------------------------------------------

  datatype Step =
    | Accept(io: nat)                                   // the acceptor hands over a socket
    | Functor(loop: nat, writes: bool)                  // a loop runs its oldest functor
    | Begin(loop: nat, conn: nat, read: bool, write: bool)
    | ReadZero(loop: nat)                               // the read callback met the end of the stream
    | ReadMore(loop: nat)                               // the read callback met data or an error
    | WriteReady(loop: nat, drained: bool)              // the write callback
    | End(loop: nat)
    | LoopSend(conn: nat)                               // send on the loop thread that has to wait
    | LoopShutdown(conn: nat)
    | ForeignSend(conn: nat)                            // another thread's send finds the state right,
    | ForeignShutdown(conn: nat)                        // or its shutdown changes it,
    | RequestPush(conn: nat)                            // and the request is queued
    | Release(conn: nat)                                // the last shared_ptr goes away

  predicate Enabled(w: World, step: Step) {
    match step
    case Accept(io) => io < |w.queues| == |w.handling| && w.handling[0] == Idle
    case Functor(l, _) =>
      && l < |w.queues| == |w.handling| && w.handling[l] == Idle && w.queues[l] != []
      && w.queues[l][0].conn < |w.conns| && w.conns[w.queues[l][0].conn].loop < |w.queues|
    case Begin(l, c, read, write) =>
      && l < |w.handling| && w.handling[l] == Idle && c < |w.conns|
      && w.conns[c].loop == l && w.conns[c].watched
      && (read || write) && (read ==> w.conns[c].reading) && (write ==> w.conns[c].writing)
    case ReadZero(l) =>
      && l < |w.handling| == |w.queues| && w.handling[l].Handling? && w.handling[l].read
      && w.handling[l].conn < |w.conns| && w.conns[w.handling[l].conn].loop < |w.queues|
    case ReadMore(l) => l < |w.handling| && w.handling[l].Handling? && w.handling[l].read
    case WriteReady(l, _) =>
      && l < |w.handling| && w.handling[l].Handling? && !w.handling[l].read && w.handling[l].write
      && w.handling[l].conn < |w.conns|
    case End(l) => l < |w.handling| && w.handling[l].Handling? && !w.handling[l].read && !w.handling[l].write
    case Release(c) => c < |w.conns| && Unreferenced(w, c)
    case LoopSend(c) => c < |w.conns| && !w.conns[c].freed && w.conns[c].state == Connected
    case LoopShutdown(c) => c < |w.conns| && !w.conns[c].freed && w.conns[c].state == Connected
    case ForeignSend(c) => c < |w.conns| && !w.conns[c].freed && w.conns[c].state == Connected
    case ForeignShutdown(c) => c < |w.conns| && !w.conns[c].freed && w.conns[c].state == Connected
    case RequestPush(c) => c in w.flying && c < |w.conns| && w.conns[c].loop < |w.queues|
  }

  /** The read callback of the event loop `l` is dispatching meets the end of the stream. */
  function OnReadZero(w: World, l: nat): World
    requires Enabled(w, ReadZero(l))
  {
    HandleClose(w.(handling := w.handling[l := w.handling[l].(read := false)]), l, w.handling[l].conn)
  }

  function Next(w: World, step: Step): World
    requires Enabled(w, step)
  {
    match step
    case Accept(io) => NewConnection(w, io)
    case Functor(l, writes) => RunFunctor(w, l, writes)
    case Begin(l, c, read, write) => w.(handling := w.handling[l := Handling(c, read, write)], ok := w.ok && !w.conns[c].freed)
    case ReadZero(l) => OnReadZero(w, l)
    case ReadMore(l) => w.(handling := w.handling[l := w.handling[l].(read := false)])
    case WriteReady(l, drained) =>
      var c := w.handling[l].conn;
      var k := w.conns[c];
      Become(w.(handling := w.handling[l := w.handling[l].(write := false)]), c, k.(writing := k.writing && !drained), true)
    case End(l) => w.(handling := w.handling[l := Idle])
    case LoopSend(c) => Become(w, c, w.conns[c].(writing := true), true)
    case LoopShutdown(c) => Become(w, c, w.conns[c].(state := Disconnecting), true)
    case ForeignSend(c) => w.(flying := w.flying + multiset{c})
    case ForeignShutdown(c) =>
      Become(w, c, w.conns[c].(state := Disconnecting), true).(flying := w.flying + multiset{c})
    case RequestPush(c) => PushRequest(w, c)
    case Release(c) =>
      w.(conns := w.conns[c := w.conns[c].(freed := true, watched := false)],
         ok := w.ok && forall l :: 0 <= l < |w.handling| ==> w.handling[l].Idle? || w.handling[l].conn != c)
  }

  predicate Legal(w: World, steps: seq<Step>)
    decreases |steps|
  {
    steps == [] || (Enabled(w, steps[0]) && Legal(Next(w, steps[0]), steps[1..]))
  }

  function Run(w: World, steps: seq<Step>): World
    requires Legal(w, steps)
    decreases |steps|
  {
    if steps == [] then w else Run(Next(w, steps[0]), steps[1..])
  }
}
