/**
 The connection life cycle, over any number of loops and connections and any
 interleaving. Each connection owns exactly one token, told by how far its
 trail has come: its queued establish functor, being live, its queued remove
 functor, its queued destroy functor, or nothing more.
 */
module ServerProofs {
  import opened Basics
  import opened ConnectionStates
  import opened ServerSpec

  // ---------------------------------------------------------------------------
  // The invariant
  // ---------------------------------------------------------------------------

  /** How often a queue must hold a functor, by the owner's stage. */
  function Tokens(w: World, l: nat, f: Functor): nat {
    if f.conn >= |w.conns| then 0
    else
      var k := w.conns[f.conn];
      match f
      case Establish(_) => if |k.trail| == 0 && l == k.loop then 1 else 0
      case Remove(_) => if |k.trail| == 2 && l == 0 then 1 else 0
      case Destroy(_) => if |k.trail| == 3 && l == k.loop then 1 else 0
      case Request(_) => 0
  }

  ghost predicate QueueOk(w: World, l: nat)
    requires l < |w.queues|
  {
    && (forall f: Functor :: !f.Request? ==> multiset(w.queues[l])[f] == Tokens(w, l, f))
    && (forall f :: f in w.queues[l] && f.Request? ==>
          f.conn < |w.conns| && w.conns[f.conn].loop == l && !w.conns[f.conn].freed && |w.conns[f.conn].trail| > 0)
  }

  predicate ConnOk(w: World, c: nat)
    requires c < |w.conns|
  {
    var k := w.conns[c];
    var stage := |k.trail|;
    && k.loop < |w.queues|
    && stage <= 4 && k.trail == LIFE[..stage]
    && (stage == 0 <==> k.state == Connecting)
    && (stage == 4 <==> k.state == Disconnected)
    && (k.reading <==> stage == 1)
    && (k.watched ==> stage < 4)
    && (stage < 4 ==> !k.freed)
    && (c in w.connections <==> stage <= 2)
    && (k.writing ==> stage > 0)
  }

  predicate HandlingOk(w: World, l: nat)
    requires l < |w.handling|
  {
    var h := w.handling[l];
    h.Handling? ==>
      && h.conn < |w.conns| && w.conns[h.conn].loop == l
      && 1 <= |w.conns[h.conn].trail| <= 3
      && (h.read ==> |w.conns[h.conn].trail| == 1)
  }

  /** A connection that a call on another thread holds has been established and is not freed. */
  predicate FlyingOk(w: World) {
    forall c :: c in w.flying ==> c < |w.conns| && !w.conns[c].freed && |w.conns[c].trail| > 0
  }

  ghost predicate Inv(w: World) {
    && w.ok && FlyingOk(w)
    && |w.queues| == |w.handling| > 0
    && (forall c :: c in w.connections ==> c < |w.conns|)
    && (forall c :: 0 <= c < |w.conns| ==> ConnOk(w, c))
    && (forall l :: 0 <= l < |w.queues| ==> QueueOk(w, l))
    && (forall l :: 0 <= l < |w.handling| ==> HandlingOk(w, l))
  }

  lemma InvInit(loops: nat)
    requires loops > 0
    ensures Inv(Init(loops))
  {
  }

  /** The functor at the head of a queue is the token of its owner. */
  lemma Head(w: World, l: nat)
    requires Inv(w) && l < |w.queues| && w.queues[l] != []
    ensures var f := w.queues[l][0];
            && f.conn < |w.conns|
            && (!f.Request? ==> Tokens(w, l, f) == 1)
            && (f.Request? ==> w.conns[f.conn].loop == l && !w.conns[f.conn].freed && |w.conns[f.conn].trail| > 0)
  {
    assert QueueOk(w, l);
    var f := w.queues[l][0];
    assert f in w.queues[l] && multiset(w.queues[l])[f] > 0;
  }

  // ---------------------------------------------------------------------------
  // Moving a token
  // ---------------------------------------------------------------------------

  /** A queue loses `gone` or nothing, and gains `come` or nothing. */
  ghost predicate Shift(before: seq<Functor>, after: seq<Functor>, gone: Option<Functor>, come: Option<Functor>) {
    multiset(after) + Bag(gone) == multiset(before) + Bag(come)
  }

  function Bag(f: Option<Functor>): multiset<Functor> {
    if f.Some? then multiset{f.value} else multiset{}
  }

  function At(l: nat, place: Option<nat>, f: Functor): Option<Functor> {
    if place == Some(l) then Some(f) else None
  }

  /** Connection `c` alone changed, and what is known of each connection and dispatch still holds. */
  ghost predicate Settled(w: World, v: World, c: nat) {
    && v.ok && c < |w.conns| == |v.conns|
    && |v.queues| == |w.queues| && |v.handling| == |w.handling| && v.flying == w.flying
    && (forall d :: 0 <= d < |w.conns| && d != c ==> v.conns[d] == w.conns[d])
    && (forall d :: d != c ==> (d in v.connections <==> d in w.connections))
    && ConnOk(v, c)
    && v.conns[c].loop == w.conns[c].loop && v.conns[c].freed == w.conns[c].freed
    && |v.conns[c].trail| >= |w.conns[c].trail|
    && (forall l :: 0 <= l < |v.handling| ==> HandlingOk(v, l))
  }

  /** A change of one connection, with its token leaving queue `from` and a new one joining queue `to`. */
  ghost predicate Carried(w: World, v: World, l: nat, c: nat,
                          from: Option<nat>, gone: Functor, to: Option<nat>, come: Functor)
    requires l < |w.queues| == |v.queues|
  {
    && Shift(w.queues[l], v.queues[l], At(l, from, gone), At(l, to, come))
    && forall f: Functor :: f.conn == c && !f.Request? ==>
         Tokens(v, l, f) + Bag(At(l, from, gone))[f] == Tokens(w, l, f) + Bag(At(l, to, come))[f]
  }

  /** One queue stays right when its share of `c`'s tokens changed just as they did. */
  lemma QueueKept(w: World, v: World, l: nat, c: nat,
                  from: Option<nat>, gone: Functor, to: Option<nat>, come: Functor)
    requires l < |w.queues| && QueueOk(w, l) && Settled(w, v, c)
    requires gone.conn == come.conn == c
    requires to.Some? && come.Request? ==> to.value == w.conns[c].loop && !w.conns[c].freed && |w.conns[c].trail| > 0
    requires Carried(w, v, l, c, from, gone, to, come)
    ensures QueueOk(v, l)
  {
    var out, in_ := At(l, from, gone), At(l, to, come);
    forall f: Functor
      ensures multiset(v.queues[l])[f] + Bag(out)[f] == multiset(w.queues[l])[f] + Bag(in_)[f]
    {
      assert (multiset(v.queues[l]) + Bag(out))[f] == (multiset(w.queues[l]) + Bag(in_))[f];
    }
    forall f: Functor | !f.Request?
      ensures multiset(v.queues[l])[f] == Tokens(v, l, f)
    {
      if f.conn != c {
        assert Tokens(v, l, f) == Tokens(w, l, f) && Bag(out)[f] == Bag(in_)[f] == 0;
      }
    }
    forall f | f in v.queues[l] && f.Request?
      ensures f.conn < |v.conns| && v.conns[f.conn].loop == l && !v.conns[f.conn].freed && |v.conns[f.conn].trail| > 0
    {
      assert multiset(v.queues[l])[f] > 0;
      if f !in w.queues[l] {
        assert multiset(w.queues[l])[f] == 0;
      }
    }
  }

  lemma OthersKept(w: World, v: World, c: nat)
    requires Inv(w) && Settled(w, v, c)
    ensures forall d :: 0 <= d < |v.conns| ==> ConnOk(v, d)
  {
    forall d | 0 <= d < |v.conns|
      ensures ConnOk(v, d)
    {
      assert ConnOk(w, d);
    }
  }

  lemma Advance(w: World, v: World, c: nat, from: Option<nat>, gone: Functor, to: Option<nat>, come: Functor)
    requires Inv(w) && Settled(w, v, c)
    requires gone.conn == come.conn == c
    requires to.Some? && come.Request? ==> to.value == w.conns[c].loop && !w.conns[c].freed && |w.conns[c].trail| > 0
    requires forall l :: 0 <= l < |w.queues| ==> Carried(w, v, l, c, from, gone, to, come)
    ensures Inv(v)
  {
    OthersKept(w, v, c);
    forall l: nat | l < |v.queues|
      ensures QueueOk(v, l)
    {
      QueueKept(w, v, l, c, from, gone, to, come);
    }
  }

  lemma PopShift(q: seq<Functor>)
    requires q != []
    ensures Shift(q, q[1..], Some(q[0]), None)
  {
    assert q == [q[0]] + q[1..];
  }

  lemma NoShift(q: seq<Functor>)
    ensures Shift(q, q, None, None)
  {
  }

  lemma PushShift(before: seq<Functor>, after: seq<Functor>, gone: Option<Functor>, f: Functor)
    requires Shift(before, after, gone, None)
    ensures Shift(before, after + [f], gone, Some(f))
  {
    assert multiset(before) + multiset{} == multiset(before);
    assert multiset(after + [f]) + Bag(gone) == multiset(after) + Bag(gone) + multiset{f};
  }

  // ---------------------------------------------------------------------------
  // Steps
  // ---------------------------------------------------------------------------

  lemma KeepsEstablish(w: World, l: nat, writes: bool)
    requires Inv(w) && Enabled(w, Step.Functor(l, writes)) && w.queues[l][0].Establish?
    ensures Inv(RunFunctor(w, l, writes))
  {
    var f := w.queues[l][0];
    Head(w, l);
    PopShift(w.queues[l]);
    assert ConnOk(w, f.conn);
    var v := RunFunctor(w, l, writes);
    forall m | 0 <= m < |v.handling| ensures HandlingOk(v, m) { assert HandlingOk(w, m); }
    Advance(w, v, f.conn, Some(l), f, None, f);
  }

  lemma RemoveSettled(w: World, l: nat, writes: bool)
    requires Inv(w) && Enabled(w, Step.Functor(l, writes)) && w.queues[l][0].Remove?
    ensures Settled(w, RunFunctor(w, l, writes), w.queues[l][0].conn)
  {
    var f := w.queues[l][0];
    var v := RunFunctor(w, l, writes);
    Head(w, l);
    assert ConnOk(w, f.conn);
    forall m | 0 <= m < |v.handling| ensures HandlingOk(v, m) { assert HandlingOk(w, m); }
  }

  lemma PopPushShift(queues: seq<seq<Functor>>, l: nat, to: nat, f: Functor, m: nat)
    requires l < |queues| && to < |queues| && m < |queues| && queues[l] != []
    ensures var popped := queues[l := queues[l][1..]];
            Shift(queues[m], popped[to := popped[to] + [f]][m], At(m, Some(l), queues[l][0]), At(m, Some(to), f))
  {
    hide Shift;
    var popped := queues[l := queues[l][1..]];
    if m == l { PopShift(queues[l]); } else { NoShift(queues[m]); }
    PushShift(queues[m], popped[m], At(m, Some(l), queues[l][0]), f);
  }

  lemma RemoveCarried(w: World, l: nat, writes: bool, m: nat)
    requires Inv(w) && Enabled(w, Step.Functor(l, writes)) && w.queues[l][0].Remove? && m < |w.queues|
    ensures var c := w.queues[l][0].conn;
            Carried(w, RunFunctor(w, l, writes), m, c, Some(l), Remove(c), Some(w.conns[c].loop), Destroy(c))
  {
    Head(w, l);
    PopPushShift(w.queues, l, w.conns[w.queues[l][0].conn].loop, Destroy(w.queues[l][0].conn), m);
  }

  lemma KeepsRemove(w: World, l: nat, writes: bool)
    requires Inv(w) && Enabled(w, Step.Functor(l, writes)) && w.queues[l][0].Remove?
    ensures Inv(RunFunctor(w, l, writes))
  {
    var c := w.queues[l][0].conn;
    var v := RunFunctor(w, l, writes);
    RemoveSettled(w, l, writes);
    forall m: nat | m < |w.queues|
      ensures Carried(w, v, m, c, Some(l), Remove(c), Some(w.conns[c].loop), Destroy(c))
    {
      RemoveCarried(w, l, writes, m);
    }
    Advance(w, v, c, Some(l), Remove(c), Some(w.conns[c].loop), Destroy(c));
  }

  lemma KeepsDestroy(w: World, l: nat, writes: bool)
    requires Inv(w) && Enabled(w, Step.Functor(l, writes)) && w.queues[l][0].Destroy?
    ensures Inv(RunFunctor(w, l, writes))
  {
    var f := w.queues[l][0];
    Head(w, l);
    PopShift(w.queues[l]);
    assert ConnOk(w, f.conn);
    var v := RunFunctor(w, l, writes);
    forall m | 0 <= m < |v.handling| ensures HandlingOk(v, m) { assert HandlingOk(w, m); }
    Advance(w, v, f.conn, Some(l), f, None, f);
  }

  lemma KeepsRequest(w: World, l: nat, writes: bool)
    requires Inv(w) && Enabled(w, Step.Functor(l, writes)) && w.queues[l][0].Request?
    ensures Inv(RunFunctor(w, l, writes))
  {
    var f := w.queues[l][0];
    Head(w, l);
    PopShift(w.queues[l]);
    assert ConnOk(w, f.conn);
    var v := RunFunctor(w, l, writes);
    forall m | 0 <= m < |v.handling| ensures HandlingOk(v, m) { assert HandlingOk(w, m); }
    Advance(w, v, f.conn, Some(l), f, None, f);
  }

  lemma KeepsAccept(w: World, io: nat)
    requires Inv(w) && Enabled(w, Accept(io))
    ensures Inv(NewConnection(w, io))
  {
    var v := NewConnection(w, io);
    var c := |w.conns|;
    forall d | 0 <= d < |v.conns|
      ensures ConnOk(v, d)
    {
      if d < c { assert ConnOk(w, d); }
    }
    forall l: nat | l < |v.queues|
      ensures QueueOk(v, l)
    {
      AcceptQueue(w, io, l);
    }
    forall m | 0 <= m < |v.handling| ensures HandlingOk(v, m) { assert HandlingOk(w, m); }
  }

  lemma AcceptQueue(w: World, io: nat, l: nat)
    requires Inv(w) && Enabled(w, Accept(io)) && l < |w.queues|
    ensures QueueOk(NewConnection(w, io), l)
  {
    assert QueueOk(w, l);
    var v := NewConnection(w, io);
    var c := |w.conns|;
    forall f: Functor | !f.Request?
      ensures multiset(v.queues[l])[f] == Tokens(v, l, f)
    {
      assert multiset(w.queues[l])[f] == Tokens(w, l, f);
      assert multiset(w.queues[l] + [Establish(c)]) == multiset(w.queues[l]) + multiset{Establish(c)};
    }
  }

  lemma ReadZeroSettled(w: World, l: nat)
    requires Inv(w) && Enabled(w, ReadZero(l))
    ensures Settled(w, OnReadZero(w, l), w.handling[l].conn)
  {
    var v := OnReadZero(w, l);
    assert HandlingOk(w, l) && ConnOk(w, w.handling[l].conn);
    forall m | 0 <= m < |v.handling| ensures HandlingOk(v, m) { assert HandlingOk(w, m); }
  }

  lemma ReadZeroTokens(w: World, l: nat, m: nat)
    requires Enabled(w, ReadZero(l)) && m < |w.queues|
    requires var k := w.conns[w.handling[l].conn]; |k.trail| == 1 && k.loop == l
    ensures var c := w.handling[l].conn;
            var come := if l == 0 then Destroy(c) else Remove(c);
            forall f: Functor :: f.conn == c && !f.Request? ==>
              Tokens(OnReadZero(w, l), m, f) + Bag(At(m, None, come))[f] == Tokens(w, m, f) + Bag(At(m, Some(0), come))[f]
  {
  }

  lemma ReadZeroQueue(w: World, l: nat, m: nat)
    requires Enabled(w, ReadZero(l)) && m < |w.queues|
    requires w.conns[w.handling[l].conn].loop == l
    ensures var c := w.handling[l].conn;
            OnReadZero(w, l).queues[m] ==
              if m == 0 then w.queues[m] + [if l == 0 then Destroy(c) else Remove(c)] else w.queues[m]
  {
  }

  lemma KeepsReadZero(w: World, l: nat)
    requires Inv(w) && Enabled(w, ReadZero(l))
    ensures Inv(OnReadZero(w, l))
  {
    hide OnReadZero;
    var c := w.handling[l].conn;
    var v := OnReadZero(w, l);
    var come := if l == 0 then Destroy(c) else Remove(c);
    assert HandlingOk(w, l) && ConnOk(w, c);
    ReadZeroSettled(w, l);
    forall m: nat | m < |w.queues|
      ensures Carried(w, v, m, c, None, come, Some(0), come)
    {
      ReadZeroTokens(w, l, m);
      ReadZeroQueue(w, l, m);
      PushShift(w.queues[m], w.queues[m], None, come);
    }
    Advance(w, v, c, None, come, Some(0), come);
  }

  /** A change of one connection that leaves its stage, loop and lifetime alone moves no token. */
  lemma Unmoved(w: World, v: World, c: nat)
    requires Inv(w) && Settled(w, v, c) && v.queues == w.queues
    requires |v.conns[c].trail| == |w.conns[c].trail|
    ensures Inv(v)
  {
    forall l: nat | l < |w.queues|
      ensures Carried(w, v, l, c, None, Destroy(c), None, Destroy(c))
    {
    }
    Advance(w, v, c, None, Destroy(c), None, Destroy(c));
  }

  /** A request joins the queue of the connection's own loop. */
  lemma Requested(w: World, c: nat)
    requires Inv(w) && c < |w.conns| && !w.conns[c].freed && w.conns[c].loop < |w.queues| && |w.conns[c].trail| > 0
    ensures Inv(Push(w, w.conns[c].loop, Request(c)))
  {
    var to := w.conns[c].loop;
    var v := Push(w, to, Request(c));
    forall d | 0 <= d < |v.conns| ensures ConnOk(v, d) { assert ConnOk(w, d); }
    forall m | 0 <= m < |v.handling| ensures HandlingOk(v, m) { assert HandlingOk(w, m); }
    forall l: nat | l < |v.queues|
      ensures QueueOk(v, l)
    {
      assert QueueOk(w, l);
      assert multiset(w.queues[l] + [Request(c)]) == multiset(w.queues[l]) + multiset{Request(c)};
      forall f: Functor | !f.Request?
        ensures multiset(v.queues[l])[f] == Tokens(v, l, f)
      {
        assert multiset(w.queues[l])[f] == Tokens(w, l, f);
      }
    }
  }

  lemma KeepsConn(w: World, v: World, c: nat)
    requires Inv(w) && c < |w.conns| == |v.conns| && v.ok
    requires v.queues == w.queues && v.connections == w.connections && v.flying == w.flying
    requires |v.handling| == |w.handling|
    requires v.conns == w.conns[c := v.conns[c]] && ConnOk(v, c)
    requires v.conns[c].loop == w.conns[c].loop && v.conns[c].freed == w.conns[c].freed
    requires |v.conns[c].trail| == |w.conns[c].trail|
    requires forall l :: 0 <= l < |w.handling| ==>
      v.handling[l] == w.handling[l] || (w.handling[l].Handling? && v.handling[l] == w.handling[l].(write := false))
    ensures Inv(v)
  {
    forall m | 0 <= m < |v.handling| ensures HandlingOk(v, m) { assert HandlingOk(w, m); }
    Unmoved(w, v, c);
  }

  lemma KeepsHandling(w: World, v: World, l: nat)
    requires Inv(w) && l < |w.handling| == |v.handling| && v == w.(handling := w.handling[l := v.handling[l]])
    requires HandlingOk(v, l)
    ensures Inv(v)
  {
    forall m | 0 <= m < |v.handling| ensures HandlingOk(v, m) { assert HandlingOk(w, m); }
    forall d | 0 <= d < |v.conns| ensures ConnOk(v, d) { assert ConnOk(w, d); }
    forall m | 0 <= m < |v.queues| ensures QueueOk(v, m) {
      assert QueueOk(w, m);
      assert forall f :: Tokens(v, m, f) == Tokens(w, m, f);
    }
  }

  lemma KeepsRelease(w: World, c: nat)
    requires Inv(w) && Enabled(w, Release(c))
    ensures Inv(Next(w, Release(c)))
  {
    var v := Next(w, Release(c));
    assert ConnOk(w, c);
    Spent(w, c);
    forall m | 0 <= m < |v.handling| ensures HandlingOk(v, m) { assert HandlingOk(w, m); }
    forall l | 0 <= l < |w.handling|
      ensures w.handling[l].Idle? || w.handling[l].conn != c
    {
      assert HandlingOk(w, l);
    }
    forall d | 0 <= d < |v.conns| ensures ConnOk(v, d) { assert ConnOk(w, d); }
    forall l: nat | l < |v.queues|
      ensures QueueOk(v, l)
    {
      assert QueueOk(w, l);
      assert forall f :: Tokens(v, l, f) == Tokens(w, l, f);
    }
  }

  /** A connection nothing refers to has been through its whole life. */
  lemma Spent(w: World, c: nat)
    requires Inv(w) && c < |w.conns| && Unreferenced(w, c)
    ensures |w.conns[c].trail| == 4
  {
    assert ConnOk(w, c);
    var loop := w.conns[c].loop;
    assert QueueOk(w, loop);
    assert Tokens(w, loop, Destroy(c)) == multiset(w.queues[loop])[Destroy(c)];
    assert Destroy(c) !in w.queues[loop];
  }

  // ---------------------------------------------------------------------------
  // Runs
  // ---------------------------------------------------------------------------

  /** A call joins those in flight, or leaves them. */
  lemma KeepsFlying(w: World, v: World)
    requires Inv(w) && v == w.(flying := v.flying) && FlyingOk(v)
    ensures Inv(v)
  {
    forall d | 0 <= d < |v.conns| ensures ConnOk(v, d) { assert ConnOk(w, d); }
    forall m | 0 <= m < |v.handling| ensures HandlingOk(v, m) { assert HandlingOk(w, m); }
    forall m | 0 <= m < |v.queues| ensures QueueOk(v, m) {
      assert QueueOk(w, m);
      assert forall f :: Tokens(v, m, f) == Tokens(w, m, f);
    }
  }

  lemma KeepsForeignShutdown(w: World, c: nat)
    requires Inv(w) && Enabled(w, ForeignShutdown(c))
    ensures Inv(Next(w, ForeignShutdown(c)))
  {
    assert ConnOk(w, c);
    var w1 := Become(w, c, w.conns[c].(state := Disconnecting), true);
    KeepsConn(w, w1, c);
    KeepsFlying(w1, w1.(flying := w1.flying + multiset{c}));
  }

  lemma KeepsRequestPush(w: World, c: nat)
    requires Inv(w) && Enabled(w, RequestPush(c))
    ensures Inv(PushRequest(w, c))
  {
    var w1 := w.(flying := w.flying - multiset{c});
    KeepsFlying(w, w1);
    Requested(w1, c);
  }

  lemma KeepsNext(w: World, step: Step)
    requires Inv(w) && Enabled(w, step)
    ensures Inv(Next(w, step))
  {
    hide NewConnection, RunFunctor, OnReadZero;
    var v := Next(w, step);
    match step
    case Accept(io) => KeepsAccept(w, io);
    case Functor(l, writes) =>
      match w.queues[l][0] {
        case Establish(_) => KeepsEstablish(w, l, writes);
        case Remove(_) => KeepsRemove(w, l, writes);
        case Destroy(_) => KeepsDestroy(w, l, writes);
        case Request(_) => KeepsRequest(w, l, writes);
      }
    case Begin(l, c, _, _) => assert ConnOk(w, c); KeepsHandling(w, v, l);
    case ReadZero(l) => KeepsReadZero(w, l);
    case ReadMore(l) => assert HandlingOk(w, l); KeepsHandling(w, v, l);
    case WriteReady(l, _) => assert HandlingOk(w, l) && ConnOk(w, w.handling[l].conn); KeepsConn(w, v, w.handling[l].conn);
    case End(l) => KeepsHandling(w, v, l);
    case LoopSend(c) => assert ConnOk(w, c); KeepsConn(w, v, c);
    case LoopShutdown(c) => assert ConnOk(w, c); KeepsConn(w, v, c);
    case ForeignSend(c) => assert ConnOk(w, c); KeepsFlying(w, v);
    case ForeignShutdown(c) => KeepsForeignShutdown(w, c);
    case RequestPush(c) => KeepsRequestPush(w, c);
    case Release(c) => KeepsRelease(w, c);
  }

  lemma {:induction false} KeepsRun(w: World, steps: seq<Step>)
    requires Inv(w) && Legal(w, steps)
    ensures Inv(Run(w, steps))
    decreases |steps|
  {
    if steps != [] {
      KeepsNext(w, steps[0]);
      KeepsRun(Next(w, steps[0]), steps[1..]);
    }
  }

  // ---------------------------------------------------------------------------
  // Theorems
  // ---------------------------------------------------------------------------

  /** How many times a functor stands in the loops' queues. */
  function Queued(queues: seq<seq<Functor>>, f: Functor): nat {
    if queues == [] then 0 else multiset(queues[0])[f] + Queued(queues[1..], f)
  }

  /** No assert ever fails, in any interleaving of any number of loops and connections. */
  lemma NoAssertFails(loops: nat, steps: seq<Step>)
    requires loops > 0 && Legal(Init(loops), steps)
    ensures Run(Init(loops), steps).ok
  {
    InvInit(loops);
    KeepsRun(Init(loops), steps);
  }

  /** A queue whose only share of a functor is at loop `at` holds it there alone. */
  lemma {:induction false} QueuedOnce(queues: seq<seq<Functor>>, f: Functor, at: int, n: nat)
    requires forall l :: 0 <= l < |queues| ==> multiset(queues[l])[f] == if l == at then n else 0
    ensures Queued(queues, f) == if 0 <= at < |queues| then n else 0
    decreases |queues|
  {
    if queues != [] {
      assert multiset(queues[0])[f] == if 0 == at then n else 0;
      forall l | 0 <= l < |queues[1..]|
        ensures multiset(queues[1..][l])[f] == if l == at - 1 then n else 0
      {
        assert queues[1..][l] == queues[l + 1];
      }
      QueuedOnce(queues[1..], f, at - 1, n);
    }
  }

  lemma TokensQueued(w: World, c: nat)
    requires Inv(w) && c < |w.conns|
    ensures var stage := |w.conns[c].trail|;
            && Queued(w.queues, Establish(c)) == (if stage == 0 then 1 else 0)
            && Queued(w.queues, Remove(c)) == (if stage == 2 then 1 else 0)
            && Queued(w.queues, Destroy(c)) == (if stage == 3 then 1 else 0)
  {
    var k := w.conns[c];
    var stage := |k.trail|;
    assert ConnOk(w, c);
    forall l | 0 <= l < |w.queues|
      ensures multiset(w.queues[l])[Establish(c)] == if l == k.loop then (if stage == 0 then 1 else 0) else 0
      ensures multiset(w.queues[l])[Remove(c)] == if l == 0 then (if stage == 2 then 1 else 0) else 0
      ensures multiset(w.queues[l])[Destroy(c)] == if l == k.loop then (if stage == 3 then 1 else 0) else 0
    {
      assert QueueOk(w, l);
    }
    QueuedOnce(w.queues, Establish(c), k.loop, if stage == 0 then 1 else 0);
    QueuedOnce(w.queues, Remove(c), 0, if stage == 2 then 1 else 0);
    QueuedOnce(w.queues, Destroy(c), k.loop, if stage == 3 then 1 else 0);
  }

  /**
   Every accepted connection is established, closed, erased and destroyed at most
   once each and in that order, and holds exactly one token on the way.
   */
  lemma LifeCycle(loops: nat, steps: seq<Step>, c: nat)
    requires loops > 0 && Legal(Init(loops), steps)
    requires c < |Run(Init(loops), steps).conns|
    ensures var w := Run(Init(loops), steps);
            var trail := w.conns[c].trail;
            && trail <= LIFE
            && Queued(w.queues, Establish(c)) == (if trail == [] then 1 else 0)
            && Queued(w.queues, Remove(c)) == (if trail == [Established, Shut] then 1 else 0)
            && Queued(w.queues, Destroy(c)) == (if trail == [Established, Shut, Erased] then 1 else 0)
  {
    InvInit(loops);
    KeepsRun(Init(loops), steps);
    var w := Run(Init(loops), steps);
    assert ConnOk(w, c);
    TokensQueued(w, c);
  }

  /** The map holds a connection exactly while it waits to be established, is live, or waits to be removed. */
  lemma MapMembership(loops: nat, steps: seq<Step>, c: nat)
    requires loops > 0 && Legal(Init(loops), steps)
    ensures var w := Run(Init(loops), steps);
            c in w.connections <==>
              c < |w.conns| && (Queued(w.queues, Establish(c)) == 1 || w.conns[c].trail == [Established] || Queued(w.queues, Remove(c)) == 1)
  {
    InvInit(loops);
    KeepsRun(Init(loops), steps);
    var w := Run(Init(loops), steps);
    if c < |w.conns| {
      assert ConnOk(w, c);
      TokensQueued(w, c);
    }
  }

  /** The last reference can only go after the whole life, and never while the channel handles an event. */
  lemma ReleasedOnlyWhenDone(loops: nat, steps: seq<Step>, c: nat)
    requires loops > 0 && Legal(Init(loops), steps)
    requires c < |Run(Init(loops), steps).conns| && Unreferenced(Run(Init(loops), steps), c)
    ensures var w := Run(Init(loops), steps);
            w.conns[c].trail == [Established, Shut, Erased, Destroyed] && !w.conns[c].watched
            && forall l :: 0 <= l < |w.handling| ==> w.handling[l].Idle? || w.handling[l].conn != c
  {
    InvInit(loops);
    KeepsRun(Init(loops), steps);
    var w := Run(Init(loops), steps);
    assert ConnOk(w, c);
    Spent(w, c);
    forall l | 0 <= l < |w.handling|
      ensures w.handling[l].Idle? || w.handling[l].conn != c
    {
      assert HandlingOk(w, l);
    }
  }

  // ---------------------------------------------------------------------------
  // Loop, state and release, told from the steps
  // ---------------------------------------------------------------------------

  /** The loop that each accepted connection was given, in order. */
  function Placed(steps: seq<Step>): seq<nat> {
    if steps == [] then [] else (if steps[0].Accept? then [steps[0].io] else []) + Placed(steps[1..])
  }

  /** Some thread's shutdown found connection `c` connected. */
  predicate ShutDown(step: Step, c: nat) {
    step == LoopShutdown(c) || step == ForeignShutdown(c)
  }

  ghost predicate WasShutDown(steps: seq<Step>, c: nat) {
    LoopShutdown(c) in steps || ForeignShutdown(c) in steps
  }

  /** What one step may do to a connection's state. */
  predicate StateMove(before: StateE, after: StateE, shut: bool) {
    match before
    case Connecting => !shut && after in {Connecting, Connected}
    case Connected => if shut then after == Disconnecting else after in {Connected, Disconnected}
    case Disconnecting => !shut && after in {Disconnecting, Disconnected}
    case Disconnected => !shut && after == Disconnected
  }

  /** A step leaves the connection on its loop, releases it only if it is the release, and moves its state on. */
  ghost predicate Follows(w: World, step: Step, v: World, c: nat)
    requires c < |w.conns|
  {
    && c < |v.conns| && v.conns[c].loop == w.conns[c].loop
    && (v.conns[c].freed <==> w.conns[c].freed || step == Release(c))
    && StateMove(w.conns[c].state, v.conns[c].state, ShutDown(step, c))
  }

  lemma FunctorFollows(w: World, l: nat, writes: bool, c: nat)
    requires Inv(w) && Enabled(w, Functor(l, writes)) && c < |w.conns|
    ensures Follows(w, Functor(l, writes), RunFunctor(w, l, writes), c)
    ensures |RunFunctor(w, l, writes).conns| == |w.conns|
  {
    Head(w, l);
    assert ConnOk(w, c) && ConnOk(w, w.queues[l][0].conn);
    hide QueueOk, HandlingOk, FlyingOk;
  }

  lemma ReadFollows(w: World, l: nat, c: nat)
    requires Inv(w) && Enabled(w, ReadZero(l)) && c < |w.conns|
    ensures Follows(w, ReadZero(l), OnReadZero(w, l), c)
    ensures |OnReadZero(w, l).conns| == |w.conns|
  {
    hide Inv, QueueOk, HandlingOk, FlyingOk, ConnOk;
  }

  /** A new connection is put on the loop that was picked, and known to the server. */
  lemma AcceptFollows(w: World, io: nat)
    requires Enabled(w, Accept(io))
    ensures var v := NewConnection(w, io);
            && |v.conns| == |w.conns| + 1 && v.conns[..|w.conns|] == w.conns
            && v.conns[|w.conns|].loop == io && !v.conns[|w.conns|].freed
            && v.conns[|w.conns|].state in {Connecting, Connected}
  {
  }

  lemma FollowsNext(w: World, step: Step, c: nat)
    requires Inv(w) && Enabled(w, step) && c < |w.conns|
    ensures Follows(w, step, Next(w, step), c)
  {
    hide RunFunctor, OnReadZero, NewConnection, Inv;
    match step
    case Accept(io) => AcceptFollows(w, io); assert Next(w, step).conns[..|w.conns|][c] == w.conns[c];
    case Functor(l, writes) => FunctorFollows(w, l, writes, c);
    case ReadZero(l) => ReadFollows(w, l, c);
    case _ => AsideFollows(w, step, c); hide Follows, Next;
  }

  lemma AsideFollows(w: World, step: Step, c: nat)
    requires Enabled(w, step) && c < |w.conns| && !step.Accept? && !step.Functor? && !step.ReadZero?
    ensures Follows(w, step, Next(w, step), c)
  {
    hide RunFunctor, OnReadZero, NewConnection, Unreferenced;
  }

  lemma CountNext(w: World, step: Step)
    requires Inv(w) && Enabled(w, step)
    ensures |Next(w, step).conns| == |w.conns| + One(step.Accept?)
    ensures step.Accept? ==> var k := Next(w, step).conns[|w.conns|]; k.loop == step.io && !k.freed && k.state in {Connecting, Connected}
  {
    hide RunFunctor, OnReadZero, NewConnection, QueueOk, HandlingOk, FlyingOk, ConnOk;
    match step
    case Accept(io) => AcceptFollows(w, io);
    case Functor(l, writes) => FunctorFollows(w, l, writes, w.queues[l][0].conn);
    case ReadZero(l) => ReadFollows(w, l, w.handling[l].conn);
    case _ =>
  }

  /** What a run makes of a connection that is there at its start. */
  lemma {:induction false} FollowsRun(w: World, steps: seq<Step>, c: nat)
    requires Inv(w) && Legal(w, steps) && c < |w.conns|
    ensures var v := Run(w, steps);
            && c < |v.conns| && v.conns[c].loop == w.conns[c].loop
            && (v.conns[c].freed <==> w.conns[c].freed || Release(c) in steps)
            && (w.conns[c].state == Disconnecting || WasShutDown(steps, c) ==> v.conns[c].state in {Disconnecting, Disconnected})
            && (v.conns[c].state == Disconnecting ==> w.conns[c].state == Disconnecting || WasShutDown(steps, c))
            && (w.conns[c].state == Disconnected ==> v.conns[c].state == Disconnected)
    decreases |steps|
  {
    hide Inv, Next, Enabled;
    if steps != [] {
      KeepsNext(w, steps[0]);
      FollowsNext(w, steps[0], c);
      FollowsRun(Next(w, steps[0]), steps[1..], c);
      assert steps == [steps[0]] + steps[1..];
    }
  }

  lemma NotYet(w: World, step: Step, c: nat)
    requires Enabled(w, step) && |w.conns| <= c
    ensures step != Release(c) && !ShutDown(step, c)
  {
  }

  /** What a run makes of a connection that is accepted in it. */
  lemma {:induction false} PlacedRun(w: World, steps: seq<Step>, c: nat)
    requires Inv(w) && Legal(w, steps) && |w.conns| <= c
    ensures var v := Run(w, steps);
            && |v.conns| == |w.conns| + |Placed(steps)|
            && (c < |v.conns| ==>
                  && v.conns[c].loop == Placed(steps)[c - |w.conns|]
                  && (v.conns[c].freed <==> Release(c) in steps)
                  && (v.conns[c].state == Disconnecting ==> WasShutDown(steps, c))
                  && (WasShutDown(steps, c) ==> v.conns[c].state in {Disconnecting, Disconnected}))
    decreases |steps|
  {
    hide Inv, Next, Enabled;
    if steps != [] {
      var w1, rest := Next(w, steps[0]), steps[1..];
      KeepsNext(w, steps[0]);
      CountNext(w, steps[0]);
      NotYet(w, steps[0], c);
      assert steps == [steps[0]] + rest;
      if |w1.conns| <= c {
        PlacedRun(w1, rest, c);
      } else {
        PlacedRun(w1, rest, c + 1);
        FollowsRun(w1, rest, c);
      }
    }
  }

  /**
   Connection `c` is the c-th accepted, and stays on the loop it was given then. It is
   released by its release and nothing else. Between establishment and destruction it is
   disconnecting exactly if some shutdown found it connected.
   */
  lemma PlacedExact(loops: nat, steps: seq<Step>, c: nat)
    requires loops > 0 && Legal(Init(loops), steps)
    requires c < |Run(Init(loops), steps).conns|
    ensures var w := Run(Init(loops), steps);
            && |w.conns| == |Placed(steps)| && w.conns[c].loop == Placed(steps)[c]
            && (w.conns[c].freed <==> Release(c) in steps)
            && (1 <= |w.conns[c].trail| <= 3 ==>
                  w.conns[c].state == if WasShutDown(steps, c) then Disconnecting else Connected)
  {
    InvInit(loops);
    KeepsRun(Init(loops), steps);
    assert ConnOk(Run(Init(loops), steps), c);
    hide QueueOk, HandlingOk, FlyingOk, Legal, Run, Placed;
    PlacedRun(Init(loops), steps, c);
  }

  // ---------------------------------------------------------------------------
  // Requests of other threads
  // ---------------------------------------------------------------------------

  lemma {:induction false} QueuedUpdate(queues: seq<seq<Functor>>, l: nat, q: seq<Functor>, f: Functor)
    requires l < |queues|
    ensures Queued(queues[l := q], f) + multiset(queues[l])[f] == Queued(queues, f) + multiset(q)[f]
    decreases |queues|
  {
    if l == 0 {
      assert queues[0 := q][1..] == queues[1..];
    } else {
      QueuedUpdate(queues[1..], l - 1, q, f);
      assert queues[l := q][1..] == queues[1..][l - 1 := q];
    }
  }

  lemma QueuedPush(queues: seq<seq<Functor>>, l: nat, g: Functor, f: Functor)
    requires l < |queues|
    ensures Queued(queues[l := queues[l] + [g]], f) == Queued(queues, f) + One(g == f)
  {
    QueuedUpdate(queues, l, queues[l] + [g], f);
  }

  lemma QueuedPop(queues: seq<seq<Functor>>, l: nat, f: Functor)
    requires l < |queues| && queues[l] != []
    ensures Queued(queues[l := queues[l][1..]], f) + One(queues[l][0] == f) == Queued(queues, f)
  {
    QueuedUpdate(queues, l, queues[l][1..], f);
    assert queues[l] == [queues[l][0]] + queues[l][1..];
  }

  /** A step in which a call on another thread gets past its look at the state of `c`. */
  predicate Begins(step: Step, c: nat) {
    step == ForeignSend(c) || step == ForeignShutdown(c)
  }

  /** A step in which a request for `c` runs. */
  predicate RunsRequest(w: World, step: Step, c: nat)
    requires Enabled(w, step)
  {
    step.Functor? && w.queues[step.loop][0] == Request(c)
  }

  function BegunBy(steps: seq<Step>, c: nat): nat {
    if steps == [] then 0 else One(Begins(steps[0], c)) + BegunBy(steps[1..], c)
  }

  function RunBy(w: World, steps: seq<Step>, c: nat): nat
    requires Legal(w, steps)
    decreases |steps|
  {
    if steps == [] then 0 else One(RunsRequest(w, steps[0], c)) + RunBy(Next(w, steps[0]), steps[1..], c)
  }

  lemma RequestFunctor(w: World, l: nat, writes: bool, c: nat)
    requires Enabled(w, Functor(l, writes))
    ensures var v := RunFunctor(w, l, writes);
            && v.flying == w.flying
            && Queued(v.queues, Request(c)) + One(w.queues[l][0] == Request(c)) == Queued(w.queues, Request(c))
  {
    QueuedPop(w.queues, l, Request(c));
    var popped := w.queues[l := w.queues[l][1..]];
    if w.queues[l][0].Remove? {
      var d := w.queues[l][0].conn;
      QueuedPush(popped, w.conns[d].loop, Destroy(d), Request(c));
    }
    hide Queued;
  }

  lemma RequestRead(w: World, l: nat, c: nat)
    requires Enabled(w, ReadZero(l))
    ensures var v := OnReadZero(w, l); v.flying == w.flying && Queued(v.queues, Request(c)) == Queued(w.queues, Request(c))
  {
    var d := w.handling[l].conn;
    QueuedPush(w.queues, 0, Remove(d), Request(c));
    QueuedPush(w.queues, w.conns[d].loop, Destroy(d), Request(c));
    hide Queued;
  }

  lemma RequestAccept(w: World, io: nat, c: nat)
    requires Enabled(w, Accept(io))
    ensures var v := NewConnection(w, io); v.flying == w.flying && Queued(v.queues, Request(c)) == Queued(w.queues, Request(c))
  {
    QueuedPush(w.queues, io, Establish(|w.conns|), Request(c));
    hide Queued;
  }

  lemma RequestPushed(w: World, d: nat, c: nat)
    requires Enabled(w, RequestPush(d))
    ensures var v := PushRequest(w, d);
            v.flying[c] + Queued(v.queues, Request(c)) == w.flying[c] + Queued(w.queues, Request(c))
  {
    QueuedPush(w.queues, w.conns[d].loop, Request(d), Request(c));
    hide Queued;
  }

  lemma RequestNext(w: World, step: Step, c: nat)
    requires Enabled(w, step)
    ensures var v := Next(w, step);
            v.flying[c] + Queued(v.queues, Request(c)) + One(RunsRequest(w, step, c))
            == w.flying[c] + Queued(w.queues, Request(c)) + One(Begins(step, c))
  {
    hide Queued, RunFunctor, OnReadZero, NewConnection, PushRequest;
    match step
    case Accept(io) => RequestAccept(w, io, c);
    case Functor(l, writes) => RequestFunctor(w, l, writes, c);
    case ReadZero(l) => RequestRead(w, l, c);
    case RequestPush(d) => RequestPushed(w, d, c);
    case _ =>
  }

  lemma {:induction false} RequestRun(w: World, steps: seq<Step>, c: nat)
    requires Legal(w, steps)
    ensures var v := Run(w, steps);
            v.flying[c] + Queued(v.queues, Request(c)) + RunBy(w, steps, c)
            == w.flying[c] + Queued(w.queues, Request(c)) + BegunBy(steps, c)
    decreases |steps|
  {
    hide Queued, Next, Enabled, RunsRequest, Begins;
    if steps != [] {
      RequestNext(w, steps[0], c);
      RequestRun(Next(w, steps[0]), steps[1..], c);
    }
  }

  /** Every call that got past its look at the state is still on its way, or has its request queued, or run: once. */
  lemma RequestsConserved(loops: nat, steps: seq<Step>, c: nat)
    requires Legal(Init(loops), steps)
    ensures var w := Run(Init(loops), steps);
            w.flying[c] + Queued(w.queues, Request(c)) + RunBy(Init(loops), steps, c) == BegunBy(steps, c)
  {
    RequestRun(Init(loops), steps, c);
    QueuedOnce(Init(loops).queues, Request(c), 0, 0);
  }

  // ---------------------------------------------------------------------------
  // Write interest
  // ---------------------------------------------------------------------------

  /** The step has a write left over: a send on the loop's thread, or a queued one that runs now. */
  predicate LeavesOutput(w: World, step: Step, c: nat)
    requires Enabled(w, step)
  {
    || step == LoopSend(c)
    || (step.Functor? && w.queues[step.loop][0] == Request(c) && step.writes)
  }

  /** The step drains the connection, closes it or destroys it. */
  predicate EndsOutput(w: World, step: Step, c: nat)
    requires Enabled(w, step)
  {
    || (step.WriteReady? && w.handling[step.loop].conn == c && step.drained)
    || (step.ReadZero? && w.handling[step.loop].conn == c)
    || (step.Functor? && w.queues[step.loop][0] == Destroy(c))
  }

  lemma WritingFunctor(w: World, l: nat, writes: bool, c: nat)
    requires Enabled(w, Functor(l, writes)) && c < |w.conns|
    ensures var v := RunFunctor(w, l, writes);
            var step := Functor(l, writes);
            |v.conns| == |w.conns| &&
            (v.conns[c].writing <==> LeavesOutput(w, step, c) || (w.conns[c].writing && !EndsOutput(w, step, c)))
  {
  }

  lemma WritingRead(w: World, l: nat, c: nat)
    requires Enabled(w, ReadZero(l)) && c < |w.conns|
    ensures var v := OnReadZero(w, l);
            |v.conns| == |w.conns| && (v.conns[c].writing <==> w.conns[c].writing && w.handling[l].conn != c)
  {
  }

  /**
   In every run a connection's write interest goes up with a write that is left over, also
   when that is a request of another thread that runs after the close, and goes down when
   the output drains, the connection closes or is destroyed; nothing else touches it.
   */
  lemma WritingExact(loops: nat, trace: seq<Step>, step: Step, c: nat)
    requires loops > 0 && Legal(Init(loops), trace) && Enabled(Run(Init(loops), trace), step)
    requires c < |Run(Init(loops), trace).conns|
    ensures var w := Run(Init(loops), trace);
            var v := Next(w, step);
            c < |v.conns| &&
            (v.conns[c].writing <==> LeavesOutput(w, step, c) || (w.conns[c].writing && !EndsOutput(w, step, c)))
  {
    var w := Run(Init(loops), trace);
    hide RunFunctor, OnReadZero, NewConnection, Legal, Run;
    match step
    case Accept(io) => AcceptFollows(w, io); assert Next(w, step).conns[..|w.conns|][c] == w.conns[c];
    case Functor(l, writes) => WritingFunctor(w, l, writes, c);
    case ReadZero(l) => WritingRead(w, l, c);
    case _ =>
  }
}
