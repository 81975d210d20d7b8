/**
 The life cycle gets done: left to themselves, the loops finish what they are
 dispatching, empty their functor queues and thereby bring every connection that
 has closed to the end of its life.
 */
module ServerProgress {
  import opened ServerSpec
  import opened ServerProofs

  /** A loop's own next move: a callback of the event at hand, its end, or the oldest functor. */
  predicate Own(step: Step) {
    step.ReadMore? || step.WriteReady? || step.End? || step.Functor?
  }

  // ---------------------------------------------------------------------------
  // Work left
  // ---------------------------------------------------------------------------

  /** Callbacks and ends of dispatches still to come. */
  function Open(handling: seq<Handling>): nat {
    if handling == [] then 0
    else
      var h := handling[0];
      (if h.Idle? then 0 else 1 + (if h.read then 1 else 0) + (if h.write then 1 else 0)) + Open(handling[1..])
  }

  /** A remove functor brings one more with it. */
  function Weight(queue: seq<Functor>): nat {
    if queue == [] then 0 else (if queue[0].Remove? then 2 else 1) + Weight(queue[1..])
  }

  function Work(queues: seq<seq<Functor>>): nat {
    if queues == [] then 0 else Weight(queues[0]) + Work(queues[1..])
  }

  lemma {:induction false} OpenUpdate(handling: seq<Handling>, l: nat, h: Handling)
    requires l < |handling| && Open([h]) < Open([handling[l]])
    ensures Open(handling[l := h]) < Open(handling)
  {
    var after := handling[l := h];
    assert [h][1..] == [] && [handling[l]][1..] == [];
    if l > 0 {
      assert after[1..] == handling[1..][l - 1 := h];
      OpenUpdate(handling[1..], l - 1, h);
    } else {
      assert after[1..] == handling[1..];
    }
  }

  lemma {:induction false} WeightSnoc(queue: seq<Functor>, f: Functor)
    ensures Weight(queue + [f]) == Weight(queue) + if f.Remove? then 2 else 1
  {
    if queue == [] {
      assert queue + [f] == [f] && [f][1..] == [];
    } else {
      assert (queue + [f])[1..] == queue[1..] + [f];
      WeightSnoc(queue[1..], f);
    }
  }

  lemma {:induction false} WorkUpdate(queues: seq<seq<Functor>>, l: nat, q: seq<Functor>)
    requires l < |queues|
    ensures Work(queues[l := q]) == Work(queues) - Weight(queues[l]) + Weight(q)
  {
    var after := queues[l := q];
    if l > 0 {
      assert after[1..] == queues[1..][l - 1 := q];
      WorkUpdate(queues[1..], l - 1, q);
    } else {
      assert after[1..] == queues[1..];
    }
  }

  /** Running a functor takes work away, even when it queues another. */
  lemma FunctorWorks(w: World, l: nat)
    requires Inv(w) && Enabled(w, Step.Functor(l, false))
    ensures Work(RunFunctor(w, l, false).queues) < Work(w.queues)
    ensures RunFunctor(w, l, false).handling == w.handling
  {
    var f := w.queues[l][0];
    var popped := w.queues[l := w.queues[l][1..]];
    WorkUpdate(w.queues, l, w.queues[l][1..]);
    if f.Remove? {
      var to := w.conns[f.conn].loop;
      WeightSnoc(popped[to], Destroy(f.conn));
      WorkUpdate(popped, to, popped[to] + [Destroy(f.conn)]);
    }
  }

  // ---------------------------------------------------------------------------
  // What the loops' own moves leave alone
  // ---------------------------------------------------------------------------

  predicate Past(w: World, c: nat) {
    c < |w.conns| && |w.conns[c].trail| >= 2
  }

  /** No connection joins, and none closes. */
  ghost predicate SameFate(w: World, v: World) {
    |v.conns| == |w.conns| && forall c :: 0 <= c < |w.conns| ==> (Past(v, c) <==> Past(w, c))
  }

  lemma OwnKeepsFate(w: World, step: Step)
    requires Inv(w) && Enabled(w, step) && Own(step)
    ensures SameFate(w, Next(w, step))
  {
    if step.Functor? {
      Head(w, step.loop);
      assert ConnOk(w, w.queues[step.loop][0].conn);
    }
  }

  // ---------------------------------------------------------------------------
  // Draining
  // ---------------------------------------------------------------------------

  predicate Rested(w: World) {
    forall l :: 0 <= l < |w.handling| ==> w.handling[l].Idle?
  }

  predicate Drained(w: World) {
    Rested(w) && forall l :: 0 <= l < |w.queues| ==> w.queues[l] == []
  }

  ghost predicate Reaches(w: World, steps: seq<Step>, v: World) {
    Legal(w, steps) && Run(w, steps) == v && forall step :: step in steps ==> Own(step)
  }

  lemma Before(w: World, step: Step, rest: seq<Step>, v: World)
    requires Enabled(w, step) && Own(step) && Reaches(Next(w, step), rest, v)
    ensures Reaches(w, [step] + rest, v)
  {
    assert ([step] + rest)[1..] == rest;
  }

  /** One move towards closing the dispatch a loop is in. */
  lemma Closer(w: World, l: nat) returns (step: Step)
    requires Inv(w) && l < |w.handling| && !w.handling[l].Idle?
    ensures Enabled(w, step) && Own(step) && Open(Next(w, step).handling) < Open(w.handling)
  {
    var h := w.handling[l];
    assert HandlingOk(w, l);
    step := if h.read then ReadMore(l) else if h.write then WriteReady(l, false) else End(l);
    var now := Next(w, step).handling;
    assert now == w.handling[l := now[l]];
    assert [h][1..] == [] && [now[l]][1..] == [];
    OpenUpdate(w.handling, l, now[l]);
  }

  /** A loop that is not dispatching and has a functor. */
  lemma Ready(w: World, l: nat)
    requires Inv(w) && Rested(w) && l < |w.queues| && w.queues[l] != []
    ensures Enabled(w, Step.Functor(l, false))
  {
    Head(w, l);
    assert ConnOk(w, w.queues[l][0].conn);
  }

  lemma {:induction false} Drain(w: World) returns (steps: seq<Step>, v: World)
    requires Inv(w)
    ensures Reaches(w, steps, v) && Inv(v) && Drained(v) && SameFate(w, v)
    decreases Open(w.handling), Work(w.queues)
  {
    hide Inv, Next, Enabled, Open, Work;
    if Drained(w) {
      steps, v := [], w;
    } else {
      var step;
      if l :| 0 <= l < |w.handling| && !w.handling[l].Idle? {
        step := Closer(w, l);
      } else {
        var l :| 0 <= l < |w.queues| && w.queues[l] != [];
        Ready(w, l);
        step := Step.Functor(l, false);
        RunsFunctor(w, l);
      }
      KeepsNext(w, step);
      OwnKeepsFate(w, step);
      var rest;
      rest, v := Drain(Next(w, step));
      Before(w, step, rest, v);
      steps := [step] + rest;
    }
  }

  lemma RunsFunctor(w: World, l: nat)
    requires Inv(w) && Enabled(w, Step.Functor(l, false))
    ensures var v := Next(w, Step.Functor(l, false)); Work(v.queues) < Work(w.queues) && v.handling == w.handling
  {
    FunctorWorks(w, l);
  }

  /** With nothing queued, a connection is either live or through with its life. */
  lemma Fates(w: World, c: nat)
    requires Inv(w) && Drained(w) && c < |w.conns|
    ensures w.conns[c].trail == (if Past(w, c) then LIFE else [Established])
    ensures c in w.connections <==> !Past(w, c)
  {
    assert ConnOk(w, c);
    var loop := w.conns[c].loop;
    assert QueueOk(w, loop) && QueueOk(w, 0);
    assert Tokens(w, loop, Establish(c)) == multiset(w.queues[loop])[Establish(c)] == 0;
    assert Tokens(w, loop, Destroy(c)) == multiset(w.queues[loop])[Destroy(c)] == 0;
    assert Tokens(w, 0, Remove(c)) == multiset(w.queues[0])[Remove(c)] == 0;
  }

  /**
   From any reachable state the loops' own moves alone empty all queues; every
   connection that had closed by then has been erased and destroyed, and every
   other one is established and in the map.
   */
  lemma LivesEnd(loops: nat, trace: seq<Step>) returns (steps: seq<Step>)
    requires loops > 0 && Legal(Init(loops), trace)
    ensures var w := Run(Init(loops), trace);
            && Legal(w, steps) && (forall step :: step in steps ==> Own(step))
            && var v := Run(w, steps);
               && Drained(v) && |v.conns| == |w.conns|
               && forall c :: 0 <= c < |w.conns| ==>
                    if |w.conns[c].trail| >= 2 then v.conns[c].trail == LIFE && c !in v.connections
                    else v.conns[c].trail == [Established] && c in v.connections
  {
    InvInit(loops);
    KeepsRun(Init(loops), trace);
    var w := Run(Init(loops), trace);
    var v;
    steps, v := Drain(w);
    forall c | 0 <= c < |w.conns|
      ensures if |w.conns[c].trail| >= 2 then v.conns[c].trail == LIFE && c !in v.connections
              else v.conns[c].trail == [Established] && c in v.connections
    {
      Fates(v, c);
      assert Past(v, c) <==> Past(w, c);
    }
  }
}
