/**
 Safety and freedom from lost wakeups for the bounded queue, over every
 interleaving of any number of threads.
 */
module QueueProofs {
  import opened Basics
  import opened QueueSpec

  // ---------------------------------------------------------------------------
  // The invariant
  // ---------------------------------------------------------------------------

  predicate HoldsMutex(stage: Stage) {
    stage in {Testing, Passed, Moved, Notified}
  }

  /** The conditions and the mutex agree with what each thread is doing. */
  ghost predicate Consistent(s: State, t: nat) {
    var th := ThreadOf(s, t);
    && (s.owner == Some(t) <==> th.Busy? && HoldsMutex(th.stage))
    && (t in s.notEmpty.waiting <==> th.Busy? && th.role.Take? && th.stage.Waiting?)
    && (t in s.notEmpty.woken <==> th.Busy? && th.role.Take? && th.stage.Woken?)
    && (t in s.notFull.waiting <==> th.Busy? && th.role.Put? && th.stage.Waiting?)
    && (t in s.notFull.woken <==> th.Busy? && th.role.Put? && th.stage.Woken?)
  }

  /**
   Whether the mutex holder is bound to use up one unit of what threads of `role`
   wait for, or to pass one on: it is one of them, not yet done, or one of the
   others that has moved an item and not yet signalled.
   */
  predicate InHand(s: State, role: Role) {
    s.owner.Some? &&
    var th := ThreadOf(s, s.owner.value);
    th.Busy? && if th.role == role then th.stage in {Testing, Passed} else th.stage == Moved
  }

  /** What threads of `role` wait for: items for takers, free places for putters. */
  function Supply(s: State, role: Role): int {
    if role.Take? then |s.items| else s.capacity - |s.items|
  }

  /** While one waits unsignalled, every unit of supply is already spoken for. */
  predicate SpokenFor(s: State, role: Role) {
    var c := CondOf(s, role);
    c.waiting != {} ==> Supply(s, role) <= |c.woken| + if InHand(s, role) then 1 else 0
  }

  ghost predicate Inv(s: State) {
    && s.ok
    && |s.items| <= s.capacity
    && s.puts == s.takes + s.items
    && (forall t: nat :: Consistent(s, t))
    && (s.owner.Some? && At(s, s.owner.value, Passed) ==> !Blocked(s, ThreadOf(s, s.owner.value).role))
    && SpokenFor(s, Take) && SpokenFor(s, Put)
  }

  lemma InvInit(capacity: nat)
    ensures Inv(Init(capacity))
  {
  }

  lemma KeepsCall(s: State, t: nat, role: Role, x: Item)
    requires Inv(s) && Enabled(s, Call(t, role, x))
    ensures Inv(Next(s, Call(t, role, x)))
  {
    var v := Next(s, Call(t, role, x));
    assert Consistent(s, t);
    forall u: nat ensures Consistent(v, u) { assert Consistent(s, u); }
  }

  lemma KeepsAcquire(s: State, t: nat)
    requires Inv(s) && Enabled(s, Acquire(t))
    ensures Inv(Next(s, Acquire(t)))
  {
    var v := Next(s, Acquire(t));
    assert Consistent(s, t);
    forall u: nat ensures Consistent(v, u) { assert Consistent(s, u); }
  }

  lemma KeepsTest(s: State, t: nat)
    requires Inv(s) && Enabled(s, Test(t))
    ensures Inv(Next(s, Test(t)))
  {
    var v := Next(s, Test(t));
    assert Consistent(s, t);
    forall u: nat ensures Consistent(v, u) { assert Consistent(s, u); }
  }

  lemma KeepsMove(s: State, t: nat)
    requires Inv(s) && Enabled(s, Move(t))
    ensures Inv(Next(s, Move(t)))
  {
    var v := Next(s, Move(t));
    assert Consistent(s, t);
    forall u: nat ensures Consistent(v, u) { assert Consistent(s, u); }
    if ThreadOf(s, t).role.Take? {
      assert s.takes + s.items == (s.takes + [s.items[0]]) + s.items[1..];
    }
  }

  lemma KeepsNotify(s: State, t: nat, w: Option<nat>)
    requires Inv(s) && Enabled(s, Notify(t, w))
    ensures Inv(Next(s, Notify(t, w)))
  {
    var v := Next(s, Notify(t, w));
    assert Consistent(s, t);
    if w.Some? { assert Consistent(s, w.value); }
    forall u: nat ensures Consistent(v, u) { assert Consistent(s, u); }
  }

  lemma KeepsUnlock(s: State, t: nat)
    requires Inv(s) && Enabled(s, Unlock(t))
    ensures Inv(Next(s, Unlock(t)))
  {
    var v := Next(s, Unlock(t));
    assert Consistent(s, t);
    forall u: nat ensures Consistent(v, u) { assert Consistent(s, u); }
  }

  lemma KeepsSpurious(s: State, t: nat)
    requires Inv(s) && Enabled(s, Spurious(t))
    ensures Inv(Next(s, Spurious(t)))
  {
    var v := Next(s, Spurious(t));
    assert Consistent(s, t);
    forall u: nat ensures Consistent(v, u) { assert Consistent(s, u); }
  }

  lemma KeepsNext(s: State, step: Step)
    requires Inv(s) && Enabled(s, step)
    ensures Inv(Next(s, step))
  {
    match step
    case Call(t, role, x) => KeepsCall(s, t, role, x);
    case Acquire(t) => KeepsAcquire(s, t);
    case Test(t) => KeepsTest(s, t);
    case Move(t) => KeepsMove(s, t);
    case Notify(t, w) => KeepsNotify(s, t, w);
    case Unlock(t) => KeepsUnlock(s, t);
    case Spurious(t) => KeepsSpurious(s, t);
  }

  lemma {:induction false} KeepsRun(s: State, steps: seq<Step>)
    requires Inv(s) && Legal(s, steps)
    ensures Inv(Run(s, steps))
    decreases |steps|
  {
    if steps != [] {
      KeepsNext(s, steps[0]);
      KeepsRun(Next(s, steps[0]), steps[1..]);
    }
  }

  // ---------------------------------------------------------------------------
  // Theorems
  // ---------------------------------------------------------------------------

  /** The bound holds, items come out in the order they went in, and neither assert fails. */
  lemma Fifo(capacity: nat, steps: seq<Step>)
    requires Legal(Init(capacity), steps)
    ensures var s := Run(Init(capacity), steps);
            s.ok && |s.items| <= capacity && s.takes <= s.puts && s.items == s.puts[|s.takes|..]
  {
    InvInit(capacity);
    KeepsRun(Init(capacity), steps);
    CapacityKept(Init(capacity), steps);
  }

  lemma {:induction false} CapacityKept(s: State, steps: seq<Step>)
    requires Legal(s, steps)
    ensures Run(s, steps).capacity == s.capacity
    decreases |steps|
  {
    if steps != [] { CapacityKept(Next(s, steps[0]), steps[1..]); }
  }

  /**
   No signal is lost: with the mutex free, a taker that still waits unsignalled
   means no more items than signalled takers, and dually for putters and free places.
   */
  lemma NoLostSignal(capacity: nat, steps: seq<Step>)
    requires Legal(Init(capacity), steps)
    ensures var s := Run(Init(capacity), steps);
            s.owner == None ==>
              && (s.notEmpty.waiting != {} ==> |s.items| <= |s.notEmpty.woken|)
              && (s.notFull.waiting != {} ==> capacity - |s.items| <= |s.notFull.woken|)
  {
    InvInit(capacity);
    KeepsRun(Init(capacity), steps);
    CapacityKept(Init(capacity), steps);
  }

  /** With room for at least one item, putters and takers are never all asleep together. */
  lemma NoDeadlock(capacity: nat, steps: seq<Step>)
    requires capacity > 0 && Legal(Init(capacity), steps)
    ensures var s := Run(Init(capacity), steps);
            s.notEmpty.waiting != {} && s.notFull.waiting != {} ==>
              s.owner.Some? || s.notEmpty.woken != {} || s.notFull.woken != {}
  {
    NoLostSignal(capacity, steps);
  }

  /** A thread in a call that cannot take a step of its own: it waits, not yet signalled. */
  predicate Asleep(s: State, t: nat) {
    At(s, t, Waiting)
  }

  /**
   If every thread inside a call sleeps, each sleeps for a good reason: the queue
   is empty for each taker, full for each putter.
   */
  lemma SleepIsJustified(capacity: nat, steps: seq<Step>, t: nat)
    requires Legal(Init(capacity), steps)
    requires var s := Run(Init(capacity), steps);
             Asleep(s, t) && forall u: nat :: ThreadOf(s, u).Busy? ==> Asleep(s, u)
    ensures var s := Run(Init(capacity), steps);
            if ThreadOf(s, t).role.Put? then |s.items| == capacity else s.items == []
  {
    InvInit(capacity);
    KeepsRun(Init(capacity), steps);
    CapacityKept(Init(capacity), steps);
    var s := Run(Init(capacity), steps);
    assert Consistent(s, t);
    assert s.owner.Some? ==> Consistent(s, s.owner.value);
    forall u: nat
      ensures u !in s.notEmpty.woken && u !in s.notFull.woken
    {
      assert Consistent(s, u);
    }
    assert s.notEmpty.woken == {} && s.notFull.woken == {};
  }
}
