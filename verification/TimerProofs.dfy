/**
 Address reuse never confuses two timers on the loop's thread, a cancelled timer never
 fires again, exactly when a cancel comes too early, and exactly which adds return
 their own timer's id.
 */
module TimerProofs {
  import opened Basics
  import opened TimerSpec

  // ---------------------------------------------------------------------------
  // The invariant
  // ---------------------------------------------------------------------------

  predicate Queued(queue: seq<Functor>, id: TimerId) {
    AddInLoop(id) in queue
  }

  /** The object an id was issued for is still the one at its address. */
  predicate Names(heap: map<nat, Timer>, id: TimerId) {
    id.addr in heap && heap[id.addr].sequence == id.sequence
  }

  /** The timer at `a` has exactly one owner: its queued add, or the set. Only the latter may run. */
  predicate OwnedAt(s: State, a: nat)
    requires a in s.heap
  {
    var id := TimerId(a, s.heap[a].sequence);
    && id in s.made
    && (Queued(s.queue, id) <==> id !in s.valid)
    && (s.heap[a].active ==> id in s.valid)
  }

  ghost predicate Owned(s: State) {
    && (forall a :: a in s.heap ==> OwnedAt(s, a))
    && (forall id :: id in s.valid ==> Names(s.heap, id))
    && (forall id :: Queued(s.queue, id) ==> Names(s.heap, id))
  }

  /** No two timers were ever issued the same number. */
  ghost predicate Numbered(s: State) {
    && (forall id :: id in s.made ==> id.addr != 0 && 0 < id.sequence <= s.created)
    && (forall a, b :: a in s.made && b in s.made && a.sequence == b.sequence ==> a == b)
    && s.issued <= s.made && s.flying <= s.made
  }

  /** An add is queued at most once, and never behind a cancel of its timer. */
  ghost predicate Lined(s: State) {
    && (forall i, j :: 0 <= i < j < |s.queue| && s.queue[i].id == s.queue[j].id ==> s.queue[j].CancelInLoop?)
    && (forall f :: f in s.queue ==> if f.AddInLoop? then f.id in s.made else f.id in s.issued || f.id == NULL_ID)
  }

  /** A timer that can never fire again: it is not running and no add is on the way. */
  ghost predicate Dead(s: State, n: nat) {
    && n <= s.created
    && (forall a :: a in s.heap && s.heap[a].sequence == n ==> !s.heap[a].active)
    && (forall id :: Queued(s.queue, id) ==> id.sequence != n)
  }

  ghost predicate Inv(s: State) {
    s.ok && Owned(s) && Numbered(s) && Lined(s)
  }

  /** A new timer gets a fresh number, so every TimerId issued so far is another one. */
  lemma NewIsFresh(s: State, addr: nat)
    requires Inv(s) && addr !in s.heap
    ensures var id := TimerId(addr, s.created + 1);
            id !in s.made && id !in s.valid && !Queued(s.queue, id)
            && forall f :: f in s.queue ==> f.id != id
  {
    var id := TimerId(addr, s.created + 1);
    assert id !in s.valid by { assert !Names(s.heap, id); }
    assert !Queued(s.queue, id) by { assert !Names(s.heap, id); }
  }

  lemma NewNumbered(s: State, addr: nat, repeat: bool)
    requires Numbered(s) && addr != 0
    ensures Numbered(NewTimer(s, addr, repeat))
  {
  }

  lemma KeepsForeignAdd(s: State, addr: nat, repeat: bool)
    requires Inv(s) && addr != 0 && addr !in s.heap
    ensures Inv(Next(s, ForeignAdd(addr, repeat)))
  {
    var t := Next(s, ForeignAdd(addr, repeat));
    var id := TimerId(addr, s.created + 1);
    NewIsFresh(s, addr);
    NewNumbered(s, addr, repeat);
    assert forall f :: f in t.queue <==> f in s.queue || f == AddInLoop(id);
    forall a | a in t.heap
      ensures OwnedAt(t, a)
    {
      if a != addr { assert OwnedAt(s, a); }
    }
    forall g | Queued(t.queue, g)
      ensures Names(t.heap, g)
    {
      assert g == id || Queued(s.queue, g);
    }
  }

  /** The timer at `addr` is started and joins the set; it was on its way there, or is new. */
  lemma KeepsStarted(s: State, t: State, addr: nat)
    requires Owned(s) && addr in s.heap
    requires t.heap == s.heap[addr := s.heap[addr].(active := true)]
    requires t.valid == s.valid + {TimerId(addr, s.heap[addr].sequence)} && t.made == s.made
    requires forall g :: Queued(t.queue, g) <==> Queued(s.queue, g) && g != TimerId(addr, s.heap[addr].sequence)
    ensures Owned(t)
  {
    forall a | a in t.heap
      ensures OwnedAt(t, a)
    {
      assert OwnedAt(s, a);
    }
  }

  lemma KeepsLoopAdd(s: State, addr: nat, repeat: bool)
    requires Inv(s) && addr != 0 && addr !in s.heap
    ensures Inv(Next(s, LoopAdd(addr, repeat)))
  {
    var t := Next(s, LoopAdd(addr, repeat));
    var id := TimerId(addr, s.created + 1);
    NewIsFresh(s, addr);
    NewNumbered(s, addr, repeat);
    // seen as a queued add that runs at once
    var m := Next(s, ForeignAdd(addr, repeat));
    KeepsForeignAdd(s, addr, repeat);
    assert forall g :: Queued(m.queue, g) <==> Queued(s.queue, g) || g == id;
    KeepsStarted(m, t, addr);
  }

  lemma KeepsReturn(s: State, own: TimerId)
    requires Inv(s) && own in s.flying
    ensures Inv(ReturnId(s, own))
  {
    var t := ReturnId(s, own);
    if own.addr in s.heap { assert OwnedAt(s, own.addr); }
    PoppedOwned(s, t);
  }

  lemma KeepsCancel(s: State, id: TimerId)
    requires Inv(s)
    ensures Inv(CancelTimer(s, id))
  {
    assert CancelTimer(s, id).queue == s.queue;
  }

  lemma KeepsPush(s: State, id: TimerId)
    requires Inv(s) && (id in s.issued || id == NULL_ID)
    ensures Inv(Next(s, ForeignCancel(id)))
  {
    var t := Next(s, ForeignCancel(id));
    assert forall f :: f in t.queue <==> f in s.queue || f == CancelInLoop(id);
  }

  lemma PoppedLined(s: State, t: State)
    requires Lined(s) && s.queue != [] && t.queue == s.queue[1..] && t.issued == s.issued && t.made == s.made
    ensures Lined(t)
    ensures s.queue[0].AddInLoop? ==> s.queue[0] !in t.queue
    ensures AddInLoop(s.queue[0].id) !in t.queue
    ensures forall g :: g in s.queue <==> g == s.queue[0] || g in t.queue
  {
    assert s.queue == [s.queue[0]] + t.queue;
    forall i, j | 0 <= i < j < |t.queue| && t.queue[i].id == t.queue[j].id
      ensures t.queue[j].CancelInLoop?
    {
      assert s.queue[i + 1] == t.queue[i] && s.queue[j + 1] == t.queue[j];
    }
    forall j | 0 <= j < |t.queue|
      ensures t.queue[j] != AddInLoop(s.queue[0].id)
    {
      assert s.queue[j + 1] == t.queue[j];
    }
  }

  lemma KeepsRunAdd(s: State)
    requires Inv(s) && s.queue != [] && s.queue[0].AddInLoop?
    ensures Inv(RunNext(s))
  {
    var t := RunNext(s);
    var id := s.queue[0].id;
    assert Queued(s.queue, id) && Names(s.heap, id);
    PoppedLined(s, t);
    KeepsStarted(s, t, id.addr);
  }

  lemma KeepsRunCancel(s: State)
    requires Inv(s) && s.queue != [] && s.queue[0].CancelInLoop?
    ensures Inv(RunNext(s))
  {
    var s1 := s.(queue := s.queue[1..]);
    PoppedLined(s, s1);
    assert forall g :: Queued(s1.queue, g) <==> Queued(s.queue, g);
    assert Inv(s1);
    KeepsCancel(s1, s.queue[0].id);
  }

  lemma KeepsClear(s: State)
    requires Inv(s)
    ensures Inv(ClearExpiredTimer(s))
  {
    var t := ClearExpiredTimer(s);
    assert t.queue == s.queue;
    forall id | Queued(s.queue, id)
      ensures id.addr !in Expired(s)
    {
      assert Names(s.heap, id);
    }
  }

  lemma KeepsFire(s: State, addr: nat)
    requires Inv(s) && Active(s.heap, addr)
    ensures Inv(Fire(s, addr))
  {
    assert Fire(s, addr).queue == s.queue;
  }

  lemma KeepsNext(s: State, step: Step)
    requires Inv(s) && Enabled(s, step)
    ensures Inv(Next(s, step))
  {
    match step
    case ForeignAdd(addr, repeat) => KeepsForeignAdd(s, addr, repeat);
    case Return(own) => KeepsReturn(s, own);
    case LoopAdd(addr, repeat) => KeepsLoopAdd(s, addr, repeat);
    case ForeignCancel(id) => KeepsPush(s, id);
    case LoopCancel(id) => KeepsCancel(s, id);
    case RunFunctor => if s.queue[0].AddInLoop? { KeepsRunAdd(s); } else { KeepsRunCancel(s); }
    case Clear => KeepsClear(s);
    case Expire(addr) => KeepsFire(s, addr);
  }

  lemma {:induction false} KeepsRun(s: State, steps: seq<Step>)
    requires Inv(s) && Legal(s, steps)
    ensures Inv(Run(s, steps))
    decreases |steps|
  {
    if steps != [] {
      KeepsNext(s, steps[0]);
      KeepsRun(Next(s, steps[0]), steps[1..]);
    }
  }

  // ---------------------------------------------------------------------------
  // Memory
  // ---------------------------------------------------------------------------

  /**
   The loop's thread only ever touches allocated timers, each pointer in the set still
   names the timer it was stored for, and every allocated timer has exactly one owner,
   so none leaks and none is deleted twice. What calls on other threads touch is the
   matter of `AddExact`.
   */
  lemma MemorySafe(steps: seq<Step>)
    requires Legal(Init(), steps)
    ensures var s := Run(Init(), steps);
            && s.ok
            && (forall id :: id in s.valid ==> Names(s.heap, id))
            && (forall a :: a in s.heap ==>
                  var id := TimerId(a, s.heap[a].sequence); id in s.valid <==> !Queued(s.queue, id))
  {
    KeepsRun(Init(), steps);
    var s := Run(Init(), steps);
    forall a | a in s.heap
      ensures var id := TimerId(a, s.heap[a].sequence); id in s.valid <==> !Queued(s.queue, id)
    {
      assert OwnedAt(s, a);
    }
  }

  /** Cancelling touches no timer but the one the id was issued for, whatever lives at its address by now. */
  lemma StaleCancelHarmless(steps: seq<Step>, id: TimerId, a: nat)
    requires Legal(Init(), steps)
    requires a in Run(Init(), steps).heap && Run(Init(), steps).heap[a].sequence != id.sequence
    ensures var s := Run(Init(), steps);
            a in CancelTimer(s, id).heap && CancelTimer(s, id).heap[a] == s.heap[a]
  {
    KeepsRun(Init(), steps);
    var s := Run(Init(), steps);
    assert id in s.valid ==> Names(s.heap, id);
  }

  // ---------------------------------------------------------------------------
  // Cancelled for good
  // ---------------------------------------------------------------------------

  /** The log goes on without another firing of timer `n`. */
  ghost predicate Silent(before: seq<Event>, after: seq<Event>, n: nat) {
    before <= after && forall i :: |before| <= i < |after| ==> after[i] != Fired(n)
  }

  lemma StaysDead(s: State, step: Step, n: nat)
    requires Inv(s) && Dead(s, n) && Enabled(s, step)
    ensures Dead(Next(s, step), n) && Silent(s.log, Next(s, step).log, n)
  {
    var t := Next(s, step);
    match step
    case ForeignAdd(addr, _) => assert forall g :: Queued(t.queue, g) ==> Queued(s.queue, g) || g.sequence == s.created + 1;
    case ForeignCancel(_) => assert forall g :: Queued(t.queue, g) ==> Queued(s.queue, g);
    case RunFunctor => FunctorStaysDead(s, n);
    case _ => assert t.queue == s.queue;
  }

  lemma FunctorStaysDead(s: State, n: nat)
    requires Inv(s) && Dead(s, n) && s.queue != []
    ensures Dead(RunNext(s), n) && Silent(s.log, RunNext(s).log, n)
  {
    var t := RunNext(s);
    assert forall g :: Queued(t.queue, g) ==> Queued(s.queue, g);
    assert s.queue[0].AddInLoop? ==> Queued(s.queue, s.queue[0].id);
  }

  lemma {:induction false} DeadRun(s: State, steps: seq<Step>, n: nat)
    requires Inv(s) && Dead(s, n) && Legal(s, steps)
    ensures Silent(s.log, Run(s, steps).log, n)
    decreases |steps|
  {
    if steps != [] {
      var t := Next(s, steps[0]);
      KeepsNext(s, steps[0]);
      StaysDead(s, steps[0], n);
      DeadRun(t, steps[1..], n);
    }
  }

  /** A cancel takes unless the timer's add is still queued. */
  lemma CancelKills(s: State, id: TimerId)
    requires Inv(s) && id in s.made && !Queued(s.queue, id)
    ensures Dead(CancelTimer(s, id), id.sequence)
  {
    var t := CancelTimer(s, id);
    forall a | a in t.heap && t.heap[a].sequence == id.sequence
      ensures !t.heap[a].active
    {
      assert OwnedAt(s, a);
    }
    forall g | Queued(t.queue, g)
      ensures g.sequence != id.sequence
    {
      assert Queued(s.queue, g) && Names(s.heap, g);
      assert OwnedAt(s, g.addr);
    }
  }

  /** No run from here on fires the timer the id was issued for. */
  ghost predicate NeverFires(s: State, id: TimerId) {
    forall steps :: Legal(s, steps) ==> Silent(s.log, Run(s, steps).log, id.sequence)
  }

  lemma Unfold(s: State, step: Step, rest: seq<Step>)
    requires Enabled(s, step) && Legal(Next(s, step), rest)
    ensures Legal(s, [step] + rest) && Run(s, [step] + rest) == Run(Next(s, step), rest)
  {
    assert ([step] + rest)[1..] == rest;
  }

  lemma {:induction false} Snoc(s: State, a: seq<Step>, step: Step)
    requires Legal(s, a) && Enabled(Run(s, a), step)
    ensures Legal(s, a + [step]) && Run(s, a + [step]) == Next(Run(s, a), step)
    decreases |a|
  {
    hide Next, Enabled;
    if a == [] {
      assert [step][1..] == [] && a + [step] == [step];
    } else {
      Snoc(Next(s, a[0]), a[1..], step);
      assert (a + [step])[1..] == a[1..] + [step];
    }
  }

  /** The timer `id` was issued for has just been started; the calls in flight are what they were. */
  ghost predicate Running(s: State, t: State, id: TimerId) {
    && Inv(t) && id in t.valid && Active(t.heap, id.addr) && Names(t.heap, id)
    && t.heap[id.addr].repeat == (id.addr in s.heap && s.heap[id.addr].repeat)
    && t.flying == s.flying && t.issued == s.issued && |t.log| >= |s.log|
  }

  lemma RunsAdd(s: State, id: TimerId)
    requires Inv(s) && s.queue != [] && s.queue[0] == AddInLoop(id)
    ensures Running(s, Next(s, RunFunctor), id)
  {
    KeepsNext(s, RunFunctor);
    assert Queued(s.queue, id) && Names(s.heap, id);
  }

  /** A functor that is not this timer's add leaves it queued. */
  lemma StillQueued(s: State, id: TimerId)
    requires Inv(s) && Queued(s.queue, id) && s.queue[0] != AddInLoop(id)
    ensures var t := Next(s, RunFunctor);
            && Queued(t.queue, id) && |t.queue| < |s.queue| && |t.log| >= |s.log|
            && t.flying == s.flying && t.issued == s.issued
            && id.addr in s.heap && id.addr in t.heap && t.heap[id.addr].repeat == s.heap[id.addr].repeat
  {
    assert s.queue == [s.queue[0]] + s.queue[1..];
    assert Names(s.heap, id);
  }

  /** The queue runs until a queued timer is started. */
  lemma {:induction false} Started(s: State, id: TimerId) returns (steps: seq<Step>)
    requires Inv(s) && Queued(s.queue, id)
    ensures Legal(s, steps) && Running(s, Run(s, steps), id)
    decreases |s.queue|
  {
    hide Next, Inv;
    var t := Next(s, RunFunctor);
    if s.queue[0] == AddInLoop(id) {
      RunsAdd(s, id);
      steps := [];
    } else {
      KeepsNext(s, RunFunctor);
      StillQueued(s, id);
      steps := Started(t, id);
    }
    Unfold(s, RunFunctor, steps);
    steps := [RunFunctor] + steps;
  }

  /** While its add is queued, a timer can still be started and fire. */
  lemma CanFire(s: State, id: TimerId) returns (steps: seq<Step>)
    requires Inv(s) && Queued(s.queue, id)
    ensures Legal(s, steps)
    ensures var log := Run(s, steps).log;
            |log| > |s.log| && log[|log| - 1] == Fired(id.sequence)
  {
    hide Inv;
    steps := Started(s, id);
    Snoc(s, steps, Expire(id.addr));
    steps := steps + [Expire(id.addr)];
  }

  /**
   cancelInLoop on an issued id stops the timer for good exactly when the timer's
   add is not still waiting in the queue.
   */
  lemma CancelExact(trace: seq<Step>, id: TimerId)
    requires Legal(Init(), trace) && id in Run(Init(), trace).issued
    ensures var s := Run(Init(), trace);
            NeverFires(CancelTimer(s, id), id) <==> !Queued(s.queue, id)
  {
    KeepsRun(Init(), trace);
    var s := Run(Init(), trace);
    var t := CancelTimer(s, id);
    KeepsCancel(s, id);
    if Queued(s.queue, id) {
      var steps := CanFire(t, id);
      var log := Run(t, steps).log;
      assert !Silent(t.log, log, id.sequence);
    } else {
      CancelKills(s, id);
      forall steps | Legal(t, steps)
        ensures Silent(t.log, Run(t, steps).log, id.sequence)
      {
        DeadRun(t, steps, id.sequence);
      }
    }
  }

  /** A cancel that went through the queue always takes: the add was queued before it. */
  lemma QueuedCancelTakes(trace: seq<Step>)
    requires Legal(Init(), trace)
    requires var s := Run(Init(), trace); s.queue != [] && s.queue[0].CancelInLoop? && s.queue[0].id in s.issued
    ensures var s := Run(Init(), trace); NeverFires(Next(s, RunFunctor), s.queue[0].id)
  {
    KeepsRun(Init(), trace);
    var s := Run(Init(), trace);
    var id := s.queue[0].id;
    var s1 := s.(queue := s.queue[1..]);
    PoppedLined(s, s1);
    KeepsRunCancel(s);
    assert !Queued(s1.queue, id);
    assert Inv(s1) by { assert forall g :: Queued(s1.queue, g) <==> Queued(s.queue, g); PoppedOwned(s, s1); }
    CancelKills(s1, id);
    var t := Next(s, RunFunctor);
    forall steps | Legal(t, steps)
      ensures Silent(t.log, Run(t, steps).log, id.sequence)
    {
      DeadRun(t, steps, id.sequence);
    }
  }

  lemma PoppedOwned(s: State, t: State)
    requires Owned(s) && t.heap == s.heap && t.valid == s.valid && t.made == s.made
    requires forall g :: Queued(t.queue, g) <==> Queued(s.queue, g)
    ensures Owned(t)
  {
    forall a | a in t.heap
      ensures OwnedAt(t, a)
    {
      assert OwnedAt(s, a);
    }
  }

  /** No timer fires after it was cancelled, and each cancelled one is dead. */
  ghost predicate Settled(s: State) {
    && (forall i, j :: 0 <= i < j < |s.log| && s.log[i].Cancelled? ==> s.log[j] != Fired(s.log[i].sequence))
    && (forall i :: 0 <= i < |s.log| && s.log[i].Cancelled? ==> Dead(s, s.log[i].sequence))
  }

  lemma SettledNext(s: State, step: Step)
    requires Inv(s) && Settled(s) && Enabled(s, step)
    ensures Settled(Next(s, step))
  {
    var t := Next(s, step);
    LogGrows(s, step);
    forall i | 0 <= i < |s.log| && s.log[i].Cancelled?
      ensures Dead(t, s.log[i].sequence) && Silent(s.log, t.log, s.log[i].sequence)
    {
      StaysDead(s, step, s.log[i].sequence);
    }
  }

  /** A step adds at most one entry, and if it is a cancellation that timer is dead. */
  lemma LogGrows(s: State, step: Step)
    requires Inv(s) && Enabled(s, step)
    ensures var t := Next(s, step);
            s.log <= t.log && |t.log| <= |s.log| + 1
            && (|t.log| > |s.log| && t.log[|s.log|].Cancelled? ==> Dead(t, t.log[|s.log|].sequence))
  {
    match step
    case LoopCancel(id) => if id in s.valid { assert OwnedAt(s, id.addr); CancelKills(s, id); }
    case RunFunctor =>
      var id := s.queue[0].id;
      if s.queue[0].CancelInLoop? && id in s.valid {
        var s1 := s.(queue := s.queue[1..]);
        assert OwnedAt(s, id.addr);
        PoppedLined(s, s1);
        assert forall g :: Queued(s1.queue, g) <==> Queued(s.queue, g);
        PoppedOwned(s, s1);
        CancelKills(s1, id);
      }
    case _ =>
  }

  lemma {:induction false} SettledRun(s: State, steps: seq<Step>)
    requires Inv(s) && Settled(s) && Legal(s, steps)
    ensures Settled(Run(s, steps))
    decreases |steps|
  {
    if steps != [] {
      KeepsNext(s, steps[0]);
      SettledNext(s, steps[0]);
      SettledRun(Next(s, steps[0]), steps[1..]);
    }
  }

  /** In no run does a timer fire after a cancelInLoop has found and stopped it. */
  lemma CancelledNeverFires(steps: seq<Step>, i: nat, j: nat)
    requires Legal(Init(), steps)
    requires var log := Run(Init(), steps).log; i < j < |log| && log[i].Cancelled?
    ensures var log := Run(Init(), steps).log; log[j] != Fired(log[i].sequence)
  {
    SettledRun(Init(), steps);
  }

  /** A timer that does not repeat fires at most once. */
  lemma OneShot(trace: seq<Step>, addr: nat)
    requires Legal(Init(), trace)
    requires var s := Run(Init(), trace); Active(s.heap, addr) && !s.heap[addr].repeat
    ensures var s := Run(Init(), trace);
            NeverFires(Next(s, Expire(addr)), TimerId(addr, s.heap[addr].sequence))
  {
    KeepsRun(Init(), trace);
    var s := Run(Init(), trace);
    var n := s.heap[addr].sequence;
    var t := Next(s, Expire(addr));
    KeepsFire(s, addr);
    assert OwnedAt(s, addr);
    forall a | a in t.heap && t.heap[a].sequence == n
      ensures !t.heap[a].active
    {
      assert OwnedAt(s, a);
    }
    forall g | Queued(t.queue, g)
      ensures g.sequence != n
    {
      assert Queued(s.queue, g) && Names(s.heap, g);
      assert OwnedAt(s, g.addr);
    }
    forall steps | Legal(t, steps)
      ensures Silent(t.log, Run(t, steps).log, n)
    {
      DeadRun(t, steps, n);
    }
  }

  /** Clearing deletes the timers that have stopped, and none that is running or still on its way in. */
  lemma ClearExact(trace: seq<Step>, a: nat)
    requires Legal(Init(), trace) && a in Run(Init(), trace).heap
    ensures var s := Run(Init(), trace);
            var t := Next(s, Clear);
            var id := TimerId(a, s.heap[a].sequence);
            && (a in t.heap <==> s.heap[a].active || Queued(s.queue, id))
            && (a in t.heap ==> t.heap[a] == s.heap[a])
            && (id in t.valid <==> s.heap[a].active)
  {
    KeepsRun(Init(), trace);
    var s := Run(Init(), trace);
    var id := TimerId(a, s.heap[a].sequence);
    assert OwnedAt(s, a);
    forall g | g in s.valid && g.addr == a
      ensures g == id
    {
      assert Names(s.heap, g);
    }
  }

  // ---------------------------------------------------------------------------
  // The id an add returns
  // ---------------------------------------------------------------------------

  /**
   However things go on: as long as the call that posted `own` has not returned, the
   timer it reads is allocated and its own.
   */
  ghost predicate AnswersOwn(s: State, own: TimerId) {
    forall steps :: Legal(s, steps) && own in Run(s, steps).flying ==> Answer(Run(s, steps), own) == Some(own)
  }

  /** No call in flight has posted a timer at this address; if one has, that timer is gone by now. */
  predicate Unclaimed(s: State, addr: nat) {
    forall c :: c in s.flying ==> c.addr != addr
  }

  /** The timer of a call in flight that nobody can cancel, since nobody has its id. */
  ghost predicate Guarded(s: State, own: TimerId) {
    && own in s.flying && own !in s.issued
    && Names(s.heap, own) && s.heap[own.addr].repeat
    && (s.heap[own.addr].active || Queued(s.queue, own))
    && (forall c :: c in s.flying && c.addr == own.addr ==> c == own)
  }

  lemma GuardedFunctor(s: State, own: TimerId)
    requires Inv(s) && Guarded(s, own) && s.queue != []
    ensures Guarded(RunNext(s), own)
  {
    var f := s.queue[0];
    assert s.queue == [f] + s.queue[1..];
    assert f in s.queue;
    assert own in s.made;
    if f.AddInLoop? {
      assert Queued(s.queue, f.id) && Names(s.heap, f.id);
    } else {
      assert f.id in s.valid ==> Names(s.heap, f.id);
    }
  }

  lemma GuardedNext(s: State, step: Step, own: TimerId)
    requires Inv(s) && Guarded(s, own) && Enabled(s, step) && step != Return(own)
    ensures Guarded(Next(s, step), own)
  {
    assert OwnedAt(s, own.addr) && own in s.made;
    match step
    case RunFunctor => GuardedFunctor(s, own);
    case LoopCancel(id) => assert id in s.valid ==> Names(s.heap, id);
    case Clear => GuardedClear(s, own);
    case ForeignAdd(addr, _) => assert forall f :: f in s.queue ==> f in Next(s, step).queue;
    case ForeignCancel(_) => assert forall f :: f in s.queue ==> f in Next(s, step).queue;
    case _ =>
  }

  lemma GuardedClear(s: State, own: TimerId)
    requires Inv(s) && Guarded(s, own)
    ensures Guarded(ClearExpiredTimer(s), own)
  {
    assert OwnedAt(s, own.addr);
    forall id | id in s.valid && id.addr == own.addr ensures id == own { assert Names(s.heap, id); }
  }

  lemma {:induction false} GuardedRun(s: State, steps: seq<Step>, own: TimerId)
    requires Inv(s) && Guarded(s, own) && Legal(s, steps) && own in Run(s, steps).flying
    ensures Guarded(Run(s, steps), own)
    decreases |steps|
  {
    hide Guarded, Inv;
    if steps != [] {
      KeepsNext(s, steps[0]);
      if steps[0] == Return(own) {
        Made(s, own);
        Landed(Next(s, steps[0]), steps[1..], own);
      } else {
        GuardedNext(s, steps[0], own);
        GuardedRun(Next(s, steps[0]), steps[1..], own);
      }
    }
  }

  lemma Made(s: State, own: TimerId)
    requires Inv(s) && Guarded(s, own)
    ensures own.sequence <= s.created
  {
    assert own in s.made;
  }

  /** A call that has returned is never in flight again. */
  lemma {:induction false} Landed(s: State, steps: seq<Step>, own: TimerId)
    requires own !in s.flying && own.sequence <= s.created && Legal(s, steps)
    ensures own !in Run(s, steps).flying
    decreases |steps|
  {
    if steps != [] { Landed(Next(s, steps[0]), steps[1..], own); }
  }

  /** A one-shot timer can have fired and been cleared before the call reads its number. */
  lemma OneShotGone(s: State, own: TimerId) returns (steps: seq<Step>)
    requires Inv(s) && Queued(s.queue, own) && own in s.flying && Names(s.heap, own) && !s.heap[own.addr].repeat
    ensures Legal(s, steps) && own in Run(s, steps).flying && Answer(Run(s, steps), own) == None
  {
    hide Inv;
    steps := Started(s, own);
    var t := Run(s, steps);
    Snoc(s, steps, Expire(own.addr));
    Snoc(s, steps + [Expire(own.addr)], Clear);
    steps := steps + [Expire(own.addr)] + [Clear];
    Swept(Next(t, Expire(own.addr)), own);
  }

  lemma Swept(s: State, own: TimerId)
    requires own in s.valid && own.addr in s.heap && !s.heap[own.addr].active
    ensures own.addr !in ClearExpiredTimer(s).heap && ClearExpiredTimer(s).flying == s.flying
  {
    assert own.addr in Expired(s);
  }

  /** An older call that posted at the same address reads this timer's number, returns its id, and that is cancelled. */
  lemma StolenGone(s: State, own: TimerId, older: TimerId) returns (steps: seq<Step>)
    requires Inv(s) && Queued(s.queue, own) && own in s.flying && Names(s.heap, own)
    requires older in s.flying && older != own && older.addr == own.addr
    ensures Legal(s, steps) && own in Run(s, steps).flying && Answer(Run(s, steps), own) == None
  {
    hide Inv;
    steps := Started(s, own);
    var t := Run(s, steps);
    var t1 := Next(t, Return(older));
    var t2 := Next(t1, LoopCancel(own));
    Snoc(s, steps, Return(older));
    Snoc(s, steps + [Return(older)], LoopCancel(own));
    Snoc(s, steps + [Return(older)] + [LoopCancel(own)], Clear);
    steps := steps + [Return(older)] + [LoopCancel(own)] + [Clear];
    Swept(t2, own);
  }

  /** What posting leaves behind. */
  lemma Posted(s: State, addr: nat, repeat: bool)
    requires Inv(s) && addr != 0 && addr !in s.heap
    ensures var t := Next(s, ForeignAdd(addr, repeat));
            var own := TimerId(addr, s.created + 1);
            && Inv(t) && Queued(t.queue, own) && own in t.flying && own !in t.issued && own !in s.flying
            && Names(t.heap, own) && t.heap[addr].repeat == repeat
  {
    KeepsNext(s, ForeignAdd(addr, repeat));
    NewIsFresh(s, addr);
    var own := TimerId(addr, s.created + 1);
    assert Next(s, ForeignAdd(addr, repeat)).queue[|s.queue|] == AddInLoop(own);
  }

  /**
   addTimer on a thread other than the loop's: from any reachable state, the id it
   returns is read from an allocated timer and is its own timer's, however things go
   on, exactly when the timer repeats and no call in flight has posted a timer at the
   same address. On the loop's thread it always is: see `LoopAddAnswers`.
   */
  lemma AddExact(trace: seq<Step>, addr: nat, repeat: bool)
    requires Legal(Init(), trace) && Enabled(Run(Init(), trace), ForeignAdd(addr, repeat))
    ensures var s := Run(Init(), trace);
            AnswersOwn(Next(s, ForeignAdd(addr, repeat)), TimerId(addr, s.created + 1))
            <==> repeat && Unclaimed(s, addr)
  {
    KeepsRun(Init(), trace);
    var s := Run(Init(), trace);
    var t := Next(s, ForeignAdd(addr, repeat));
    var own := TimerId(addr, s.created + 1);
    Posted(s, addr, repeat);
    if !repeat {
      var steps := OneShotGone(t, own);
    } else if !Unclaimed(s, addr) {
      var older :| older in s.flying && older.addr == addr;
      var steps := StolenGone(t, own, older);
    } else {
      assert Guarded(t, own);
      forall steps | Legal(t, steps) && own in Run(t, steps).flying
        ensures Answer(Run(t, steps), own) == Some(own)
      {
        GuardedRun(t, steps, own);
      }
    }
  }

  /** On the loop's thread nothing comes between the add and the read. */
  lemma LoopAddAnswers(trace: seq<Step>, addr: nat, repeat: bool)
    requires Legal(Init(), trace) && Enabled(Run(Init(), trace), LoopAdd(addr, repeat))
    ensures var s := Run(Init(), trace);
            var t := Next(s, LoopAdd(addr, repeat));
            var own := TimerId(addr, s.created + 1);
            Answer(t, own) == Some(own) && own !in s.issued && t.issued == s.issued + {own} && own in t.valid
  {
    KeepsRun(Init(), trace);
    NewIsFresh(Run(Init(), trace), addr);
  }

  ghost predicate AllGuarded(s: State) {
    s.readOk && forall own :: own in s.flying ==> Guarded(s, own)
  }

  lemma AllGuardedNext(s: State, step: Step)
    requires Inv(s) && AllGuarded(s) && Enabled(s, step) && (step.ForeignAdd? ==> step.repeat)
    ensures AllGuarded(Next(s, step))
  {
    hide Guarded, Inv;
    var t := Next(s, step);
    assert t.readOk by { ReadsSafely(s, step); }
    forall own | own in t.flying
      ensures Guarded(t, own)
    {
      if own in s.flying {
        assert step != Return(own);
        GuardedNext(s, step, own);
      } else {
        NewGuarded(s, step.addr);
      }
    }
  }

  lemma ReadsSafely(s: State, step: Step)
    requires AllGuarded(s) && Enabled(s, step)
    ensures Next(s, step).readOk
  {
    if step.Return? { assert Guarded(s, step.own); }
  }

  lemma NewGuarded(s: State, addr: nat)
    requires Inv(s) && AllGuarded(s) && addr != 0 && addr !in s.heap
    ensures Guarded(Next(s, ForeignAdd(addr, true)), TimerId(addr, s.created + 1))
  {
    Posted(s, addr, true);
    forall c | c in s.flying ensures c.addr != addr { assert Guarded(s, c); }
  }

  lemma {:induction false} AllGuardedRun(s: State, steps: seq<Step>)
    requires Inv(s) && AllGuarded(s) && Legal(s, steps)
    requires forall step :: step in steps && step.ForeignAdd? ==> step.repeat
    ensures AllGuarded(Run(s, steps))
    decreases |steps|
  {
    hide AllGuarded, Inv, Next, Enabled;
    if steps != [] {
      KeepsNext(s, steps[0]);
      AllGuardedNext(s, steps[0]);
      AllGuardedRun(Next(s, steps[0]), steps[1..]);
    }
  }

  /**
   A program that has other threads add repeating timers only is safe throughout: no
   call reads freed memory, and each is about to return its own timer's id.
   */
  lemma RepeatsSafe(steps: seq<Step>)
    requires Legal(Init(), steps)
    requires forall step :: step in steps && step.ForeignAdd? ==> step.repeat
    ensures var s := Run(Init(), steps);
            s.readOk && forall own :: own in s.flying ==> Answer(s, own) == Some(own)
  {
    AllGuardedRun(Init(), steps);
    var s := Run(Init(), steps);
    forall own | own in s.flying ensures Answer(s, own) == Some(own) { assert Guarded(s, own); }
  }

  /** runAfter on another thread: the timer is added, fires and is deleted before its number is read. */
  lemma FreedRead()
    ensures var steps := [ForeignAdd(1, false), RunFunctor, Expire(1), Clear, Return(TimerId(1, 1))];
            Legal(Init(), steps) && !Run(Init(), steps).readOk
  {
    var s1 := Next(Init(), ForeignAdd(1, false));
    var s2 := Next(s1, RunFunctor);
    var s3 := Next(s2, Expire(1));
    var s4 := Next(s3, Clear);
    FreedAtOnce(s3);
    Unfold(s4, Return(TimerId(1, 1)), []);
    Unfold(s3, Clear, [Return(TimerId(1, 1))]);
    Unfold(s2, Expire(1), [Clear, Return(TimerId(1, 1))]);
    Unfold(s1, RunFunctor, [Expire(1), Clear, Return(TimerId(1, 1))]);
    Unfold(Init(), ForeignAdd(1, false), [RunFunctor, Expire(1), Clear, Return(TimerId(1, 1))]);
  }

  lemma FreedAtOnce(s: State)
    requires s.valid == {TimerId(1, 1)} && 1 in s.heap && !s.heap[1].active
    ensures 1 !in ClearExpiredTimer(s).heap && ClearExpiredTimer(s).heap == s.heap - {1} && ClearExpiredTimer(s).valid == {}
  {
    assert TimerId(1, 1) in s.valid;
    assert Expired(s) == {1};
  }

  /**
   With the address reused by then, the call returns the newer timer's id, and
   cancelling it stops the newer timer.
   */
  lemma WrongId()
    ensures var trace := [ForeignAdd(1, false), RunFunctor, Expire(1), Clear, LoopAdd(1, true)];
            && Legal(Init(), trace)
            && var s := Run(Init(), trace);
               && TimerId(1, 1) in s.flying && Answer(s, TimerId(1, 1)) == Some(TimerId(1, 2)) && Active(s.heap, 1)
               && var t := CancelTimer(ReturnId(s, TimerId(1, 1)), TimerId(1, 2));
                  !Active(t.heap, 1) && t.log == s.log + [Cancelled(2)]
  {
    var s1 := Next(Init(), ForeignAdd(1, false));
    var s2 := Next(s1, RunFunctor);
    var s3 := Next(s2, Expire(1));
    var s4 := Next(s3, Clear);
    FreedAtOnce(s3);
    Unfold(s4, LoopAdd(1, true), []);
    Unfold(s3, Clear, [LoopAdd(1, true)]);
    Unfold(s2, Expire(1), [Clear, LoopAdd(1, true)]);
    Unfold(s1, RunFunctor, [Expire(1), Clear, LoopAdd(1, true)]);
    Unfold(Init(), ForeignAdd(1, false), [RunFunctor, Expire(1), Clear, LoopAdd(1, true)]);
  }

  // ---------------------------------------------------------------------------
  // Running, exactly
  // ---------------------------------------------------------------------------

  /** The step runs the add of the timer at `a`. */
  ghost predicate Starts(s: State, step: Step, a: nat)
    requires Enabled(s, step)
  {
    || (step.LoopAdd? && step.addr == a)
    || (step == RunFunctor && s.queue[0].AddInLoop? && s.queue[0].id.addr == a)
  }

  /** The step runs cancelInLoop for `id`. */
  predicate Cancels(s: State, step: Step, id: TimerId)
    requires Enabled(s, step)
  {
    step == LoopCancel(id) || (step == RunFunctor && s.queue[0] == CancelInLoop(id))
  }

  /** The step is the one firing of a timer that does not repeat, or a cancel by its own id. */
  predicate Stops(s: State, step: Step, a: nat)
    requires Enabled(s, step) && a in s.heap
  {
    (step == Expire(a) && !s.heap[a].repeat) || Cancels(s, step, TimerId(a, s.heap[a].sequence))
  }

  lemma CancelStops(s: State, id: TimerId, a: nat)
    requires Inv(s)
    ensures Active(CancelTimer(s, id).heap, a) <==> Active(s.heap, a) && id != TimerId(a, s.heap[a].sequence)
    ensures a in s.heap ==> a in CancelTimer(s, id).heap && CancelTimer(s, id).heap[a].sequence == s.heap[a].sequence
  {
    if a in s.heap { assert OwnedAt(s, a); }
    assert id in s.valid ==> Names(s.heap, id);
  }

  lemma FunctorActive(s: State, a: nat)
    requires Inv(s) && s.queue != []
    ensures Active(RunNext(s).heap, a) <==>
              Starts(s, RunFunctor, a) || (Active(s.heap, a) && !Stops(s, RunFunctor, a))
    ensures a in s.heap ==> a in RunNext(s).heap && RunNext(s).heap[a].sequence == s.heap[a].sequence
  {
    var s1 := s.(queue := s.queue[1..]);
    if s.queue[0].AddInLoop? {
      assert Queued(s.queue, s.queue[0].id);
    } else {
      var id := s.queue[0].id;
      CancelStops(s, id, a);
      assert CancelTimer(s1, id).heap == CancelTimer(s, id).heap;
    }
  }

  /** Timer `a` runs after the step if the step starts it, or if it ran before and the step does not stop it. */
  ghost predicate RunsOn(s: State, step: Step, t: State, a: nat)
    requires Enabled(s, step)
  {
    && (Active(t.heap, a) <==> Starts(s, step, a) || (Active(s.heap, a) && !Stops(s, step, a)))
    && (Active(s.heap, a) ==> a in t.heap && t.heap[a].sequence == s.heap[a].sequence)
  }

  lemma AddRuns(s: State, step: Step, a: nat)
    requires Enabled(s, step) && (step.ForeignAdd? || step.LoopAdd?)
    ensures RunsOn(s, step, Next(s, step), a)
  {
    hide RunNext, CancelTimer, ClearExpiredTimer, ReturnId, Fire;
  }

  lemma AsideRuns(s: State, step: Step, a: nat)
    requires Enabled(s, step) && (step.ForeignCancel? || step.Return? || step.Expire?)
    ensures RunsOn(s, step, Next(s, step), a)
  {
    hide RunNext, CancelTimer, ClearExpiredTimer, ReturnId, NewTimer, AddTimerInLoop;
    if step.Return? { ReturnAside(s, step.own); }
  }

  /**
   A timer runs from when its add runs until it is cancelled by its own id or, if it
   does not repeat, has fired: a repeating one that nobody cancels goes on for ever. As
   long as it runs, nothing else takes its address.
   */
  lemma RunningExact(trace: seq<Step>, step: Step, a: nat)
    requires Legal(Init(), trace) && Enabled(Run(Init(), trace), step)
    ensures RunsOn(Run(Init(), trace), step, Next(Run(Init(), trace), step), a)
  {
    KeepsRun(Init(), trace);
    var s := Run(Init(), trace);
    hide Inv, RunNext, CancelTimer, ClearExpiredTimer;
    match step
    case RunFunctor => FunctorActive(s, a);
    case LoopCancel(id) => CancelStops(s, id, a);
    case Clear => ClearActive(s, a); if a in s.heap { ClearExact(trace, a); }
    case ForeignAdd(_, _) => AddRuns(s, step, a); hide Next, RunsOn;
    case LoopAdd(_, _) => AddRuns(s, step, a); hide Next, RunsOn;
    case _ => AsideRuns(s, step, a); hide Next, RunsOn;
  }

  lemma ClearActive(s: State, a: nat)
    ensures a in ClearExpiredTimer(s).heap ==> a in s.heap
    ensures ClearExpiredTimer(s).log == s.log
  {
  }

  lemma ReturnAside(s: State, own: TimerId)
    ensures ReturnId(s, own).heap == s.heap && ReturnId(s, own).log == s.log
  {
  }

  lemma CancelLogs(s: State, id: TimerId)
    ensures s.log <= CancelTimer(s, id).log && forall n :: Fired(n) !in CancelTimer(s, id).log[|s.log|..]
  {
  }

  /** A firing is logged for each expiry, with the number of the timer that expired, and for nothing else. */
  lemma FiringExact(trace: seq<Step>, step: Step, n: nat)
    requires Legal(Init(), trace) && Enabled(Run(Init(), trace), step)
    ensures var s := Run(Init(), trace);
            var t := Next(s, step);
            && s.log <= t.log
            && (Fired(n) in t.log[|s.log|..] <==> step.Expire? && s.heap[step.addr].sequence == n)
  {
    KeepsRun(Init(), trace);
    var s := Run(Init(), trace);
    hide Inv, CancelTimer, ClearExpiredTimer, ReturnId;
    match step
    case RunFunctor => CancelLogs(s.(queue := s.queue[1..]), s.queue[0].id);
    case LoopCancel(id) => CancelLogs(s, id);
    case Clear => ClearActive(s, 0);
    case Return(own) => ReturnAside(s, own);
    case _ =>
  }

  // ---------------------------------------------------------------------------
  // The queue, told from the calls
  // ---------------------------------------------------------------------------

  /** The functor a call posts; `n` timers have been created before it. */
  function Posts(n: nat, step: Step): seq<Functor> {
    match step
    case ForeignAdd(addr, _) => [AddInLoop(TimerId(addr, n + 1))]
    case ForeignCancel(id) => [CancelInLoop(id)]
    case _ => []
  }

  function PostedBy(n: nat, steps: seq<Step>): seq<Functor>
    decreases |steps|
  {
    if steps == [] then []
    else Posts(n, steps[0]) + PostedBy(n + One(steps[0].ForeignAdd? || steps[0].LoopAdd?), steps[1..])
  }

  /** The functor a step runs. */
  function Ran(s: State, step: Step): seq<Functor>
    requires Enabled(s, step)
  {
    if step == RunFunctor then [s.queue[0]] else []
  }

  function RanBy(s: State, steps: seq<Step>): seq<Functor>
    requires Legal(s, steps)
    decreases |steps|
  {
    if steps == [] then [] else Ran(s, steps[0]) + RanBy(Next(s, steps[0]), steps[1..])
  }

  lemma HandlersPost(s: State, id: TimerId, addr: nat)
    ensures var t := CancelTimer(s, id); t.queue == s.queue && t.created == s.created
    ensures var t := AddTimerInLoop(s, addr); t.queue == s.queue && t.created == s.created
    ensures var t := ReturnId(s, id); t.queue == s.queue && t.created == s.created
    ensures var t := ClearExpiredTimer(s); t.queue == s.queue && t.created == s.created
  {
  }

  lemma PostNext(s: State, step: Step)
    requires Enabled(s, step)
    ensures var t := Next(s, step);
            && Ran(s, step) + t.queue == s.queue + Posts(s.created, step)
            && t.created == s.created + One(step.ForeignAdd? || step.LoopAdd?)
  {
    hide CancelTimer, AddTimerInLoop, ReturnId, ClearExpiredTimer;
    match step
    case LoopAdd(addr, repeat) => HandlersPost(NewTimer(s, addr, repeat), NULL_ID, addr);
    case LoopCancel(id) => HandlersPost(s, id, 0);
    case Return(own) => HandlersPost(s, own, 0);
    case Clear => HandlersPost(s, NULL_ID, 0);
    case RunFunctor => HandlersPost(s.(queue := s.queue[1..]), s.queue[0].id, s.queue[0].id.addr);
    case _ =>
  }

  lemma {:induction false} PostRun(s: State, steps: seq<Step>)
    requires Legal(s, steps)
    ensures RanBy(s, steps) + Run(s, steps).queue == s.queue + PostedBy(s.created, steps)
    decreases |steps|
  {
    hide Next, Enabled, Posts, Ran;
    if steps == [] {
      assert [] + s.queue == s.queue + [];
    } else {
      var t, rest := Next(s, steps[0]), steps[1..];
      PostNext(s, steps[0]);
      PostRun(t, rest);
      Regroup(Ran(s, steps[0]), RanBy(t, rest), Run(t, rest).queue);
      Regroup(Ran(s, steps[0]), t.queue, PostedBy(t.created, rest));
      Regroup(s.queue, Posts(s.created, steps[0]), PostedBy(t.created, rest));
    }
  }

  /**
   The loop runs what other threads' adds and cancels posted, each once and in the order
   of the calls; so a cancel that was called is run, behind the add it is for.
   */
  lemma PostedInOrder(steps: seq<Step>)
    requires Legal(Init(), steps)
    ensures RanBy(Init(), steps) + Run(Init(), steps).queue == PostedBy(0, steps)
  {
    PostRun(Init(), steps);
  }
}
