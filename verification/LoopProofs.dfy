/**
 No functor is lost, repeated or reordered; a wakeup is lost only for what the loop's
 own thread queues while a batch is destroyed; and exactly when the loop on its own
 runs all that is queued.
 */
module LoopProofs {
  import opened Basics
  import opened LoopSpec

  // ---------------------------------------------------------------------------
  // The invariant
  // ---------------------------------------------------------------------------

  ghost predicate Inv(s: State) {
    && (s.calling <==> s.phase in {Swapping, Batch})
    && (s.selfOwes ==> s.phase == Batch)
    && (s.batch != [] ==> s.phase == Batch)
    && s.counter <= COUNTER_MAX
    && (s.phase == Batch ==> Covered(s))
    && (s.phase == Poll && s.quit ==> s.counter > 0 || s.quitters != {})
    && s.queued == s.ran + s.batch + s.pending
  }

  /** Pending functors come with a readable eventfd, or with a thread that is about to make it so. */
  predicate Covered(s: State) {
    s.pending != [] ==> s.counter > 0 || s.selfOwes || s.pushers != {}
  }

  /** The loop's own thread queues while the batch is destroyed. */
  predicate Late(s: State, step: Step) {
    step.LoopPush? && s.phase == Checking
  }

  predicate NoneLate(s: State, steps: seq<Step>)
    requires Legal(s, steps)
    decreases |steps|
  {
    steps == [] || (!Late(s, steps[0]) && NoneLate(Next(s, steps[0]), steps[1..]))
  }

  /** With nothing queued late, what holds in a batch goes on to hold up to the poll. */
  lemma CoveredNext(s: State, step: Step)
    requires Inv(s) && Enabled(s, step) && !Late(s, step)
    requires s.phase in {Batch, Checking, Poll} ==> Covered(s)
    ensures Next(s, step).phase in {Batch, Checking, Poll} ==> Covered(Next(s, step))
  {
    if step.ForeignPush? { assert step.thread in Next(s, step).pushers; }
  }

  lemma {:induction false} CoveredRun(s: State, steps: seq<Step>)
    requires Inv(s) && Legal(s, steps) && NoneLate(s, steps)
    requires s.phase in {Batch, Checking, Poll} ==> Covered(s)
    ensures Run(s, steps).phase in {Batch, Checking, Poll} ==> Covered(Run(s, steps))
    decreases |steps|
  {
    if steps != [] {
      KeepsNext(s, steps[0]);
      CoveredNext(s, steps[0]);
      CoveredRun(Next(s, steps[0]), steps[1..]);
    }
  }

  lemma KeepsNext(s: State, step: Step)
    requires Inv(s) && Enabled(s, step)
    ensures Inv(Next(s, step))
  {
    match step
    case ForeignPush(t, f) => assert t in Next(s, step).pushers;
    case ForeignQuit(t) => assert t in Next(s, step).quitters;
    case Swap => assert s.ran + [] + s.pending == s.ran + s.pending + [];
    case RunNext => assert s.ran + s.batch == (s.ran + [s.batch[0]]) + s.batch[1..];
    case _ =>
  }

  lemma {:induction false} KeepsRun(s: State, steps: seq<Step>)
    requires Inv(s) && Legal(s, steps)
    ensures Inv(Run(s, steps))
    decreases |steps|
  {
    if steps != [] {
      KeepsNext(s, steps[0]);
      KeepsRun(Next(s, steps[0]), steps[1..]);
    }
  }

  // ---------------------------------------------------------------------------
  // Wakeups
  // ---------------------------------------------------------------------------

  /**
   Whenever the loop runs a swapped batch with functors pending, the eventfd is readable
   or some thread is about to make it so. As long as the loop's thread has queued
   nothing while a batch was destroyed, that goes on to hold up to and in poll. In poll
   with quit set it holds in any case.
   */
  lemma NoLostWakeup(steps: seq<Step>)
    requires Legal(Init(), steps)
    ensures var s := Run(Init(), steps);
            && (s.phase == Batch ==> Covered(s))
            && (NoneLate(Init(), steps) && s.phase in {Batch, Checking, Poll} ==> Covered(s))
            && (s.phase == Poll && s.quit ==> s.counter > 0 || s.quitters != {})
  {
    KeepsRun(Init(), steps);
    if NoneLate(Init(), steps) { CoveredRun(Init(), steps); }
  }

  /**
   A functor that the loop's thread queues while the batch is destroyed gets no wakeup
   of its own: the loop goes to poll with it covered exactly when the eventfd was
   readable before, or a foreign thread was about to make it so.
   */
  lemma LatePushExact(trace: seq<Step>, f: Functor)
    requires Legal(Init(), trace)
    requires var s := Run(Init(), trace); s.phase == Checking && !s.quit
    ensures var s := Run(Init(), trace);
            && Enabled(s, LoopPush(f)) && Enabled(Next(s, LoopPush(f)), CheckQuit)
            && var t := Next(Next(s, LoopPush(f)), CheckQuit);
               t.phase == Poll && (Covered(t) <==> s.counter > 0 || s.pushers != {})
  {
    KeepsRun(Init(), trace);
  }

  lemma Unfold(s: State, step: Step, rest: seq<Step>)
    requires Enabled(s, step) && Legal(Next(s, step), rest)
    ensures Legal(s, [step] + rest) && Run(s, [step] + rest) == Run(Next(s, step), rest)
  {
    assert ([step] + rest)[1..] == rest;
  }

  /** Such a run: nothing but a push while the first, empty batch is destroyed, and the loop sleeps on it. */
  lemma LostWakeup(f: Functor) returns (steps: seq<Step>)
    ensures Legal(Init(), steps)
    ensures var s := Run(Init(), steps);
            s.phase == Poll && s.pending == [f] && s.counter == 0 && s.pushers == {} && !s.selfOwes && !s.quit
  {
    var s1 := Next(Init(), Prepare);
    var s2 := Next(s1, Swap);
    var s3 := Next(s2, EndBatch);
    var s4 := Next(s3, LoopPush(f));
    Unfold(s4, CheckQuit, []);
    Unfold(s3, LoopPush(f), [CheckQuit] + []);
    Unfold(s2, EndBatch, [LoopPush(f)] + ([CheckQuit] + []));
    Unfold(s1, Swap, [EndBatch] + ([LoopPush(f)] + ([CheckQuit] + [])));
    steps := [Swap] + ([EndBatch] + ([LoopPush(f)] + ([CheckQuit] + [])));
    Unfold(Init(), Prepare, steps);
    steps := [Prepare] + steps;
  }

  // ---------------------------------------------------------------------------
  // Conservation and order
  // ---------------------------------------------------------------------------

  function Own(f: Functor, p: nat): seq<Functor> {
    if f.producer == p then [f] else []
  }

  function ByProducer(fs: seq<Functor>, p: nat): seq<Functor> {
    if fs == [] then [] else Own(fs[0], p) + ByProducer(fs[1..], p)
  }

  lemma {:induction false} ByProducerConcat(a: seq<Functor>, b: seq<Functor>, p: nat)
    ensures ByProducer(a + b, p) == ByProducer(a, p) + ByProducer(b, p)
  {
    if a == [] {
      assert a + b == b;
    } else {
      assert (a + b)[1..] == a[1..] + b;
      calc {
        ByProducer(a + b, p);
        Own(a[0], p) + ByProducer(a[1..] + b, p);
        { ByProducerConcat(a[1..], b, p); }
        Own(a[0], p) + (ByProducer(a[1..], p) + ByProducer(b, p));
        { Regroup(Own(a[0], p), ByProducer(a[1..], p), ByProducer(b, p)); }
        ByProducer(a, p) + ByProducer(b, p);
      }
    }
  }

  /** Queued functors are those run, then the rest of the batch, then the pending ones: as sequences. */
  lemma Conservation(steps: seq<Step>)
    requires Legal(Init(), steps)
    ensures var s := Run(Init(), steps); s.queued == s.ran + s.batch + s.pending
  {
    KeepsRun(Init(), steps);
  }

  /** Each thread's functors run in the order in which that thread queued them. */
  lemma ProducerOrder(steps: seq<Step>, p: nat)
    requires Legal(Init(), steps)
    ensures var s := Run(Init(), steps);
            ByProducer(s.queued, p) == ByProducer(s.ran, p) + ByProducer(s.batch, p) + ByProducer(s.pending, p)
  {
    KeepsRun(Init(), steps);
    var s := Run(Init(), steps);
    ByProducerConcat(s.ran + s.batch, s.pending, p);
    ByProducerConcat(s.ran, s.batch, p);
  }

  // ---------------------------------------------------------------------------
  // Service
  // ---------------------------------------------------------------------------

  /** The loop's own moves; waking up from poll only because of the eventfd. */
  predicate Unaided(step: Step) {
    step in {LoopWake, Prepare, Swap, RunNext, EndBatch, CheckQuit, PollWoken}
  }

  ghost predicate Serves(s: State, steps: seq<Step>, t: State) {
    Legal(s, steps) && Run(s, steps) == t && forall i :: 0 <= i < |steps| ==> Unaided(steps[i])
  }

  lemma Before(s: State, step: Step, rest: seq<Step>, t: State)
    requires Enabled(s, step) && Unaided(step) && Serves(Next(s, step), rest, t)
    ensures Serves(s, [step] + rest, t)
  {
    assert ([step] + rest)[1..] == rest;
  }

  lemma {:induction false} Drain(s: State) returns (steps: seq<Step>, t: State)
    requires s.phase == Batch && !s.selfOwes
    ensures Serves(s, steps, t) && t == s.(batch := [], ran := s.ran + s.batch)
    decreases |s.batch|
  {
    if s.batch == [] {
      steps, t := [], s;
      assert s.ran + [] == s.ran;
    } else {
      var n := Next(s, RunNext);
      steps, t := Drain(n);
      assert s.ran + s.batch == n.ran + n.batch;
      Before(s, RunNext, steps, t);
      steps := [RunNext] + steps;
    }
  }

  lemma Joined(s: State, a: seq<Step>, m: State, b: seq<Step>, t: State)
    requires Serves(s, a, m) && Serves(m, b, t)
    ensures Serves(s, a + b, t)
    decreases |a|
  {
    if a == [] {
      assert a + b == b;
    } else {
      Joined(Next(s, a[0]), a[1..], m, b, t);
      Before(s, a[0], a[1..] + b, t);
      assert [a[0]] + (a[1..] + b) == a + b;
    }
  }

  /** From a dispatch, the next prepare runs everything pending. */
  lemma ServedFromDispatch(s: State) returns (steps: seq<Step>, t: State)
    requires Inv(s) && s.phase in {Outside, Dispatch}
    ensures Serves(s, steps, t) && t.ran == s.queued
  {
    var s1 := Next(s, Prepare);
    var s2 := Next(s1, Swap);
    steps, t := Drain(s2);
    Before(s1, Swap, steps, t);
    Before(s, Prepare, [Swap] + steps, t);
    steps := [Prepare] + ([Swap] + steps);
    assert s.ran + s.batch + s.pending == s.ran + s.pending;
  }

  /** From the end of a batch: quit is not set, so the loop polls, is woken, and serves the rest. */
  lemma ServedFromCheck(s: State) returns (steps: seq<Step>, t: State)
    requires Inv(s) && s.phase == Checking && !s.quit && (s.pending != [] ==> s.counter > 0)
    ensures Serves(s, steps, t) && t.ran == s.queued
  {
    if s.pending == [] {
      steps, t := [], s;
      assert s.ran + [] + [] == s.ran;
    } else {
      var s1 := Next(s, CheckQuit);
      steps, t := ServedFromPoll(s1);
      Before(s, CheckQuit, steps, t);
      steps := [CheckQuit] + steps;
    }
  }

  lemma ServedFromPoll(s: State) returns (steps: seq<Step>, t: State)
    requires Inv(s) && s.phase == Poll && (s.pending != [] ==> s.counter > 0)
    ensures Serves(s, steps, t) && t.ran == s.queued
  {
    if s.pending == [] {
      steps, t := [], s;
      assert s.ran + [] + [] == s.ran;
    } else {
      var s1 := Next(s, PollWoken);
      steps, t := ServedFromDispatch(s1);
      Before(s, PollWoken, steps, t);
      steps := [PollWoken] + steps;
    }
  }

  lemma ServedFromBatch(s: State) returns (steps: seq<Step>, t: State)
    requires Inv(s) && s.phase == Batch && !s.selfOwes && !s.quit && s.pushers == {}
    ensures Serves(s, steps, t) && t.ran == s.queued
  {
    var a, m := Drain(s);
    var m1 := Next(m, EndBatch);
    assert s.ran + s.batch + [] == s.ran + s.batch;
    assert Inv(m1);
    steps, t := ServedFromCheck(m1);
    Before(m, EndBatch, steps, t);
    Joined(s, a, m, [EndBatch] + steps, t);
    steps := a + ([EndBatch] + steps);
  }

  /** Past the batch with functors pending and no wakeup on its way. */
  predicate Sleeps(s: State) {
    s.phase in {Checking, Poll} && s.pending != [] && s.counter == 0
  }

  /** A loop that sleeps makes no move of its own that runs anything. */
  lemma Stays(s: State, steps: seq<Step>, t: State)
    requires Inv(s) && Sleeps(s) && !s.quit && Serves(s, steps, t)
    ensures t.ran != s.queued
    decreases |steps|
  {
    if steps != [] {
      assert Unaided(steps[0]) && steps[0] == CheckQuit;
      var n := Next(s, CheckQuit);
      assert forall i :: 0 <= i < |steps[1..]| ==> steps[1..][i] == steps[i + 1];
      KeepsNext(s, CheckQuit);
      Stays(n, steps[1..], t);
    } else {
      assert |s.queued| > |s.ran|;
    }
  }

  lemma ServesAll(s: State) returns (steps: seq<Step>, t: State)
    requires Inv(s) && !s.quit && s.pushers == {} && s.phase != Stopped && !Sleeps(s)
    ensures Serves(s, steps, t) && t.ran == s.queued
  {
    match s.phase
    case Outside => steps, t := ServedFromDispatch(s);
    case Dispatch => steps, t := ServedFromDispatch(s);
    case Swapping =>
      var s1 := Next(s, Swap);
      KeepsNext(s, Swap);
      steps, t := ServedFromBatch(s1);
      Before(s, Swap, steps, t);
      steps := [Swap] + steps;
    case Batch =>
      if s.selfOwes {
        var s1 := Next(s, LoopWake);
        steps, t := ServedFromBatch(s1);
        Before(s, LoopWake, steps, t);
        steps := [LoopWake] + steps;
      } else {
        steps, t := ServedFromBatch(s);
      }
    case Checking => steps, t := ServedFromCheck(s);
    case Poll => steps, t := ServedFromPoll(s);
    case Stopped =>
  }

  /**
   Bounded service: in any reachable state with quit unset and no foreign thread
   half way through queueInLoop, the loop's own moves alone, with no event but the
   eventfd, can run every functor queued so far, exactly unless the loop is past its
   batch with functors pending and the eventfd not readable.
   */
  lemma Served(trace: seq<Step>)
    requires Legal(Init(), trace)
    requires var s := Run(Init(), trace); !s.quit && s.pushers == {} && s.phase != Stopped
    ensures var s := Run(Init(), trace);
            (exists steps, t :: Serves(s, steps, t) && t.ran == s.queued) <==> !Sleeps(s)
    ensures NoneLate(Init(), trace) ==> !Sleeps(Run(Init(), trace))
  {
    KeepsRun(Init(), trace);
    NoLostWakeup(trace);
    var s := Run(Init(), trace);
    if Sleeps(s) {
      forall steps, t | Serves(s, steps, t) ensures t.ran != s.queued { Stays(s, steps, t); }
    } else {
      var steps, t := ServesAll(s);
    }
  }

  // ---------------------------------------------------------------------------
  // Quitting
  // ---------------------------------------------------------------------------

  lemma StopsFromBatch(s: State) returns (steps: seq<Step>, t: State)
    requires s.phase == Batch && !s.selfOwes && s.quit
    ensures Serves(s, steps, t) && t.phase == Stopped && t.ran == s.ran + s.batch
  {
    var a, m := Drain(s);
    var m1 := Next(m, EndBatch);
    t := Next(m1, CheckQuit);
    assert Serves(t, [], t);
    Before(m1, CheckQuit, [], t);
    Before(m, EndBatch, [CheckQuit] + [], t);
    Joined(s, a, m, [EndBatch] + ([CheckQuit] + []), t);
    steps := a + ([EndBatch] + ([CheckQuit] + []));
  }

  lemma StopsFromDispatch(s: State) returns (steps: seq<Step>, t: State)
    requires Inv(s) && s.phase in {Outside, Dispatch} && s.quit
    ensures Serves(s, steps, t) && t.phase == Stopped && t.ran == s.queued
  {
    var s1 := Next(s, Prepare);
    var s2 := Next(s1, Swap);
    steps, t := StopsFromBatch(s2);
    Before(s1, Swap, steps, t);
    Before(s, Prepare, [Swap] + steps, t);
    steps := [Prepare] + ([Swap] + steps);
    assert s.ran + s.batch + s.pending == s.ran + s.pending;
  }

  /**
   Quitting works unaided from any reachable state, also from poll. Everything
   queued is run first, except what is queued once the last batch was swapped:
   that is never run.
   */
  lemma QuitStops(trace: seq<Step>) returns (steps: seq<Step>, t: State)
    requires Legal(Init(), trace)
    requires var s := Run(Init(), trace); s.quit && s.quitters == {}
    ensures var s := Run(Init(), trace);
            && Serves(s, steps, t) && t.phase == Stopped
            && t.ran == if s.phase in {Batch, Checking, Stopped} then s.ran + s.batch else s.queued
  {
    KeepsRun(Init(), trace);
    var s := Run(Init(), trace);
    match s.phase
    case Stopped =>
      steps, t := [], s;
      assert s.ran + [] == s.ran;
    case Outside => steps, t := StopsFromDispatch(s);
    case Dispatch => steps, t := StopsFromDispatch(s);
    case Swapping =>
      var s1 := Next(s, Swap);
      steps, t := StopsFromBatch(s1);
      Before(s, Swap, steps, t);
      steps := [Swap] + steps;
      assert s.ran + s.batch + s.pending == s.ran + s.pending;
    case Batch =>
      if s.selfOwes {
        var s1 := Next(s, LoopWake);
        steps, t := StopsFromBatch(s1);
        Before(s, LoopWake, steps, t);
        steps := [LoopWake] + steps;
      } else {
        steps, t := StopsFromBatch(s);
      }
    case Checking =>
      t := Next(s, CheckQuit);
      assert Serves(t, [], t);
      Before(s, CheckQuit, [], t);
      steps := [CheckQuit] + [];
      assert s.ran + [] == s.ran;
    case Poll =>
      var s1 := Next(s, PollWoken);
      KeepsNext(s, PollWoken);
      steps, t := StopsFromDispatch(s1);
      Before(s, PollWoken, steps, t);
      steps := [PollWoken] + steps;
  }

  // ---------------------------------------------------------------------------
  // The eventfd and the flags, told from the steps
  // ---------------------------------------------------------------------------

  predicate Writes(step: Step) {
    step.ForeignWake? || step.ForeignQuitWake? || step.LoopWake?
  }

  /** A wakeup was written and not read since. */
  ghost predicate Unread(steps: seq<Step>) {
    exists i :: 0 <= i < |steps| && Writes(steps[i]) && HandleRead !in steps[i..]
  }

  lemma CounterNext(s: State, step: Step)
    requires Enabled(s, step)
    ensures Next(s, step).counter > 0 <==> Writes(step) || (s.counter > 0 && step != HandleRead)
  {
  }

  lemma UnreadCons(step: Step, rest: seq<Step>)
    ensures Unread([step] + rest) <==> Unread(rest) || (Writes(step) && HandleRead !in rest)
  {
    var all := [step] + rest;
    assert all[0..] == all;
    assert forall i :: 0 <= i < |rest| ==> rest[i] == all[i + 1] && rest[i..] == all[i + 1..];
    if i :| 0 <= i < |all| && Writes(all[i]) && HandleRead !in all[i..] {
      assert i > 0 ==> Writes(rest[i - 1]) && HandleRead !in rest[i - 1..];
    }
  }

  lemma {:induction false} CounterRun(s: State, steps: seq<Step>)
    requires Legal(s, steps)
    ensures Run(s, steps).counter > 0 <==> Unread(steps) || (s.counter > 0 && HandleRead !in steps)
    decreases |steps|
  {
    if steps != [] {
      CounterNext(s, steps[0]);
      CounterRun(Next(s, steps[0]), steps[1..]);
      UnreadCons(steps[0], steps[1..]);
      assert steps == [steps[0]] + steps[1..];
    }
  }

  /**
   The eventfd is readable exactly when some thread has written to it since the loop
   last read it. So a loop that has read it, and that nobody wakes again, is not woken
   by it: it sleeps in poll until something else happens.
   */
  lemma ReadableExact(steps: seq<Step>)
    requires Legal(Init(), steps)
    ensures var s := Run(Init(), steps);
            && (s.counter > 0 <==> Unread(steps))
            && (s.phase == Poll && !Unread(steps) ==> !Enabled(s, PollWoken))
  {
    CounterRun(Init(), steps);
  }

  /** The functors that the steps push, in order. */
  function PushedBy(steps: seq<Step>): seq<Functor> {
    if steps == [] then []
    else (match steps[0] {
            case ForeignPush(_, f) => [f]
            case LoopPush(f) => [f]
            case _ => []
          }) + PushedBy(steps[1..])
  }

  lemma {:induction false} PushedRun(s: State, steps: seq<Step>)
    requires Legal(s, steps)
    ensures Run(s, steps).queued == s.queued + PushedBy(steps)
    ensures Run(s, steps).quit <==> s.quit || LoopQuit in steps || exists t :: ForeignQuit(t) in steps
    decreases |steps|
  {
    if steps != [] {
      PushedRun(Next(s, steps[0]), steps[1..]);
      assert steps == [steps[0]] + steps[1..];
      assert steps[0].ForeignQuit? ==> ForeignQuit(steps[0].thread) in steps;
    }
  }

  /** What was ever queued is what was pushed, in order; and quit_ is set once some quit has set it. */
  lemma QueuedExact(steps: seq<Step>)
    requires Legal(Init(), steps)
    ensures var s := Run(Init(), steps);
            && s.ran + s.batch + s.pending == PushedBy(steps)
            && (s.quit <==> LoopQuit in steps || exists t :: ForeignQuit(t) in steps)
  {
    PushedRun(Init(), steps);
    KeepsRun(Init(), steps);
    assert [] + PushedBy(steps) == PushedBy(steps);
  }
}
