/**
 EventLoop's methods over its own fields. Each is proved to be a run of the steps
 of `LoopSpec`, so the wakeup and ordering results hold of them.
 */
module EventLoops {
  import opened LoopSpec
  import opened LoopProofs

  /** A functor queued while another one runs, by it or by a foreign thread. */
  datatype Arrival = Arrival(f: Functor, foreign: bool)

  function Functors(arrivals: seq<Arrival>): (fs: seq<Functor>)
    ensures |fs| == |arrivals| && forall i :: 0 <= i < |fs| ==> fs[i] == arrivals[i].f
  {
    seq(|arrivals|, i requires 0 <= i < |arrivals| => arrivals[i].f)
  }

  /** Some of it comes from another thread. */
  predicate Wakes(arrivals: seq<Arrival>) {
    exists i :: 0 <= i < |arrivals| && arrivals[i].foreign
  }

  /** All that arrives while the first `n` functors of a batch run. */
  function Arrived(during: nat -> seq<Arrival>, n: nat): seq<Functor> {
    if n == 0 then [] else Arrived(during, n - 1) + Functors(during(n - 1))
  }

  lemma {:induction false} RunConcat(s: State, a: seq<Step>, b: seq<Step>)
    requires Legal(s, a) && Legal(Run(s, a), b)
    ensures Legal(s, a + b) && Run(s, a + b) == Run(Run(s, a), b)
    decreases |a|
  {
    if a == [] {
      assert a + b == b;
    } else {
      RunConcat(Next(s, a[0]), a[1..], b);
      assert (a + b)[1..] == a[1..] + b;
    }
  }

  lemma RunOne(s: State, step: Step)
    requires Enabled(s, step)
    ensures Legal(s, [step]) && Run(s, [step]) == Next(s, step)
  {
    assert [step][1..] == [];
  }

  lemma RunSnoc(s: State, a: seq<Step>, step: Step)
    requires Legal(s, a) && Enabled(Run(s, a), step)
    ensures Legal(s, a + [step]) && Run(s, a + [step]) == Next(Run(s, a), step)
  {
    RunOne(Run(s, a), step);
    RunConcat(s, a, [step]);
  }

  class EventLoop {
    var pendingFunctors: seq<Functor>
    var callingPendingFunctors: bool
    var quit: bool
    var wakeups: nat                  // the eventfd's counter
    ghost var phase: Phase
    ghost var batch: seq<Functor>
    ghost var queued: seq<Functor>
    ghost var ran: seq<Functor>

    /** No other thread is half way through a call. */
    ghost function View(): State
      reads this
    {
      State(phase, pendingFunctors, batch, callingPendingFunctors, quit, wakeups, {}, {}, false, queued, ran)
    }

    constructor ()
      ensures View() == Init() && Inv(View())
    {
      pendingFunctors, callingPendingFunctors, quit, wakeups := [], false, false, 0;
      phase, batch, queued, ran := Outside, [], [], [];
    }

    method Wakeup()
      modifies `wakeups
      ensures wakeups == if old(wakeups) < 0xffff_ffff_ffff_fffe then old(wakeups) + 1 else old(wakeups)
    {
      if wakeups < COUNTER_MAX {
        wakeups := wakeups + 1;
      }
    }

    method HandleRead()
      requires phase == Dispatch
      modifies `wakeups
      ensures View() == Next(old(View()), Step.HandleRead) && wakeups == 0
    {
      wakeups := 0;
    }

    method QueueInLoop(cb: Functor, inLoopThread: bool) returns (ghost steps: seq<Step>)
      requires Inv(View()) && (inLoopThread ==> UserCodeRuns(View()))
      modifies this
      ensures Legal(old(View()), steps) && View() == Run(old(View()), steps)
      ensures Inv(View()) && phase == old(phase) && batch == old(batch)
      ensures queued == old(queued) + [cb] && pendingFunctors == old(pendingFunctors) + [cb]
      ensures !inLoopThread || callingPendingFunctors ==> wakeups > 0
      ensures wakeups >= old(wakeups)
      ensures ran == old(ran) && quit == old(quit) && callingPendingFunctors == old(callingPendingFunctors)
    {
      ghost var s := View();
      pendingFunctors := pendingFunctors + [cb];
      queued := queued + [cb];
      if !inLoopThread || callingPendingFunctors {
        Wakeup();
      }
      ghost var push := if inLoopThread then LoopPush(cb) else ForeignPush(0, cb);
      RunOne(s, push);
      steps := [push];
      if !inLoopThread || callingPendingFunctors {
        ghost var wake := if inLoopThread then LoopWake else ForeignWake(0);
        RunSnoc(s, [push], wake);
        steps := [push, wake];
        assert Next(s, push).pushers - {0} == {};
      }
      KeepsRun(s, steps);
    }

    method Quit(inLoopThread: bool) returns (ghost steps: seq<Step>)
      requires Inv(View()) && (inLoopThread ==> UserCodeRuns(View()))
      modifies this
      ensures Legal(old(View()), steps) && View() == Run(old(View()), steps)
      ensures Inv(View()) && quit && (!inLoopThread ==> wakeups > 0)
    {
      ghost var s := View();
      quit := true;
      if !inLoopThread {
        Wakeup();
      }
      ghost var set_ := if inLoopThread then LoopQuit else ForeignQuit(0);
      RunOne(s, set_);
      steps := [set_];
      if !inLoopThread {
        RunSnoc(s, [set_], ForeignQuitWake(0));
        steps := [set_, ForeignQuitWake(0)];
        assert Next(s, set_).quitters - {0} == {};
      }
      KeepsRun(s, steps);
    }

    /** Everything that arrives while one functor runs, or while the batch is destroyed, is queued. */
    method QueueAll(arrivals: seq<Arrival>) returns (ghost steps: seq<Step>)
      requires Inv(View()) && phase in {Batch, Checking}
      modifies this
      ensures Legal(old(View()), steps) && View() == Run(old(View()), steps)
      ensures Inv(View()) && phase == old(phase) && batch == old(batch) && ran == old(ran)
      ensures pendingFunctors == old(pendingFunctors) + Functors(arrivals)
      ensures callingPendingFunctors == old(callingPendingFunctors) && quit == old(quit)
      ensures old(wakeups) > 0 || Wakes(arrivals) ==> wakeups > 0
    {
      ghost var s := View();
      steps := [];
      for i := 0 to |arrivals|
        invariant Legal(s, steps) && View() == Run(s, steps)
        invariant Inv(View()) && phase == s.phase && batch == s.batch && ran == s.ran
        invariant pendingFunctors == s.pending + Functors(arrivals)[..i]
        invariant callingPendingFunctors == s.calling && quit == s.quit
        invariant s.counter > 0 || Wakes(arrivals[..i]) ==> wakeups > 0
      {
        assert arrivals[..i + 1] == arrivals[..i] + [arrivals[i]];
        ghost var more := QueueInLoop(arrivals[i].f, !arrivals[i].foreign);
        RunConcat(s, steps, more);
        steps := steps + more;
      }
      assert arrivals[..|arrivals|] == arrivals;
    }

    /** Raises the flag and swaps the queue out. */
    method SwapOut() returns (functors: seq<Functor>, ghost steps: seq<Step>)
      requires Inv(View()) && phase in {Outside, Dispatch}
      modifies this
      ensures Legal(old(View()), steps) && View() == Run(old(View()), steps)
      ensures Inv(View()) && phase == Batch && functors == batch == old(pendingFunctors)
      ensures pendingFunctors == [] && ran == old(ran)
    {
      ghost var s := View();
      callingPendingFunctors, phase := true, Swapping;
      RunOne(s, Prepare);
      functors, pendingFunctors := pendingFunctors, [];
      phase, batch := Batch, functors;
      RunSnoc(s, [Prepare], Swap);
      steps := [Prepare] + [Swap];
      KeepsRun(s, steps);
    }

    /** One functor of the batch runs, and `arrivals` are queued meanwhile. */
    method RunFunctor(f: Functor, arrivals: seq<Arrival>) returns (ghost steps: seq<Step>)
      requires Inv(View()) && phase == Batch && batch != [] && batch[0] == f
      modifies this
      ensures Legal(old(View()), steps) && View() == Run(old(View()), steps)
      ensures Inv(View()) && phase == Batch && batch == old(batch)[1..] && ran == old(ran) + [f]
      ensures pendingFunctors == old(pendingFunctors) + Functors(arrivals)
    {
      ghost var s := View();
      ran, batch := ran + [f], batch[1..];
      RunOne(s, RunNext);
      KeepsNext(s, RunNext);
      ghost var more := QueueAll(arrivals);
      RunConcat(s, [RunNext], more);
      steps := [RunNext] + more;
    }

    /** The loop over the swapped functors. */
    method RunBatch(functors: seq<Functor>, during: nat -> seq<Arrival>) returns (ghost steps: seq<Step>)
      requires Inv(View()) && phase == Batch && batch == functors && pendingFunctors == []
      modifies this
      ensures Legal(old(View()), steps) && View() == Run(old(View()), steps)
      ensures Inv(View()) && phase == Batch && batch == [] && ran == old(ran) + functors
      ensures pendingFunctors == Arrived(during, |functors|)
    {
      ghost var s := View();
      steps := [];
      for i := 0 to |functors|
        invariant Legal(s, steps) && View() == Run(s, steps)
        invariant Inv(View()) && phase == Batch
        invariant batch == functors[i..] && ran == s.ran + functors[..i]
        invariant pendingFunctors == Arrived(during, i)
      {
        ghost var more := RunFunctor(functors[i], during(i));
        RunConcat(s, steps, more);
        steps := steps + more;
      }
    }

    /**
     Runs exactly the functors that were swapped out, in order, whatever arrives in
     the meantime; the arrivals wait for the next round. `during(i)` is what is
     queued while the i-th one runs, which may include that functor itself; `late` is
     what is queued while the swapped functors are destroyed, with the flag down.
     Whatever arrived during the batch, or late from another thread, has left the
     eventfd readable.
     */
    method DoPendingFunctors(during: nat -> seq<Arrival>, late: seq<Arrival>) returns (ghost steps: seq<Step>)
      requires Inv(View()) && phase in {Outside, Dispatch}
      modifies this
      ensures Legal(old(View()), steps) && View() == Run(old(View()), steps)
      ensures Inv(View()) && phase == Checking && !callingPendingFunctors
      ensures ran == old(ran) + old(pendingFunctors)
      ensures pendingFunctors == Arrived(during, |old(pendingFunctors)|) + Functors(late)
      ensures Arrived(during, |old(pendingFunctors)|) != [] || Wakes(late) ==> wakeups > 0
    {
      ghost var s := View();
      var functors;
      functors, steps := SwapOut();
      ghost var more := RunBatch(functors, during);
      RunConcat(s, steps, more);
      steps := steps + more;
      callingPendingFunctors, phase := false, Checking;
      RunSnoc(s, steps, EndBatch);
      steps := steps + [EndBatch];
      KeepsRun(s, steps);
      more := QueueAll(late);
      RunConcat(s, steps, more);
      steps := steps + more;
    }

    /** The prepare watcher: drain once, then leave the loop if quit was asked for. */
    method PrepareCallBack(during: nat -> seq<Arrival>, late: seq<Arrival>) returns (broke: bool, ghost steps: seq<Step>)
      requires Inv(View()) && phase in {Outside, Dispatch}
      modifies this
      ensures Legal(old(View()), steps) && View() == Run(old(View()), steps)
      ensures Inv(View()) && broke == quit && phase == if broke then Stopped else Poll
      ensures ran == old(ran) + old(pendingFunctors)
      ensures pendingFunctors == Arrived(during, |old(pendingFunctors)|) + Functors(late)
      ensures Arrived(during, |old(pendingFunctors)|) != [] || Wakes(late) ==> wakeups > 0
    {
      ghost var s := View();
      steps := DoPendingFunctors(during, late);
      broke := quit;
      phase := if broke then Stopped else Poll;
      RunSnoc(s, steps, CheckQuit);
      steps := steps + [CheckQuit];
      KeepsRun(s, steps);
    }
  }
}
