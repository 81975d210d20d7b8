/**
 put and take as they are written, over the fields of the queue, its mutex and its
 two conditions. A call runs against an arbitrary list of other threads' steps,
 which get their turn whenever the caller is off the mutex; the call and they
 together make a run of `QueueSpec`.
 */
module BoundedBlockingQueues {
  import opened Basics
  import opened QueueSpec
  import opened QueueProofs

  lemma {:induction false} RunSnoc(s: State, a: seq<Step>, step: Step)
    requires Legal(s, a) && Enabled(Run(s, a), step)
    ensures Legal(s, a + [step]) && Run(s, a + [step]) == Next(Run(s, a), step)
    decreases |a|
  {
    if a == [] {
      assert [step][1..] == [] && a + [step] == [step];
    } else {
      RunSnoc(Next(s, a[0]), a[1..], step);
      assert (a + [step])[1..] == a[1..] + [step];
    }
  }

  predicate By(step: Step, t: nat) {
    match step
    case Call(u, _, _) => u == t
    case Acquire(u) => u == t
    case Test(u) => u == t
    case Move(u) => u == t
    case Notify(u, _) => u == t
    case Unlock(u) => u == t
    case Spurious(u) => false     // the kernel's doing, whoever it hits
  }

  /** In a call, and off the mutex: about to lock, waiting, or signalled. */
  predicate OffMutex(s: State, t: nat) {
    At(s, t, Locking) || At(s, t, Waiting) || At(s, t, Woken)
  }

  /** Still in the same call, whatever the stage. */
  predicate InCall(th: Thread, role: Role, x: Item) {
    th.Busy? && th.role == role && th.item == x
  }

  predicate SameCall(s: State, v: State, t: nat) {
    ThreadOf(s, t).Busy? && InCall(ThreadOf(v, t), ThreadOf(s, t).role, ThreadOf(s, t).item)
  }

  /** What others do leaves a thread that is off the mutex there, in the same call. */
  lemma OthersLeave(s: State, step: Step, t: nat)
    requires Enabled(s, step) && !By(step, t) && OffMutex(s, t)
    requires Consistent(s, t)
    ensures OffMutex(Next(s, step), t) && SameCall(s, Next(s, step), t)
  {
  }

  lemma CapacityFixed(s: State, step: Step)
    requires Enabled(s, step)
    ensures Next(s, step).capacity == s.capacity
  {
  }

  /** The trace has gone on from `before`, and thread `t` has pushed and popped nothing meanwhile. */
  predicate Onward(before: seq<Step>, after: seq<Step>, t: nat) {
    before <= after && Move(t) !in after[|before|..]
  }

  lemma OnwardAgain(a: seq<Step>, b: seq<Step>, c: seq<Step>, t: nat)
    requires Onward(a, b, t) && Onward(b, c, t)
    ensures Onward(a, c, t)
  {
    assert c[|a|..] == b[|a|..] + c[|b|..];
  }

  class BoundedBlockingQueue {
    const maxSize: nat
    var queue: seq<Item>
    var mutexOwner: Option<nat>
    var notEmpty: Condition
    var notFull: Condition
    var threads: map<nat, Thread>
    var puts: seq<Item>               // history: everything pushed
    var takes: seq<Item>              // history: everything popped
    ghost var trace: seq<Step>        // everything that happened so far

    function View(): State
      reads this
    {
      State(maxSize, queue, mutexOwner, notEmpty, notFull, threads, puts, takes, true)
    }

    ghost predicate Valid()
      reads this
    {
      Legal(Init(maxSize), trace) && Run(Init(maxSize), trace) == View() && Inv(View())
    }

    constructor (maxSize: nat)
      ensures Valid() && this.maxSize == maxSize && queue == [] && trace == []
    {
      this.maxSize := maxSize;
      queue, mutexOwner, threads := [], None, map[];
      notEmpty, notFull := Condition({}, {}), Condition({}, {});
      puts, takes, trace := [], [], [];
    }

    /** The trace grows by one step that the caller has just carried out on the fields. */
    ghost method Record(s: State, step: Step)
      requires Legal(Init(maxSize), trace) && Run(Init(maxSize), trace) == s && Inv(s)
      requires Enabled(s, step) && View() == Next(s, step)
      modifies `trace
      ensures Valid() && View() == old(View()) && trace == old(trace) + [step]
    {
      KeepsNext(s, step);
      RunSnoc(Init(maxSize), trace, step);
      trace := trace + [step];
    }

    /** A step of another thread, or a spurious wakeup, if it can happen now. */
    method Happen(step: Step, t: nat)
      requires Valid() && OffMutex(View(), t)
      modifies this
      ensures Valid() && OffMutex(View(), t) && Onward(old(trace), trace, t)
      ensures SameCall(old(View()), View(), t)
    {
      var before := View();
      if Enabled(before, step) && !By(step, t) {
        var after := Next(before, step);
        assert Consistent(before, t);
        OthersLeave(before, step, t);
        CapacityFixed(before, step);
        KeepsNext(before, step);
        queue, mutexOwner, notEmpty, notFull := after.items, after.owner, after.notEmpty, after.notFull;
        threads, puts, takes := after.threads, after.puts, after.takes;
        assert View() == after;
        Record(before, step);
      }
    }

    method Interfere(t: nat, others: seq<Step>)
      requires Valid() && OffMutex(View(), t)
      modifies this
      ensures Valid() && OffMutex(View(), t) && Onward(old(trace), trace, t)
      ensures SameCall(old(View()), View(), t)
      ensures others == [] ==> View() == old(View())
    {
      for i := 0 to |others|
        invariant i == 0 ==> View() == old(View())
        invariant Valid() && OffMutex(View(), t) && Onward(old(trace), trace, t)
        invariant SameCall(old(View()), View(), t)
      {
        ghost var before := trace;
        Happen(others[i], t);
        OnwardAgain(old(trace), before, trace, t);
      }
    }

    /** Enters a call. */
    method Enter(t: nat, role: Role, x: Item)
      requires Valid() && ThreadOf(View(), t).Idle?
      modifies this
      ensures Valid() && Onward(old(trace), trace, t) && ThreadOf(View(), t) == Busy(role, Locking, x)
      ensures queue == old(queue) && mutexOwner == old(mutexOwner)
    {
      ghost var before := View();
      threads := threads[t := Busy(role, Locking, x)];
      Record(before, Call(t, role, x));
    }

    /** Gets the mutex, once the others leave it free; gives up when `others` runs out. */
    method Lock(t: nat, others: seq<seq<Step>>) returns (got: bool, rest: seq<seq<Step>>)
      requires Valid() && OffMutex(View(), t)
      modifies this
      ensures Valid() && Onward(old(trace), trace, t)
      ensures SameCall(old(View()), View(), t)
      ensures |rest| <= |others| && (got ==> |rest| < |others| && At(View(), t, Testing))
      ensures old(mutexOwner == None && At(View(), t, Locking)) && others != [] && others[0] == [] ==>
                got && queue == old(queue)
    {
      got, rest := false, others;
      while rest != [] && !got
        invariant rest == others ==> !got && View() == old(View())
        invariant rest != others && old(mutexOwner == None && At(View(), t, Locking)) && others[0] == [] ==>
                    got && queue == old(queue)
        invariant Valid() && Onward(old(trace), trace, t) && |rest| <= |others|
        invariant SameCall(old(View()), View(), t)
        invariant if got then At(View(), t, Testing) && |rest| < |others| else OffMutex(View(), t)
        decreases |rest|
      {
        ghost var before := trace;
        Interfere(t, rest[0]);
        OnwardAgain(old(trace), before, trace, t);
        rest := rest[1..];
        if mutexOwner == None && threads[t].stage != Waiting {
          before := trace;
          Grab(t);
          OnwardAgain(old(trace), before, trace, t);
          got := true;
        }
      }
    }

    /** pthread_mutex_lock, or the end of pthread_cond_wait, succeeds. */
    method Grab(t: nat)
      requires Valid() && Enabled(View(), Acquire(t))
      modifies this
      ensures Valid() && Onward(old(trace), trace, t) && At(View(), t, Testing) && SameCall(old(View()), View(), t)
      ensures queue == old(queue)
    {
      ghost var before := View();
      if threads[t].role.Put? {
        notFull := notFull.(woken := notFull.woken - {t});
      } else {
        notEmpty := notEmpty.(woken := notEmpty.woken - {t});
      }
      mutexOwner := Some(t);
      threads := threads[t := threads[t].(stage := Testing)];
      Record(before, Acquire(t));
    }

    /** wait(): into the condition's wait set, and the mutex released, in one go. */
    method Wait(t: nat)
      requires Valid() && At(View(), t, Testing) && Blocked(View(), ThreadOf(View(), t).role)
      modifies this
      ensures Valid() && Onward(old(trace), trace, t) && OffMutex(View(), t) && SameCall(old(View()), View(), t)
      ensures mutexOwner == None && At(View(), t, Waiting) && t in CondOf(View(), ThreadOf(View(), t).role).waiting
    {
      ghost var before := View();
      if threads[t].role.Put? {
        notFull := notFull.(waiting := notFull.waiting + {t});
      } else {
        notEmpty := notEmpty.(waiting := notEmpty.waiting + {t});
      }
      mutexOwner := None;
      threads := threads[t := threads[t].(stage := Waiting)];
      Record(before, Test(t));
    }

    /** The while test fails: the caller goes past the loop. */
    method Pass(t: nat)
      requires Valid() && At(View(), t, Testing) && !Blocked(View(), ThreadOf(View(), t).role)
      modifies this
      ensures Valid() && Onward(old(trace), trace, t) && At(View(), t, Passed) && SameCall(old(View()), View(), t)
      ensures queue == old(queue)
    {
      ghost var before := View();
      threads := threads[t := threads[t].(stage := Passed)];
      Record(before, Test(t));
    }

    method PushBack(t: nat, x: Item)
      requires Valid() && At(View(), t, Passed) && InCall(ThreadOf(View(), t), Role.Put, x)
      modifies this
      ensures Valid() && trace == old(trace) + [Move(t)] && At(View(), t, Moved)
      ensures queue == old(queue) + [x] && puts == old(puts) + [x] && takes == old(takes)
    {
      assert |queue| < maxSize by { assert Consistent(View(), t); }    // the source's own assert
      ghost var before := View();
      queue, puts := queue + [x], puts + [x];
      threads := threads[t := threads[t].(stage := Moved)];
      Record(before, Move(t));
    }

    method PopFront(t: nat) returns (front: Item)
      requires Valid() && At(View(), t, Passed) && ThreadOf(View(), t).role.Take?
      modifies this
      ensures Valid() && trace == old(trace) + [Move(t)] && At(View(), t, Moved)
      ensures old(queue) == [front] + queue && takes == old(takes) + [front] && puts == old(puts)
    {
      assert queue != [] by { assert Consistent(View(), t); }          // the source's own assert
      ghost var before := View();
      front := queue[0];
      queue, takes := queue[1..], takes + [front];
      threads := threads[t := Busy(Role.Take, Moved, front)];
      Record(before, Move(t));
    }

    /** notify() on the condition the other role waits on: some waiter, if there is one, is woken. */
    method Notify(t: nat) returns (woken: Option<nat>)
      requires Valid() && At(View(), t, Moved)
      modifies this
      ensures Valid() && trace == old(trace) + [Step.Notify(t, woken)] && At(View(), t, Notified)
      ensures queue == old(queue) && puts == old(puts) && takes == old(takes)
      ensures var role := Other(old(ThreadOf(View(), t).role));
              var before, after := CondOf(old(View()), role), CondOf(View(), role);
              if before.waiting == {} then woken == None && after == before
              else woken.Some? && woken.value in before.waiting && At(View(), woken.value, Woken)
                   && after == Condition(before.waiting - {woken.value}, before.woken + {woken.value})
    {
      ghost var before := View();
      assert Consistent(before, t);
      var c := if threads[t].role.Put? then notEmpty else notFull;
      woken := None;
      if c.waiting == {} {
        threads := threads[t := threads[t].(stage := Notified)];
      } else {
        var w :| w in c.waiting;
        woken := Some(w);
        assert Consistent(before, w);
        c := Condition(c.waiting - {w}, c.woken + {w});
        if threads[t].role.Put? {
          notEmpty := c;
        } else {
          notFull := c;
        }
        threads := threads[w := threads[w].(stage := Woken)];
        threads := threads[t := threads[t].(stage := Notified)];
      }
      Record(before, Step.Notify(t, woken));
    }

    method Leave(t: nat)
      requires Valid() && At(View(), t, Notified)
      modifies this
      ensures Valid() && trace == old(trace) + [Unlock(t)] && ThreadOf(View(), t).Idle?
      ensures queue == old(queue) && puts == old(puts) && takes == old(takes)
    {
      ghost var before := View();
      mutexOwner, threads := None, threads[t := Idle];
      Record(before, Unlock(t));
    }

    /** The mutex is free, there is room or an item, and the caller has the first turn to itself. */
    ghost predicate Undisturbed(role: Role, others: seq<seq<Step>>)
      reads this
    {
      && mutexOwner == None && others != [] && others[0] == []
      && if role.Put? then |queue| < maxSize else queue != []
    }

    /** The while-wait loop both calls share: holding the mutex and not blocked, or out of luck. */
    method Await(t: nat, role: Role, x: Item, others: seq<seq<Step>>) returns (got: bool)
      requires Valid() && ThreadOf(View(), t).Idle?
      modifies this
      ensures Valid() && Onward(old(trace), trace, t) && InCall(ThreadOf(View(), t), role, x)
      ensures got ==> At(View(), t, Passed)
      ensures old(Undisturbed(role, others)) ==> got && queue == old(queue)
    {
      Enter(t, role, x);
      ghost var before := trace;
      var rest;
      got, rest := Lock(t, others);
      OnwardAgain(old(trace), before, trace, t);
      while got && (if role.Put? then |queue| >= maxSize else queue == [])
        invariant Valid() && Onward(old(trace), trace, t) && InCall(ThreadOf(View(), t), role, x)
        invariant got ==> At(View(), t, Testing)
        invariant old(Undisturbed(role, others)) ==> got && queue == old(queue)
        decreases got, |rest|
      {
        before := trace;
        Wait(t);
        OnwardAgain(old(trace), before, trace, t);
        before := trace;
        got, rest := Lock(t, rest);
        OnwardAgain(old(trace), before, trace, t);
      }
      if got {
        before := trace;
        Pass(t);
        OnwardAgain(old(trace), before, trace, t);
      }
    }

    /** How a finished call ends: its one move, with the mutex held until the unlock, and nothing of anybody else's between. */
    ghost predicate Ended(before: seq<Step>, t: nat)
      reads this
    {
      var n := |trace| - 3;
      && |before| <= n && Onward(before, trace[..n], t) && Legal(Init(maxSize), trace[..n])
      && trace[n] == Move(t) && trace[n + 1].Notify? && trace[n + 1].thread == t && trace[n + 2] == Unlock(t)
    }

    /**
     put(x). When it returns, it has made exactly one move since it was called, and
     that move pushed x. It has not returned (`done` is false), and moved nothing,
     when the others' steps ran out with the caller still waiting. With the mutex free
     and the queue not full it returns at the first turn that the others leave it.
     */
    method Put(t: nat, x: Item, others: seq<seq<Step>>) returns (done: bool)
      requires Valid() && ThreadOf(View(), t).Idle?
      modifies this
      ensures Valid() && old(trace) <= trace
      ensures if done then ThreadOf(View(), t).Idle? && Ended(old(trace), t) else Onward(old(trace), trace, t)
      ensures done ==>
                var s := Run(Init(maxSize), trace[..|trace| - 3]);
                |s.items| < maxSize && queue == s.items + [x] && puts == s.puts + [x] && takes == s.takes
      ensures old(Undisturbed(Role.Put, others)) ==> done && queue == old(queue) + [x]
    {
      done := Await(t, Role.Put, x, others);
      if done {
        ghost var before := trace;
        assert |queue| < maxSize by { assert Consistent(View(), t); }
        PushBack(t, x);
        var woken := Notify(t);
        Leave(t);
        assert trace[..|trace| - 3] == before;
      }
    }

    /**
     take(). When it returns, it has made exactly one move since it was called, and that
     move popped `front`. With the mutex free and the queue not empty it returns at the
     first turn that the others leave it.
     */
    method Take(t: nat, others: seq<seq<Step>>) returns (done: bool, front: Item)
      requires Valid() && ThreadOf(View(), t).Idle?
      modifies this
      ensures Valid() && old(trace) <= trace
      ensures if done then ThreadOf(View(), t).Idle? && Ended(old(trace), t) else Onward(old(trace), trace, t)
      ensures done ==>
                var s := Run(Init(maxSize), trace[..|trace| - 3]);
                s.items == [front] + queue && takes == s.takes + [front] && puts == s.puts
      ensures old(Undisturbed(Role.Take, others)) ==> done && old(queue) == [front] + queue
    {
      front := 0;
      done := Await(t, Role.Take, front, others);
      if done {
        ghost var before := trace;
        front := PopFront(t);
        var woken := Notify(t);
        Leave(t);
        assert trace[..|trace| - 3] == before;
      }
    }
  }
}
