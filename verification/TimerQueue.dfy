/**
 TimerQueue's methods over its set, the heap and the loop's functor queue, with the
 iterator loop of clearExpiredTimer. Every dereference is checked against the heap.
 */
module TimerQueues {
  import opened Basics
  import opened TimerSpec
  import opened TimerProofs

  /** What clearExpiredTimer has deleted, and what it has left in the set, with `rest` still to visit. */
  function Deleted(s: State, rest: set<TimerId>): set<nat> {
    set id | id in s.valid && id !in rest && !Active(s.heap, id.addr) :: id.addr
  }

  function Left(s: State, rest: set<TimerId>): set<TimerId> {
    set id | id in s.valid && (id in rest || Active(s.heap, id.addr))
  }

  lemma Visit(s: State, rest: set<TimerId>, it: TimerId)
    requires Owned(s) && rest <= s.valid && it in rest
    ensures it.addr in s.heap && it.addr !in Deleted(s, rest)
    ensures Deleted(s, rest - {it}) == Deleted(s, rest) + if Active(s.heap, it.addr) then {} else {it.addr}
    ensures Left(s, rest - {it}) == Left(s, rest) - if Active(s.heap, it.addr) then {} else {it}
  {
    assert Names(s.heap, it);
    forall id | id in s.valid && id.addr == it.addr
      ensures id == it
    {
      assert Names(s.heap, id);
    }
  }

  lemma SweepEnds(s: State)
    requires Inv(s)
    ensures Owned(s)
    ensures s.heap - Deleted(s, s.valid) == s.heap && Left(s, s.valid) == s.valid
    ensures TimerSpec.ClearExpiredTimer(s) == s.(heap := s.heap - Deleted(s, {}), valid := Left(s, {}))
  {
    assert Deleted(s, s.valid) == {};
    assert Deleted(s, {}) == Expired(s);
    forall a, b | a in s.valid && b in s.valid && a.addr == b.addr
      ensures a == b
    {
      assert Names(s.heap, a) && Names(s.heap, b);
    }
  }

  lemma StaysFlying(s: State, step: Step, own: TimerId)
    requires Enabled(s, step) && own in s.flying && step != Return(own)
    ensures own in Next(s, step).flying
  {
  }

  lemma StaysOk(s: State)
    requires Inv(s)
    ensures s.ok
  {
  }

  lemma PostGuarded(s: State, addr: nat)
    requires Inv(s) && addr != 0 && addr !in s.heap && Unclaimed(s, addr)
    ensures Guarded(Next(s, ForeignAdd(addr, true)), TimerId(addr, s.created + 1))
  {
    Posted(s, addr, true);
  }

  lemma GuardedAnswers(s: State, own: TimerId)
    requires Guarded(s, own)
    ensures Answer(s, own) == Some(own)
  {
  }

  class TimerQueue {
    var heap: map<nat, Timer>         // the allocated Timer objects
    var created: nat                  // Timer::s_numCreated_
    var validTimers: set<TimerId>
    var queue: seq<Functor>           // the loop's functors, as far as they concern timers
    var made: set<TimerId>            // history: every timer created
    var flying: set<TimerId>          // timers posted by calls on other threads that have not returned
    var issued: set<TimerId>          // history: every id returned
    var log: seq<Event>               // history
    var readOk: bool

    function View(): State
      reads this
    {
      State(heap, created, validTimers, queue, made, flying, issued, log, true, readOk)
    }

    constructor ()
      ensures View() == Init() && Inv(View())
    {
      heap, created, validTimers, queue, log := map[], 0, {}, [], [];
      made, flying, issued, readOk := {}, {}, {}, true;
    }

    /**
     addTimer on the loop's thread, where addTimerInLoop runs at once. `addr` is where
     the allocator puts the new timer.
     */
    method AddTimer(addr: nat, repeat: bool) returns (id: TimerId)
      requires Inv(View()) && addr != 0 && addr !in heap
      modifies this
      ensures View() == Next(old(View()), LoopAdd(addr, repeat))
      ensures Inv(View()) && id == TimerId(addr, created) && id in issued && id !in old(issued)
    {
      KeepsNext(View(), LoopAdd(addr, repeat));
      NewIsFresh(View(), addr);
      var own := Create(addr, repeat);
      AddTimerInLoop(addr);
      id := TimerId(addr, heap[addr].sequence);
      issued := issued + {id};
    }

    /** new Timer */
    method Create(addr: nat, repeat: bool) returns (own: TimerId)
      requires addr !in heap
      modifies `created, `heap, `made
      ensures View() == NewTimer(old(View()), addr, repeat) && own == TimerId(addr, created)
    {
      created := created + 1;
      heap := heap[addr := Timer(created, repeat, false)];
      own := TimerId(addr, created);
      made := made + {own};
    }

    /**
     addTimer on another thread, against arbitrary steps of everybody else between the
     post and the read of the number. It reads an allocated timer, its own, when the
     timer repeats and no call in flight has posted one at the same address; without
     that `id` may be another timer's, or, as None, come from freed memory.
     */
    method AddTimerFromOutside(addr: nat, repeat: bool, others: seq<Step>) returns (id: Option<TimerId>, ghost steps: seq<Step>)
      requires Inv(View()) && addr != 0 && addr !in heap
      modifies this
      ensures Inv(View())
      ensures var t, own := Next(old(View()), ForeignAdd(addr, repeat)), TimerId(addr, old(created) + 1);
              && Legal(t, steps)
              && var u := TimerSpec.Run(t, steps);
                 own in u.flying && id == Answer(u, own) && View() == ReturnId(u, own)
      ensures repeat && Unclaimed(old(View()), addr) ==> id == Some(TimerId(addr, old(created) + 1))
    {
      hide Inv, Guarded, Next, Enabled, Answer;
      ghost var s := View();
      var own := Post(addr, repeat);
      ghost var t := View();
      steps := Meanwhile(own, others);
      if repeat && Unclaimed(s, addr) {
        assert Guarded(t, own) by { PostGuarded(s, addr); }
        GuardedRun(t, steps, own);
        GuardedAnswers(View(), own);
      }
      id := ReadId(own);
    }

    /** The new timer is posted to the loop. */
    method Post(addr: nat, repeat: bool) returns (own: TimerId)
      requires Inv(View()) && addr != 0 && addr !in heap
      modifies this
      ensures View() == Next(old(View()), ForeignAdd(addr, repeat)) && Inv(View())
      ensures own == TimerId(addr, created) && own in flying && created == old(created) + 1
    {
      KeepsNext(View(), ForeignAdd(addr, repeat));
      hide Inv;
      own := Create(addr, repeat);
      queue := queue + [Functor.AddInLoop(own)];
      flying := flying + {own};
    }

    /** timer->sequence(), read when the loop may have been at the timer for a while. */
    method ReadId(own: TimerId) returns (id: Option<TimerId>)
      requires Inv(View()) && own in flying
      modifies this
      ensures id == Answer(old(View()), own) && View() == ReturnId(old(View()), own) && Inv(View())
    {
      KeepsReturn(View(), own);
      hide Inv;
      id := if own.addr in heap then Some(TimerId(own.addr, heap[own.addr].sequence)) else None;
      flying := flying - {own};
      if id.Some? {
        issued := issued + {id.value};
      } else {
        readOk := false;
      }
    }

    method Meanwhile(own: TimerId, others: seq<Step>) returns (ghost steps: seq<Step>)
      requires Inv(View()) && own in flying
      modifies this
      ensures Legal(old(View()), steps) && View() == TimerSpec.Run(old(View()), steps)
      ensures Inv(View()) && own in flying
    {
      hide Inv, Next, Enabled;
      ghost var t := View();
      steps := [];
      for i := 0 to |others|
        invariant Legal(t, steps) && View() == TimerSpec.Run(t, steps)
        invariant Inv(View()) && own in flying
      {
        var happened := Happen(others[i], own);
        if happened {
          Snoc(t, steps, others[i]);
          steps := steps + [others[i]];
        }
      }
    }

    /** A step of another thread, or of the loop, if it can happen now. */
    method Happen(step: Step, own: TimerId) returns (happened: bool)
      requires Inv(View()) && own in flying
      modifies this
      ensures Inv(View()) && own in flying
      ensures if happened then Enabled(old(View()), step) && View() == Next(old(View()), step) else View() == old(View())
    {
      hide Inv, Next, Enabled;
      var before := View();
      happened := Enabled(before, step) && step != Return(own);
      if happened {
        KeepsNext(before, step);
        StaysFlying(before, step, own);
        var t := Next(before, step);
        heap, created, validTimers, queue, made := t.heap, t.created, t.valid, t.queue, t.made;
        flying, issued, log, readOk := t.flying, t.issued, t.log, t.readOk;
        assert t.ok by { StaysOk(t); }
        assert View() == t;
      }
    }

    method AddTimerInLoop(addr: nat)
      requires addr in heap
      modifies `heap, `validTimers
      ensures View() == TimerSpec.AddTimerInLoop(old(View()), addr)
    {
      heap := heap[addr := heap[addr].(active := true)];
      validTimers := validTimers + {TimerId(addr, heap[addr].sequence)};
    }

    method Cancel(id: TimerId, inLoopThread: bool)
      requires Inv(View()) && (id in issued || id == NULL_ID)
      modifies this
      ensures View() == Next(old(View()), if inLoopThread then LoopCancel(id) else ForeignCancel(id)) && Inv(View())
    {
      KeepsNext(View(), if inLoopThread then LoopCancel(id) else ForeignCancel(id));
      if inLoopThread {
        CancelInLoop(id);
      } else {
        queue := queue + [Functor.CancelInLoop(id)];
      }
    }

    method CancelInLoop(id: TimerId)
      requires Owned(View())
      modifies `heap, `log
      ensures View() == CancelTimer(old(View()), id)
    {
      if id in validTimers {
        assert id.addr in heap by { assert Names(heap, id); }   // safe to dereference
        heap := heap[id.addr := heap[id.addr].(active := false)];
        log := log + [Cancelled(id.sequence)];
      }
    }

    method RunFunctor()
      requires Inv(View()) && queue != []
      modifies this
      ensures View() == Next(old(View()), Step.RunFunctor) && Inv(View())
    {
      KeepsNext(View(), Step.RunFunctor);
      var f := queue[0];
      PoppedLined(View(), View().(queue := queue[1..]));
      match f {
        case AddInLoop(id) =>
          assert Queued(queue, id) && Names(heap, id);
          queue := queue[1..];
          AddTimerInLoop(id.addr);
        case CancelInLoop(id) =>
          PoppedOwned(View(), View().(queue := queue[1..]));
          queue := queue[1..];
          CancelInLoop(id);
      }
    }

    /** Walks the set once; each inactive timer is deleted and its entry erased on the way. */
    method ClearExpiredTimer()
      requires Inv(View())
      modifies `heap, `validTimers
      ensures View() == Next(old(View()), Clear) && Inv(View())
    {
      hide Inv, Owned, Deleted, Left, TimerSpec.ClearExpiredTimer;
      ghost var s := View();
      KeepsNext(s, Clear);
      SweepEnds(s);
      var rest := validTimers;
      while rest != {}
        invariant rest <= s.valid
        invariant validTimers == Left(s, rest) && heap == s.heap - Deleted(s, rest)
        decreases |rest|
      {
        var it :| it in rest;
        Visit(s, rest, it);
        rest := rest - {it};
        assert s.heap[it.addr] == heap[it.addr];
        if !heap[it.addr].active {
          heap := heap - {it.addr};             // delete
          validTimers := validTimers - {it};    // erase
        }
      }
    }

    /** The watcher at `addr` expires; a timer that does not repeat is stopped first. */
    method Run(addr: nat)
      requires Inv(View()) && Active(heap, addr)
      modifies `heap, `log
      ensures View() == Next(old(View()), Expire(addr)) && Inv(View())
    {
      KeepsNext(View(), Expire(addr));
      log := log + [Fired(heap[addr].sequence)];
      heap := heap[addr := heap[addr].(active := heap[addr].repeat)];
    }
  }
}
