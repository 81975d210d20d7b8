/**
 The contract of start() is exact: a start that `MayStart` allows breaks no assert
 however the run goes on, and any other start does in some continuation without a
 further one.
 */
module ConnectorContract {
  import opened Basics
  import opened ConnectorSpec
  import opened ConnectorProofs

  // ---------------------------------------------------------------------------
  // Failing runs
  // ---------------------------------------------------------------------------

  predicate NoStart(steps: seq<Step>) {
    forall step :: step in steps ==> !step.Start?
  }

  /** Some continuation without a further start makes an assert fail. */
  ghost predicate CanFail(s: State) {
    exists steps :: Legal(s, steps) && NoStart(steps) && !Run(s, steps).ok
  }

  lemma FailsNow(s: State)
    requires !s.ok
    ensures CanFail(s)
  {
    assert Legal(s, []) && Run(s, []) == s;
  }

  lemma FailsAfter(s: State, step: Step)
    requires Enabled(s, step) && !step.Start? && CanFail(Next(s, step))
    ensures CanFail(s)
  {
    hide Next, Enabled;
    var rest :| Legal(Next(s, step), rest) && NoStart(rest) && !Run(Next(s, step), rest).ok;
    var steps := [step] + rest;
    assert steps[1..] == rest;
    assert Legal(s, steps) && Run(s, steps) == Run(Next(s, step), rest);
  }

  /** Nothing is ready any more, so the dispatch ends. */
  lemma FailsInBatch(s: State)
    requires s.phase == Dispatch && !s.channelReady && s.liveReady == {} && s.timersReady == {}
    requires CanFail(s.(phase := Batch, batch := s.pending, pending := []))
    ensures CanFail(s)
  {
    hide CanFail, OnStart, RunNext, RemoveConnection, OnChannelEvent, OnTimer, RunCancelTimer;
    FailsAfter(s, EndDispatch);
  }

  /** A poll that finds nothing ready, and the next batch. */
  lemma FailsNextBatch(s: State)
    requires s.phase == Batch && s.batch == []
    requires CanFail(s.(batch := s.pending, pending := [], channelReady := false, liveReady := {}, timersReady := {}))
    ensures CanFail(s)
  {
    hide CanFail, OnStart, RunNext, RemoveConnection, OnChannelEvent, OnTimer, RunCancelTimer;
    FailsInBatch(Next(s, Poll(false, {}, {})));
    FailsAfter(s, Poll(false, {}, {}));
  }

  lemma FailsAfterFunctor(s: State)
    requires s.phase == Batch && s.batch != [] && CanFail(RunNext(s, EINPROGRESS))
    ensures CanFail(s)
  {
    hide CanFail, OnStart, RunNext, RemoveConnection, OnChannelEvent, OnTimer, RunCancelTimer;
    FailsAfter(s, RunFunctor(EINPROGRESS));
  }

  // ---------------------------------------------------------------------------
  // What the functors do
  // ---------------------------------------------------------------------------

  /** A functor other than startInLoop, run while no attempt is under way. */
  lemma HeadIdle(s: State)
    requires s.batch != [] && s.batch[0] != StartInLoop && s.state != Connecting
    ensures var t := RunNext(s, EINPROGRESS);
            && t == s.(batch := s.batch[1..], channel := t.channel, channelReady := t.channelReady,
                       timers := t.timers, timersReady := t.timersReady, ok := t.ok)
            && (if s.batch[0] == ResetChannel then t.channel == None else t.channel == s.channel)
            && t.timers <= s.timers
            && (forall id :: id in s.timers && s.batch[0] != CancelTimer(Some(id)) ==> id in t.timers)
  {
  }

  /** A functor that touches neither the attempt under way nor its channel. */
  lemma HeadAside(s: State)
    requires s.batch != [] && (s.batch[0].CancelTimer? || s.batch[0].ConnectDestroyed?)
    ensures var t := RunNext(s, EINPROGRESS);
            && t == s.(batch := s.batch[1..], timers := t.timers, timersReady := t.timersReady)
            && t.timers <= s.timers
            && (forall id :: id in s.timers && s.batch[0] != CancelTimer(Some(id)) ==> id in t.timers)
  {
  }

  /** stopInLoop with connect_ set, meeting an attempt: a timer is set, the channel waits for its reset. */
  lemma HeadStops(s: State)
    requires s.batch != [] && s.batch[0] == StopInLoop && s.state == Connecting && s.connect && s.channel.Some?
    ensures var t := RunNext(s, EINPROGRESS);
            && t.state == Disconnected && t.channel.Some? && t.connect && t.phase == s.phase
            && t.batch == s.batch[1..] && t.pending == s.pending + [ResetChannel]
            && t.timers == s.timers + {s.nextTimer}
  {
  }

  /** startInLoop with connect_ set: an assert fails, or a new attempt is under way. */
  lemma HeadStarts(s: State)
    requires s.batch != [] && s.batch[0] == StartInLoop && s.connect
    ensures var t := RunNext(s, EINPROGRESS);
            if s.state == Disconnected && s.channel == None && s.ok then
              && t == s.(batch := s.batch[1..], state := Connecting, channel := Some(Channel(s.nextFd, true)),
                         channelReady := false, log := t.log, nextFd := t.nextFd)
            else !t.ok
  {
  }

  // ---------------------------------------------------------------------------
  // A startInLoop to come that must not run
  // ---------------------------------------------------------------------------

  function PosOf(queue: seq<Functor>, f: Functor): nat {
    if queue == [] || queue[0] == f then 0 else 1 + PosOf(queue[1..], f)
  }

  predicate NoResetBefore(queue: seq<Functor>) {
    queue == [] || queue[0] == StartInLoop || (queue[0] != ResetChannel && NoResetBefore(queue[1..]))
  }

  lemma {:induction false} Appended(queue: seq<Functor>, f: Functor, x: Functor)
    requires f in queue
    ensures PosOf(queue + [x], f) == PosOf(queue, f)
    ensures f == StartInLoop ==> NoResetBefore(queue + [x]) == NoResetBefore(queue)
  {
    assert (queue + [x])[1..] == queue[1..] + [x];
    if queue[0] != f { Appended(queue[1..], f, x); }
  }

  lemma {:induction false} NoResetAtAll(queue: seq<Functor>)
    requires ResetChannel !in queue
    ensures NoResetBefore(queue)
  {
    if queue != [] { NoResetAtAll(queue[1..]); }
  }

  lemma QueuePop(s: State)
    requires s.batch != []
    ensures Queue(s) == [s.batch[0]] + (s.batch[1..] + s.pending) && Queue(s)[1..] == s.batch[1..] + s.pending
  {
  }

  /**
   A start is queued that cannot go well: the connector is connected, or its old
   channel is still there when the start runs.
   */
  ghost predicate StartTrap(s: State) {
    && s.phase == Batch && s.connect && StartInLoop in Queue(s)
    && (s.state == Connected || (s.channel.Some? && NoResetBefore(Queue(s))))
  }

  lemma StartTrapStep(s: State)
    requires StartTrap(s) && s.batch != [] && s.batch[0] != StartInLoop
    ensures var t := RunNext(s, EINPROGRESS);
            StartTrap(t) && PosOf(Queue(t), StartInLoop) < PosOf(Queue(s), StartInLoop)
  {
    var t := RunNext(s, EINPROGRESS);
    var rest := s.batch[1..] + s.pending;
    QueuePop(s);
    if s.state == Connecting && s.batch[0] == StopInLoop {
      HeadStops(s);
      assert Queue(t) == rest + [ResetChannel];
      Appended(rest, StartInLoop, ResetChannel);
    } else if s.state == Connecting {
      HeadAside(s);
      assert Queue(t) == rest;
    } else {
      HeadIdle(s);
      assert Queue(t) == rest;
    }
  }

  lemma {:induction false} HitsStart(s: State)
    requires StartTrap(s)
    ensures CanFail(s)
    decreases PosOf(Queue(s), StartInLoop), s.batch == []
  {
    hide CanFail, RunNext;
    if s.batch == [] {
      var t := s.(batch := s.pending, pending := [], channelReady := false, liveReady := {}, timersReady := {});
      assert Queue(t) == Queue(s);
      HitsStart(t);
      FailsNextBatch(s);
    } else {
      var t := RunNext(s, EINPROGRESS);
      if s.batch[0] == StartInLoop {
        HeadStarts(s);
        FailsNow(t);
      } else {
        StartTrapStep(s);
        HitsStart(t);
      }
      FailsAfterFunctor(s);
    }
  }

  // ---------------------------------------------------------------------------
  // A retry timer that fires too late
  // ---------------------------------------------------------------------------

  /** A timer outlives this batch while an attempt or its channel is there, or a start is still to come. */
  ghost predicate TimerTrap(s: State, id: nat) {
    && s.phase == Batch && s.connect && id in s.timers && CancelTimer(Some(id)) !in s.batch
    && if s.channel.Some? && ResetChannel !in s.batch then s.state != Connected
       else s.state == Disconnected && StartInLoop in Queue(s)
            && ResetChannel !in After(Queue(s)) && ResetChannel !in s.pending
  }

  lemma TimerTrapIdle(s: State, id: nat)
    requires TimerTrap(s, id) && s.batch != [] && s.batch[0] != StartInLoop && s.state == Disconnected
    ensures var t := RunNext(s, EINPROGRESS); TimerTrap(t, id) && t.batch == s.batch[1..]
  {
    var t := RunNext(s, EINPROGRESS);
    HeadIdle(s);
    QueuePop(s);
    assert Queue(t) == s.batch[1..] + s.pending;
    assert s.batch == [s.batch[0]] + t.batch;
  }

  lemma TimerTrapStart(s: State, id: nat)
    requires TimerTrap(s, id) && s.batch != [] && s.batch[0] == StartInLoop
    ensures var t := RunNext(s, EINPROGRESS); !t.ok || (TimerTrap(t, id) && t.batch == s.batch[1..])
  {
    var t := RunNext(s, EINPROGRESS);
    HeadStarts(s);
    QueuePop(s);
    assert s.batch == [s.batch[0]] + s.batch[1..];
  }

  lemma TimerTrapStep(s: State, id: nat)
    requires TimerTrap(s, id) && s.batch != []
    ensures var t := RunNext(s, EINPROGRESS); !t.ok || (TimerTrap(t, id) && t.batch == s.batch[1..])
  {
    hide RunNext;
    if s.batch[0] == StartInLoop {
      TimerTrapStart(s, id);
    } else if s.state == Disconnected {
      TimerTrapIdle(s, id);
    } else {
      assert s.batch == [s.batch[0]] + s.batch[1..];
      if s.batch[0] == StopInLoop { HeadStops(s); } else { HeadAside(s); }
    }
  }

  /** The timer fires as soon as the batch is done. */
  lemma TimerFires(s: State, id: nat)
    requires TimerTrap(s, id) && s.batch == []
    ensures CanFail(s)
  {
    var polled := s.(phase := Dispatch, channelReady := false, liveReady := {}, timersReady := {id});
    var t := OnTimer(polled, id, EINPROGRESS);
    if t.ok {
      assert t.state == Connecting && t.channel.Some? && t.phase == Dispatch && t.pending == s.pending && t.connect;
      assert Queue(s) == s.pending;
      var u := t.(phase := Batch, batch := t.pending, pending := []);
      assert Queue(u) == s.pending;
      NoResetAtAll(s.pending);
      hide CanFail, OnTimer;
      HitsStart(u);
      FailsInBatch(t);
    } else {
      FailsNow(t);
    }
    hide CanFail, OnStart, RunNext, RemoveConnection, OnChannelEvent, OnTimer, RunCancelTimer;
    FailsAfter(polled, TimerEvent(id, EINPROGRESS));
    FailsAfter(s, Poll(false, {id}, {}));
  }

  lemma {:induction false} HitsTimer(s: State, id: nat)
    requires TimerTrap(s, id)
    ensures CanFail(s)
    decreases |s.batch|
  {
    hide CanFail, TimerTrap, RunNext;
    if s.batch == [] {
      TimerFires(s, id);
    } else {
      var t := RunNext(s, EINPROGRESS);
      TimerTrapStep(s, id);
      if t.ok { HitsTimer(t, id); } else { FailsNow(t); }
      InBatch(s, id);
      FailsAfterFunctor(s);
    }
  }

  lemma InBatch(s: State, id: nat)
    requires TimerTrap(s, id)
    ensures s.phase == Batch
  {
  }

  // ---------------------------------------------------------------------------
  // A stopInLoop that meets an attempt with connect_ set
  // ---------------------------------------------------------------------------

  ghost predicate StopTrap(s: State) {
    && s.phase == Batch && s.state == Connecting && s.channel.Some? && s.connect
    && StopInLoop in Queue(s) && StartInLoop !in Queue(s) && ResetChannel !in Queue(s)
    && Numbered(s)
  }

  lemma StopTrapStep(s: State)
    requires StopTrap(s) && s.batch != []
    ensures var t := RunNext(s, EINPROGRESS);
            if s.batch[0] == StopInLoop then TimerTrap(t, s.nextTimer)
            else StopTrap(t) && PosOf(Queue(t), StopInLoop) < PosOf(Queue(s), StopInLoop)
  {
    var t := RunNext(s, EINPROGRESS);
    QueuePop(s);
    if s.batch[0] == StopInLoop {
      HeadStops(s);
      assert CancelTimer(Some(s.nextTimer)) !in Queue(s);
    } else {
      assert s.batch[0] in Queue(s);
      HeadAside(s);
      assert Queue(t) == s.batch[1..] + s.pending;
    }
  }

  lemma {:induction false} HitsStop(s: State)
    requires StopTrap(s)
    ensures CanFail(s)
    decreases PosOf(Queue(s), StopInLoop), s.batch == []
  {
    hide CanFail, RunNext, TimerTrap;
    if s.batch == [] {
      var t := s.(batch := s.pending, pending := [], channelReady := false, liveReady := {}, timersReady := {});
      assert Queue(t) == Queue(s);
      HitsStop(t);
      FailsNextBatch(s);
    } else {
      var t := RunNext(s, EINPROGRESS);
      StopTrapStep(s);
      if s.batch[0] == StopInLoop { HitsTimer(t, s.nextTimer); } else { HitsStop(t); }
      FailsAfterFunctor(s);
    }
  }

  // ---------------------------------------------------------------------------
  // A stop() that lowers connect_ in time, and a client that restarts
  // ---------------------------------------------------------------------------

  /** A stop() is on its way that has yet to lower connect_, and the client restarts closed connections. */
  ghost predicate Restarts(s: State) {
    && s.phase == Batch && s.connect && s.clientConnect && s.clientRetry && s.flagDue > 0
    && StartInLoop !in Queue(s) && StopInLoop !in Queue(s) && Numbered(s)
  }

  lemma OneCancelFree(s: State, t: State)
    requires Numbered(s) && Queue(t) == [StopInLoop] && t.nextTimer == s.nextTimer && t.timerId == s.timerId
    ensures Numbered(t)
  {
  }

  /** With stopInLoop queued and connect_ lowered, the connection closes and is restarted. */
  lemma CloseRestarts(s: State, fd: nat)
    requires s.phase == Dispatch && s.batch == [] && s.pending == [StopInLoop] && s.liveReady == {fd} && s.timersReady == {}
    requires s.channel == None && s.state == Connected && s.connection == Some(fd) && s.clientConnect && s.clientRetry
    requires Numbered(s)
    ensures CanFail(RemoveConnection(s, fd, EINPROGRESS))
  {
    hide CanFail;
    var t := RemoveConnection(s, fd, EINPROGRESS);
    if t.ok {
      assert t.pending == [StopInLoop, ConnectDestroyed(fd)] && t.state == Connecting && t.connect;
      var u := t.(phase := Batch, batch := t.pending, pending := []);
      assert Queue(u) == [StopInLoop, ConnectDestroyed(fd)];
      HitsStop(u);
      FailsInBatch(t);
    } else {
      FailsNow(t);
    }
  }

  /** The connection is up, nothing is queued: stop() queues stopInLoop, then the connection closes and is restarted. */
  lemma StopThenClose(s: State, fd: nat)
    requires Restarts(s) && s.batch == s.pending == [] && s.channel == None && s.state == Connected
    requires s.live == {fd} && s.connection == Some(fd)
    ensures CanFail(s)
  {
    hide CanFail, OnStart, RunNext, RemoveConnection, OnChannelEvent, OnTimer, RunCancelTimer, Numbered;
    var s1 := s.(connect := false, flagDue := s.flagDue - 1, queueDue := s.queueDue + 1);
    var s2 := Next(s1, StopQueue);
    var s3 := s2.(phase := Dispatch, channelReady := false, liveReady := {fd}, timersReady := {});
    assert Queue(s3) == [StopInLoop] && Numbered(s3) by { OneCancelFree(s, s3); }
    CloseRestarts(s3, fd);
    FailsAfter(s3, CloseEvent(fd, EINPROGRESS));
    FailsAfter(s2, Poll(false, {}, {fd}));
    FailsAfter(s1, StopQueue);
    FailsAfter(s, StopFlag);
  }

  /** The connection is up, and the rest of the batch, the reset among it, runs first. */
  lemma {:induction false} UpThenStop(s: State, fd: nat)
    requires Restarts(s) && s.pending == [] && s.state == Connected
    requires s.channel.Some? ==> ResetChannel in s.batch
    requires s.live == {fd} && s.connection == Some(fd)
    ensures CanFail(s)
    decreases |s.batch|
  {
    hide CanFail, RunNext;
    if s.batch == [] {
      StopThenClose(s, fd);
    } else {
      var t := RunNext(s, EINPROGRESS);
      QueuePop(s);
      assert s.batch[0] in Queue(s);
      HeadIdle(s);
      assert Queue(t) == s.batch[1..] + s.pending;
      assert s.batch == [s.batch[0]] + t.batch;
      UpThenStop(t, fd);
      FailsAfterFunctor(s);
    }
  }

  ghost predicate RestartTrap(s: State) {
    && Restarts(s) && s.state == Connecting && HasChannel(s, true) && ResetChannel !in Queue(s) && s.live == {}
  }

  /** The attempt succeeds. */
  lemma Succeeds(s: State)
    requires RestartTrap(s) && s.batch == []
    ensures CanFail(s)
  {
    hide CanFail, OnStart, RunNext, RemoveConnection, OnTimer, RunCancelTimer;
    var fd := s.channel.value.fd;
    var s1 := Next(s, Poll(true, {}, {}));
    var s2 := OnChannelEvent(s1, false, true, false);
    var s3 := s2.(phase := Batch, batch := s2.pending, pending := []);
    assert s2.state == Connected && s2.live == {fd} && s2.pending == s.pending + [ResetChannel];
    assert Queue(s3) == Queue(s) + [ResetChannel];
    UpThenStop(s3, fd);
    hide OnChannelEvent;
    FailsInBatch(s2);
    FailsAfter(s1, ChannelEvent(false, true, false));
    FailsAfter(s, Poll(true, {}, {}));
  }

  lemma {:induction false} HitsRestart(s: State)
    requires RestartTrap(s)
    ensures CanFail(s)
    decreases |s.batch|
  {
    hide CanFail, RunNext;
    if s.batch == [] {
      Succeeds(s);
    } else {
      var t := RunNext(s, EINPROGRESS);
      QueuePop(s);
      assert s.batch[0] in Queue(s);
      HeadAside(s);
      assert Queue(t) == s.batch[1..] + s.pending;
      HitsRestart(t);
      FailsAfterFunctor(s);
    }
  }

  // ---------------------------------------------------------------------------
  // Up to a queued startInLoop
  // ---------------------------------------------------------------------------

  predicate SameElse(s: State, t: State) {
    && t.phase == s.phase && t.connect == s.connect && t.clientConnect == s.clientConnect && t.clientRetry == s.clientRetry
    && t.flagDue == s.flagDue && t.nextTimer == s.nextTimer && t.timerId == s.timerId && t.live == s.live
  }

  /** Everything queued before it runs, then the startInLoop, which finds an old channel or begins an attempt. */
  lemma {:induction false} RunsStart(s: State) returns (t: State)
    requires s.phase == Batch && s.state == Disconnected && s.connect && StartInLoop in Queue(s)
    ensures (CanFail(t) ==> CanFail(s)) && SameElse(s, t)
    ensures !t.ok || (t.state == Connecting && HasChannel(t, true) && Queue(t) == After(Queue(s)))
    decreases PosOf(Queue(s), StartInLoop), s.batch == []
  {
    hide CanFail, RunNext;
    if s.batch == [] {
      var u := s.(batch := s.pending, pending := [], channelReady := false, liveReady := {}, timersReady := {});
      assert Queue(u) == Queue(s);
      t := RunsStart(u);
      if CanFail(t) { FailsNextBatch(s); }
    } else {
      QueuePop(s);
      var u := RunNext(s, EINPROGRESS);
      if s.batch[0] == StartInLoop {
        HeadStarts(s);
        t := if u.ok then u else s.(ok := false);
        if CanFail(u) { FailsAfterFunctor(s); }
        if !u.ok { FailsNow(u); FailsAfterFunctor(s); }
      } else {
        HeadIdle(s);
        assert Queue(u) == s.batch[1..] + s.pending;
        t := RunsStart(u);
        if CanFail(t) { FailsAfterFunctor(s); }
      }
    }
  }

  /** Two starts in a row. */
  lemma TwoStarts(s: State)
    requires s.phase == Batch && s.state == Disconnected && s.connect && StartInLoop in Queue(s)
    requires StartInLoop in After(Queue(s)) && ResetChannel !in After(Queue(s))
    ensures CanFail(s)
  {
    hide CanFail;
    var t := RunsStart(s);
    if t.ok {
      NoResetAtAll(Queue(t));
      HitsStart(t);
    } else {
      FailsNow(t);
    }
  }

  /** A stopInLoop right behind the start. */
  lemma StartThenStop(s: State)
    requires s.phase == Batch && s.state == Disconnected && s.connect && StartInLoop in Queue(s)
    requires After(Queue(s)) == [StopInLoop] && (s.timerId.Some? ==> s.timerId.value < s.nextTimer)
    ensures CanFail(s)
  {
    hide CanFail;
    var t := RunsStart(s);
    if t.ok { HitsStop(t); } else { FailsNow(t); }
  }

  /** A stop() that will lower connect_ only after the start has run. */
  lemma StartThenFlag(s: State)
    requires s.phase == Batch && s.state == Disconnected && s.connect && StartInLoop in Queue(s) && After(Queue(s)) == []
    requires s.clientConnect && s.clientRetry && s.flagDue > 0 && s.live == {}
    requires s.timerId.Some? ==> s.timerId.value < s.nextTimer
    ensures CanFail(s)
  {
    hide CanFail;
    var t := RunsStart(s);
    if t.ok { HitsRestart(t); } else { FailsNow(t); }
  }

  // ---------------------------------------------------------------------------
  // Every start outside the contract
  // ---------------------------------------------------------------------------

  /** What control says of a disconnected connector with no timer alive: nothing is ready. */
  lemma NothingReady(s: State)
    requires Control(s) && s.state == Disconnected && (Alive(s) != {} ==> s.timersReady == {})
    ensures !s.channelReady && s.liveReady == {} && s.live == {} && s.timersReady == {}
    ensures s.phase == Dispatch ==> s.batch == []
    ensures s.channel == None ==> ResetChannel !in Queue(s)
    ensures StartInLoop in Queue(s) ==> ResetChannel !in After(Queue(s))
  {
    assert forall id :: id in s.timersReady ==> id in Alive(s);
    CountIn(s, ResetChannel);
  }

  /** As it is, or as it is once the dispatch has ended. */
  function Batched(s: State): State {
    if s.phase == Batch then s else s.(phase := Batch, batch := s.pending, pending := [])
  }

  lemma FailsBatched(s: State)
    requires s.phase == Dispatch ==> s.batch == [] && !s.channelReady && s.liveReady == {} && s.timersReady == {}
    requires CanFail(Batched(s))
    ensures CanFail(s)
  {
    hide CanFail;
    if s.phase == Dispatch { FailsInBatch(s); }
  }

  lemma BatchedQueue(s: State)
    requires s.phase == Dispatch ==> s.batch == []
    ensures Queue(Batched(s)) == Queue(s) && Batched(s).batch == Imminent(s)
  {
  }

  /** The start connects at once. */
  lemma InLoopEffect(s: State)
    ensures var t := OnStart(s, true, EINPROGRESS);
            if s.state == Disconnected && s.channel == None && s.ok then
              t == s.(connect := true, clientConnect := true, state := Connecting,
                      channel := Some(Channel(s.nextFd, true)), channelReady := false, log := t.log, nextFd := t.nextFd)
            else !t.ok
  {
  }

  lemma InLoopTimer(s: State, id: nat)
    requires Control(s) && s.state == Disconnected && s.channel == None && id in Alive(s)
    ensures CanFail(OnStart(s, true, EINPROGRESS))
  {
    hide CanFail;
    var t := OnStart(s, true, EINPROGRESS);
    InLoopEffect(s);
    if id in s.timersReady {
      var u := OnTimer(t, id, EINPROGRESS);
      assert !u.ok;
      FailsNow(u);
      hide Control, OnTimer, OnStart, RunNext, RemoveConnection, OnChannelEvent, RunCancelTimer;
      FailsAfter(t, TimerEvent(id, EINPROGRESS));
    } else {
      assert forall r :: r in s.timersReady ==> r in Alive(s);
      NothingReady(s);
      BatchedQueue(t);
      HitsTimer(Batched(t), id);
      FailsBatched(t);
    }
  }

  lemma InLoopQueued(s: State)
    requires Control(s) && s.state == Disconnected && s.channel == None && Alive(s) == {}
    requires Starting(s) || StopInLoop in Queue(s) || s.queueDue > 0 || (s.flagDue > 0 && s.clientRetry)
    ensures CanFail(OnStart(s, true, EINPROGRESS))
  {
    hide CanFail;
    var t := OnStart(s, true, EINPROGRESS);
    InLoopEffect(s);
    NothingReady(s);
    hide Control, OnStart;
    BatchedQueue(t);
    assert Queue(t) == Queue(s);
    if StartInLoop in Queue(s) {
      NoResetAtAll(Queue(t));
      HitsStart(Batched(t));
      FailsBatched(t);
    } else if s.startsDue > 0 {
      StartLater(t);
    } else if StopInLoop in Queue(s) {
      HitsStop(Batched(t));
      FailsBatched(t);
    } else if s.queueDue > 0 {
      QueueLater(t);
    } else {
      HitsRestart(Batched(t));
      FailsBatched(t);
    }
  }

  /** A start of an earlier call on another thread joins the queue while this one's attempt is under way. */
  lemma StartLater(s: State)
    requires s.phase == Dispatch ==> s.batch == [] && !s.channelReady && s.liveReady == {} && s.timersReady == {}
    requires s.state == Connecting && s.channel.Some? && s.connect && s.startsDue > 0 && ResetChannel !in Queue(s)
    ensures CanFail(s)
  {
    hide CanFail, OnStart, RunNext, RemoveConnection, OnChannelEvent, OnTimer, RunCancelTimer;
    var t := Next(s, StartQueue);
    assert Queue(t) == Queue(s) + [StartInLoop];
    NoResetAtAll(Queue(t));
    BatchedQueue(t);
    HitsStart(Batched(t));
    FailsBatched(t);
    FailsAfter(s, StartQueue);
  }

  /** The stop() on its way queues its stopInLoop now. */
  lemma QueueLater(s: State)
    requires s.phase == Dispatch ==> s.batch == [] && !s.channelReady && s.liveReady == {} && s.timersReady == {}
    requires s.state == Connecting && s.channel.Some? && s.connect && s.queueDue > 0
    requires StartInLoop !in Queue(s) && ResetChannel !in Queue(s) && Numbered(s)
    ensures CanFail(s)
  {
    hide CanFail, OnStart, RunNext, RemoveConnection, OnChannelEvent, OnTimer, RunCancelTimer;
    var t := Next(s, StopQueue);
    assert Queue(t) == Queue(s) + [StopInLoop];
    BatchedQueue(t);
    HitsStop(Batched(t));
    FailsBatched(t);
    FailsAfter(s, StopQueue);
  }

  lemma InLoopFails(s: State)
    requires Control(s) && !MayStart(s, true)
    ensures CanFail(OnStart(s, true, EINPROGRESS))
  {
    hide Control, Numbered, CanFail, OnStart, Alive, Queue;
    if s.state != Disconnected || s.channel.Some? {
      InLoopEffect(s);
      FailsNow(OnStart(s, true, EINPROGRESS));
    } else if Alive(s) != {} {
      var id :| id in Alive(s);
      InLoopTimer(s, id);
    } else {
      InLoopQueued(s);
    }
  }

  /** What a start on another thread comes to when it queues its startInLoop right away. */
  function Asked(s: State): State {
    s.(connect := true, clientConnect := true, pending := s.pending + [StartInLoop])
  }

  lemma AskedAtOnce(s: State)
    requires CanFail(Asked(s))
    ensures CanFail(OnStart(s, false, EINPROGRESS))
  {
    hide CanFail, RunNext, RemoveConnection, OnChannelEvent, OnTimer, RunCancelTimer;
    FailsAfter(OnStart(s, false, EINPROGRESS), StartQueue);
  }

  lemma ForeignEffect(s: State)
    requires Control(s)
    ensures var t := Asked(s);
            && Queue(t) == Queue(s) + [StartInLoop] && StartInLoop in Queue(t)
            && After(Queue(t)) == if StartInLoop in Queue(s) then After(Queue(s)) + [StartInLoop] else []
  {
    AfterPush(Queue(s), StartInLoop);
    assert Queue(Asked(s)) == Queue(s) + [StartInLoop];
  }

  /** While connecting, the channel is there, in use, and will not be gone by the time the start runs. */
  lemma ForeignConnecting(s: State)
    requires Control(s) && s.state == Connecting
    ensures CanFail(Asked(s))
  {
    hide CanFail;
    var t := Asked(s);
    ForeignEffect(s);
    CountIn(s, ResetChannel);
    assert forall id :: id in s.timersReady ==> id in Alive(s);
    NoResetAtAll(Queue(t));
    if t.channelReady {
      ErrorThenStart(t);
    } else {
      BatchedQueue(t);
      HitsStart(Batched(t));
      FailsBatched(t);
    }
  }

  /** The attempt fails before the start runs, and leaves its channel for the start to find. */
  lemma ErrorThenStart(s: State)
    requires s.phase == Dispatch && s.batch == [] && s.channelReady && s.liveReady == {} && s.timersReady == {}
    requires s.state == Connecting && s.channel.Some? && s.connect
    requires StartInLoop in Queue(s) && NoResetBefore(Queue(s))
    ensures CanFail(s)
  {
    var t := OnChannelEvent(s, true, false, false);
    assert t.channel.Some? && t.pending == s.pending + [ResetChannel] && t.connect;
    assert Queue(Batched(t)) == Queue(s) + [ResetChannel];
    Appended(Queue(s), StartInLoop, ResetChannel);
    hide CanFail, OnStart, RunNext, RemoveConnection, OnChannelEvent, OnTimer, RunCancelTimer;
    HitsStart(Batched(t));
    FailsBatched(t);
    FailsAfter(s, ChannelEvent(true, false, false));
  }

  lemma ForeignConnected(s: State)
    requires Control(s) && s.state == Connected
    ensures CanFail(Asked(s))
  {
    hide CanFail;
    var t := Asked(s);
    ForeignEffect(s);
    assert forall id :: id in s.timersReady ==> id in Alive(s);
    if s.liveReady != {} {
      CountIn(s, ResetChannel);
      CloseThenStart(t, s.connection.value);
    } else {
      BatchedQueue(t);
      HitsStart(Batched(t));
      FailsBatched(t);
    }
  }

  /** The connection closes before the start runs; restarted or not, the connector is not disconnected then. */
  lemma CloseThenStart(s: State, fd: nat)
    requires s.phase == Dispatch && s.batch == [] && !s.channelReady && s.liveReady == {fd} && s.timersReady == {}
    requires s.state == Connected && s.channel == None && s.connect && s.connection == Some(fd)
    requires StartInLoop in Queue(s) && ResetChannel !in Queue(s)
    ensures CanFail(s)
  {
    var t := RemoveConnection(s, fd, EINPROGRESS);
    if t.ok {
      assert t.pending == s.pending + [ConnectDestroyed(fd)] && t.connect;
      assert t.state == Connected || (t.state == Connecting && t.channel.Some?);
      assert Queue(Batched(t)) == Queue(s) + [ConnectDestroyed(fd)];
      NoResetAtAll(Queue(Batched(t)));
      hide CanFail, RemoveConnection;
      HitsStart(Batched(t));
      FailsBatched(t);
    } else {
      FailsNow(t);
    }
    hide CanFail, OnStart, RunNext, RemoveConnection, OnChannelEvent, OnTimer, RunCancelTimer;
    FailsAfter(s, CloseEvent(fd, EINPROGRESS));
  }

  lemma ForeignTimer(s: State, id: nat)
    requires Control(s) && s.state == Disconnected && id in Alive(s)
    ensures CanFail(Asked(s))
  {
    hide CanFail;
    var t := Asked(s);
    ForeignEffect(s);
    if id in s.timersReady {
      ReadyThenStart(s, id);
    } else {
      assert forall r :: r in s.timersReady ==> r in Alive(s);
      NothingReady(s);
      BatchedQueue(t);
      HitsTimer(Batched(t), id);
      FailsBatched(t);
    }
  }

  /** The timer was ready already: it begins an attempt, and the start meets that. */
  lemma ReadyThenStart(s: State, id: nat)
    requires Control(s) && s.state == Disconnected && id in s.timersReady
    ensures CanFail(Asked(s))
  {
    var t := Asked(s);
    ForeignEffect(s);
    assert id in Alive(s) && forall r :: r in s.timersReady ==> r in Alive(s);
    CountIn(s, ResetChannel);
    NoResetAtAll(Queue(t));
    hide Control, Alive;
    TimerThenStart(t, id);
  }

  lemma TimerThenStart(s: State, id: nat)
    requires s.phase == Dispatch && s.batch == [] && s.liveReady == {} && s.timersReady == {id} && id in s.timers
    requires s.state == Disconnected && s.channel == None && s.connect && !s.channelReady
    requires StartInLoop in Queue(s) && NoResetBefore(Queue(s))
    ensures CanFail(s)
  {
    var u := OnTimer(s, id, EINPROGRESS);
    assert u.state == Connecting && u.channel.Some? && u.pending == s.pending && u.connect;
    assert Queue(Batched(u)) == Queue(s);
    hide CanFail, OnStart, RunNext, RemoveConnection, OnChannelEvent, OnTimer, RunCancelTimer;
    HitsStart(Batched(u));
    FailsBatched(u);
    FailsAfter(s, TimerEvent(id, EINPROGRESS));
  }

  lemma ForeignQueued(s: State)
    requires Control(s) && s.state == Disconnected && Alive(s) == {}
    requires Starting(s) || s.queueDue > 0 || (s.flagDue > 0 && s.clientRetry)
    ensures CanFail(Asked(s))
  {
    hide CanFail;
    var t := Asked(s);
    ForeignEffect(s);
    NothingReady(s);
    hide Control, Alive;
    BatchedQueue(t);
    if StartInLoop in Queue(s) {
      TwoStarts(Batched(t));
      FailsBatched(t);
    } else if s.startsDue > 0 {
      AnotherStart(t);
    } else if s.queueDue > 0 {
      StopBehindStart(t);
    } else {
      StartThenFlag(Batched(t));
      FailsBatched(t);
    }
  }

  /** A start of an earlier call joins the queue behind this one. */
  lemma AnotherStart(s: State)
    requires s.phase == Dispatch ==> s.batch == [] && !s.channelReady && s.liveReady == {} && s.timersReady == {}
    requires s.state == Disconnected && s.connect && s.startsDue > 0 && StartInLoop in Queue(s) && After(Queue(s)) == []
    ensures CanFail(s)
  {
    hide CanFail, OnStart, RunNext, RemoveConnection, OnChannelEvent, OnTimer, RunCancelTimer;
    var t := Next(s, StartQueue);
    assert Queue(t) == Queue(s) + [StartInLoop];
    AfterPush(Queue(s), StartInLoop);
    BatchedQueue(t);
    TwoStarts(Batched(t));
    FailsBatched(t);
    FailsAfter(s, StartQueue);
  }

  lemma StopBehindStart(s: State)
    requires s.phase == Dispatch ==> s.batch == [] && !s.channelReady && s.liveReady == {} && s.timersReady == {}
    requires s.state == Disconnected && s.connect && s.queueDue > 0 && StartInLoop in Queue(s) && After(Queue(s)) == []
    requires s.timerId.Some? ==> s.timerId.value < s.nextTimer
    ensures CanFail(s)
  {
    hide CanFail, OnStart, RunNext, RemoveConnection, OnChannelEvent, OnTimer, RunCancelTimer;
    var t := Next(s, StopQueue);
    assert Queue(t) == Queue(s) + [StopInLoop];
    AfterPush(Queue(s), StopInLoop);
    BatchedQueue(t);
    StartThenStop(Batched(t));
    FailsBatched(t);
    FailsAfter(s, StopQueue);
  }

  lemma ForeignFails(s: State)
    requires Control(s) && !MayStart(s, false)
    ensures CanFail(OnStart(s, false, EINPROGRESS))
  {
    hide Control, Numbered, CanFail, OnStart, Alive, Queue, Asked;
    if s.state == Connecting {
      ForeignConnecting(s);
    } else if s.state == Connected {
      ForeignConnected(s);
    } else if Alive(s) != {} {
      var id :| id in Alive(s);
      ForeignTimer(s, id);
    } else {
      ForeignQueued(s);
    }
    AskedAtOnce(s);
  }

  // ---------------------------------------------------------------------------
  // The theorem
  // ---------------------------------------------------------------------------

  /** Without a further start the contract asks for nothing. */
  lemma {:induction false} NoStartKeeps(s: State, steps: seq<Step>)
    requires Legal(s, steps) && NoStart(steps)
    ensures InContract(s, steps)
    decreases |steps|
  {
    hide Next, Enabled, MayStart;
    if steps != [] { NoStartKeeps(Next(s, steps[0]), steps[1..]); }
  }

  /**
   From any state reached with starts inside the contract: one more start, on the
   loop thread or on another, meets every assert in every continuation without a
   further start, exactly when `MayStart` holds.
   */
  lemma StartExact(clientRetry: bool, trace: seq<Step>, inLoop: bool)
    requires Legal(Init(clientRetry), trace) && InContract(Init(clientRetry), trace)
    ensures var s := Run(Init(clientRetry), trace);
            MayStart(s, inLoop) <==>
              forall errno, steps ::
                Legal(Next(s, Start(inLoop, errno)), steps) && NoStart(steps) ==> Run(Next(s, Start(inLoop, errno)), steps).ok
  {
    ControlInit(clientRetry);
    KeepsRun(Init(clientRetry), trace);
    var s := Run(Init(clientRetry), trace);
    hide Tokens, Channels, Client, Order, Stops, Numbered, MayStart, OnStart;
    if MayStart(s, inLoop) {
      forall errno, steps | Legal(Next(s, Start(inLoop, errno)), steps) && NoStart(steps)
        ensures Run(Next(s, Start(inLoop, errno)), steps).ok
      {
        KeepsStartCall(s, inLoop, errno);
        var t := OnStart(s, inLoop, errno);
        NoStartKeeps(t, steps);
        KeepsRun(t, steps);
      }
    } else {
      if inLoop { InLoopFails(s); } else { ForeignFails(s); }
      var t := Next(s, Start(inLoop, EINPROGRESS));
      var steps :| Legal(t, steps) && NoStart(steps) && !Run(t, steps).ok;
    }
  }

}
