/**
 What the connector's log shows in every run: where each descriptor went, how long
 each retry waited, and that a stop is the end.
 */
module ConnectorTheorems {
  import opened Basics
  import opened ConnectorSpec
  import opened ConnectorProofs
  import opened ConnectorContract

  // ---------------------------------------------------------------------------
  // Asserts
  // ---------------------------------------------------------------------------

  /**
   However often the connector is started and stopped, with each start inside the
   contract no assert fails: startInLoop meets kDisconnected, connecting() finds no
   channel, a queued reset never hits a channel in use, and the connection that
   closes is TcpClient's own, the only live one.
   */
  lemma NoAssertFails(clientRetry: bool, steps: seq<Step>)
    requires Legal(Init(clientRetry), steps) && InContract(Init(clientRetry), steps)
    ensures var s := Run(Init(clientRetry), steps);
            && s.ok
            && |s.live| <= 1
            && (s.state == Connecting <==> HasChannel(s, true))
  {
    ControlInit(clientRetry);
    KeepsRun(Init(clientRetry), steps);
  }

  lemma Unfold(s: State, step: Step, rest: seq<Step>)
    requires Enabled(s, step) && Legal(Next(s, step), rest)
    ensures Legal(s, [step] + rest) && Run(s, [step] + rest) == Run(Next(s, step), rest)
  {
    assert ([step] + rest)[1..] == rest;
  }

  /** A whole stop() on the loop thread. */
  const STOP: seq<Step> := [StopBegin, StopFlag, StopQueue, StopCancel(true)]

  /** What it leaves behind. */
  function AfterStop(s: State): State {
    RunCancelTimer(s.(clientConnect := false, connect := false, pending := s.pending + [StopInLoop]), s.timerId)
  }

  lemma StopRuns(s: State)
    ensures Legal(s, STOP) && Run(s, STOP) == AfterStop(s)
  {
    hide RunNext, RemoveConnection, OnChannelEvent, OnTimer, OnStart, RunCancelTimer;
    var s1 := s.(clientConnect := false, flagDue := s.flagDue + 1);
    var s2 := s1.(connect := false, flagDue := s.flagDue, queueDue := s.queueDue + 1);
    var s3 := s2.(pending := s.pending + [StopInLoop], queueDue := s.queueDue, cancelDue := s.cancelDue + 1);
    Unfold(s3, StopCancel(true), []);
    Unfold(s2, StopQueue, [StopCancel(true)]);
    Unfold(s1, StopFlag, [StopQueue, StopCancel(true)]);
    Unfold(s, StopBegin, [StopFlag, StopQueue, StopCancel(true)]);
  }

  /**
   In any reachable state, a stop and then a start, both on the loop thread, can break
   an assert: the start connects before the queued stopInLoop runs, and that one gives
   the attempt up with connect_ set again.
   */
  lemma StartAfterStop(clientRetry: bool, trace: seq<Step>)
    requires Legal(Init(clientRetry), trace) && InContract(Init(clientRetry), trace)
    ensures CanFail(OnStart(AfterStop(Run(Init(clientRetry), trace)), true, EINPROGRESS))
  {
    ControlInit(clientRetry);
    KeepsRun(Init(clientRetry), trace);
    hide Control, OnStart, CanFail, Next, Enabled;
    var s := Run(Init(clientRetry), trace);
    StopRuns(s);
    NoStartKeeps(s, STOP);
    KeepsRun(s, STOP);
    assert StopInLoop in s.pending + [StopInLoop];
    InLoopFails(AfterStop(s));
  }

  /** The connection is up and closes; without a restart `state_` stays kConnected, and the next start fails. */
  const DOWN_AGAIN: seq<Step> := [RunFunctor(EOK), Poll(false, {}, {0}), CloseEvent(0, EOK), Start(true, EINPROGRESS)]

  lemma StartsDownAgain(s: State)
    requires IsUp(s)
    ensures Legal(s, DOWN_AGAIN) && !Run(s, DOWN_AGAIN).ok
  {
    hide RunStopInLoop, OnChannelEvent, OnTimer, RunCancelTimer, RunStartInLoop, RestartConnector;
    var s1 := RunResetChannel(s.(batch := []));
    var s2 := s1.(phase := Dispatch, channelReady := false, liveReady := {0}, timersReady := {});
    var s3 := Forget(s2, 0);
    assert s.batch[1..] == [];
    InLoopEffect(s3);
    Unfold(s3, Start(true, EINPROGRESS), []);
    Unfold(s2, CloseEvent(0, EOK), [Start(true, EINPROGRESS)]);
    Unfold(s1, Poll(false, {}, {0}), [CloseEvent(0, EOK), Start(true, EINPROGRESS)]);
    Unfold(s, RunFunctor(EOK), [Poll(false, {}, {0}), CloseEvent(0, EOK), Start(true, EINPROGRESS)]);
  }

  const UP: seq<Step> :=
    [Start(true, EINPROGRESS), EndDispatch, Poll(true, {}, {}), ChannelEvent(false, true, false), EndDispatch]

  lemma Succeeded(s: State)
    requires s.state == Connecting && s.channel.Some? && s.connect
    ensures var t := OnChannelEvent(s, false, true, false);
            && t.phase == s.phase && t.state == Connected && t.pending == s.pending + [ResetChannel]
            && t.connection == Some(s.channel.value.fd) && t.live == s.live + {s.channel.value.fd}
            && !t.channelReady && t.liveReady == s.liveReady && t.timersReady == s.timersReady
            && t.clientRetry == s.clientRetry
  {
  }

  predicate IsUp(s: State) {
    && s.phase == Batch && s.batch == [ResetChannel] && s.pending == [] && s.state == Connected
    && s.live == {0} && s.connection == Some(0) && !s.clientRetry
  }

  lemma ComesUp()
    ensures Legal(Init(false), UP) && IsUp(Run(Init(false), UP))
  {
    hide OnStart, RunNext, OnChannelEvent, RemoveConnection, OnTimer, RunCancelTimer;
    var s0 := Init(false);
    InLoopEffect(s0);
    var s1 := OnStart(s0, true, EINPROGRESS);
    var s2 := s1.(phase := Batch);
    var s3 := s2.(phase := Dispatch, channelReady := true, liveReady := {}, timersReady := {});
    Succeeded(s3);
    var s4 := OnChannelEvent(s3, false, true, false);
    Unfold(s4, EndDispatch, []);
    Unfold(s3, ChannelEvent(false, true, false), [EndDispatch]);
    Unfold(s2, Poll(true, {}, {}), [ChannelEvent(false, true, false), EndDispatch]);
    Unfold(s1, EndDispatch, [Poll(true, {}, {}), ChannelEvent(false, true, false), EndDispatch]);
    Unfold(s0, Start(true, EINPROGRESS), [EndDispatch, Poll(true, {}, {}), ChannelEvent(false, true, false), EndDispatch]);
  }

  lemma {:induction false} RunTogether(s: State, a: seq<Step>, b: seq<Step>)
    requires Legal(s, a) && Legal(Run(s, a), b)
    ensures Legal(s, a + b) && Run(s, a + b) == Run(Run(s, a), b)
    decreases |a|
  {
    hide Next, Enabled;
    if a == [] {
      assert a + b == b;
    } else {
      RunTogether(Next(s, a[0]), a[1..], b);
      assert (a + b)[1..] == a[1..] + b;
    }
  }

  /** The ordinary way to a failed assert: connect, the peer closes, no retry, connect again. */
  lemma ConnectAgain()
    ensures Legal(Init(false), UP + DOWN_AGAIN) && !Run(Init(false), UP + DOWN_AGAIN).ok
  {
    hide Next, Enabled, Legal, Run;
    ComesUp();
    StartsDownAgain(Run(Init(false), UP));
    RunTogether(Init(false), UP, DOWN_AGAIN);
  }

  // ---------------------------------------------------------------------------
  // Descriptors
  // ---------------------------------------------------------------------------

  function Times(log: seq<Entry>, e: Entry): nat {
    multiset(log)[e]
  }

  /** Where descriptor `fd` is: closed, handed over, in the active channel, or in the hands of a handler. */
  predicate LedgerAt(s: State, fd: nat, inHand: Option<nat>) {
    && Times(s.log, Attempt(fd)) == One(fd < s.nextFd)
    && Times(s.log, Closed(fd)) + Times(s.log, Handed(fd)) + One(HasChannel(s, true) && s.channel.value.fd == fd)
       + One(inHand == Some(fd)) == One(fd < s.nextFd)
  }

  ghost predicate Ledger(s: State, inHand: Option<nat>) {
    forall fd: nat :: LedgerAt(s, fd, inHand)
  }

  lemma LedgerSame(s: State, t: State, inHand: Option<nat>)
    requires Ledger(s, inHand) && t.log == s.log && t.nextFd == s.nextFd
    requires HasChannel(t, true) == HasChannel(s, true) && (HasChannel(s, true) ==> t.channel == s.channel)
    ensures Ledger(t, inHand)
  {
    forall fd: nat ensures LedgerAt(t, fd, inHand) { assert LedgerAt(s, fd, inHand); }
  }

  lemma LedgerAttempt(s: State)
    requires Ledger(s, None)
    ensures Ledger(s.(log := s.log + [Attempt(s.nextFd)], nextFd := s.nextFd + 1), Some(s.nextFd))
  {
    var t := s.(log := s.log + [Attempt(s.nextFd)], nextFd := s.nextFd + 1);
    forall fd: nat
      ensures LedgerAt(t, fd, Some(s.nextFd))
    {
      assert LedgerAt(s, fd, None);
    }
  }

  /** The descriptor in hand is closed or handed over. */
  lemma LedgerPass(s: State, fd: nat, e: Entry)
    requires Ledger(s, Some(fd)) && (e == Closed(fd) || e == Handed(fd))
    ensures Ledger(Log(s, e), None)
  {
    forall g: nat
      ensures LedgerAt(Log(s, e), g, None)
    {
      assert LedgerAt(s, g, Some(fd));
    }
  }

  /** Other entries are none of the ledger's business. */
  lemma LedgerNote(s: State, e: Entry, inHand: Option<nat>)
    requires Ledger(s, inHand) && (e.Backoff? || e.Restart?)
    ensures Ledger(Log(s, e), inHand)
  {
    forall g: nat
      ensures LedgerAt(Log(s, e), g, inHand)
    {
      assert LedgerAt(s, g, inHand);
    }
  }

  lemma LedgerRetry(s: State, fd: nat)
    requires Ledger(s, Some(fd))
    ensures Ledger(Retry(s, fd), None)
  {
    LedgerPass(s, fd, Closed(fd));
    var s1 := Log(s, Closed(fd)).(state := Disconnected);
    LedgerSame(Log(s, Closed(fd)), s1, None);
    if s.connect {
      LedgerNote(s1, Backoff(s.retryDelayMs), None);
      LedgerSame(Log(s1, Backoff(s.retryDelayMs)), Retry(s, fd), None);
    }
  }

  /** The channel takes the descriptor in hand. */
  lemma LedgerConnecting(s: State, fd: nat)
    requires Ledger(s, Some(fd)) && !HasChannel(s, true)
    ensures Ledger(StartConnecting(s, fd), None)
  {
    forall g: nat
      ensures LedgerAt(StartConnecting(s, fd), g, None)
    {
      assert LedgerAt(s, g, Some(fd));
    }
  }

  /** The channel gives its descriptor up. */
  lemma LedgerRemove(s: State)
    requires Ledger(s, None) && HasChannel(s, true)
    ensures Ledger(RemoveAndResetChannel(s), Some(Fd(s))) && !HasChannel(RemoveAndResetChannel(s), true)
  {
    forall g: nat
      ensures LedgerAt(RemoveAndResetChannel(s), g, Some(Fd(s)))
    {
      assert LedgerAt(s, g, None);
    }
  }

  lemma LedgerConnect(s: State, outcome: Outcome)
    requires Ledger(s, None) && !HasChannel(s, true)
    ensures Ledger(ConnectAs(s, outcome), None)
  {
    hide Retry, Ledger;
    var fd := s.nextFd;
    var s1 := s.(log := s.log + [Attempt(fd)], nextFd := fd + 1);
    LedgerAttempt(s);
    match outcome
    case Pending => LedgerConnecting(s1, fd);
    case Refused => LedgerRetry(s1, fd);
    case Fatal => LedgerPass(s1, fd, Closed(fd));
  }

  lemma LedgerStart(s: State, errno: Errno)
    requires Ledger(s, None) && !HasChannel(s, true)
    ensures Ledger(RunStartInLoop(s, errno), None)
  {
    var s1 := s.(ok := s.ok && s.state == Disconnected);
    LedgerSame(s, s1, None);
    if s.connect { LedgerConnect(s1, OutcomeOf(errno)); }
  }

  lemma LedgerGiveUp(s: State)
    requires Ledger(s, None) && HasChannel(s, true)
    ensures Ledger(Retry(RemoveAndResetChannel(s), Fd(s)), None)
  {
    LedgerRemove(s);
    LedgerRetry(RemoveAndResetChannel(s), Fd(s));
  }

  lemma LedgerHandleWrite(s: State, failed: bool)
    requires Ledger(s, None) && (s.state == Connecting ==> HasChannel(s, true))
    ensures Ledger(HandleWrite(s, failed), None)
  {
    if s.state == Connecting {
      if failed {
        LedgerGiveUp(s);
      } else {
        LedgerRemove(s);
        var s1 := RemoveAndResetChannel(s);
        var s2 := s1.(state := Connected);
        LedgerSame(s1, s2, Some(Fd(s)));
        LedgerPass(s2, Fd(s), if s.connect then Handed(Fd(s)) else Closed(Fd(s)));
        LedgerSame(Log(s2, if s.connect then Handed(Fd(s)) else Closed(Fd(s))), HandleWrite(s, failed), None);
      }
    } else {
      LedgerSame(s, HandleWrite(s, failed), None);
    }
  }

  lemma LedgerEvent(s: State, error: bool, write: bool, failed: bool)
    requires Control(s) && Ledger(s, None) && Enabled(s, ChannelEvent(error, write, failed))
    ensures Ledger(OnChannelEvent(s, error, write, failed), None)
  {
    var s1 := s.(channelReady := false);
    LedgerSame(s, s1, None);
    var s2 := if error then HandleError(s1) else s1;
    if error && s1.state == Connecting { LedgerGiveUp(s1); }
    if write { LedgerHandleWrite(s2, failed); }
  }

  lemma LedgerClose(s: State, fd: nat, errno: Errno)
    requires Control(s) && Ledger(s, None) && Enabled(s, CloseEvent(fd, errno))
    ensures Ledger(RemoveConnection(s, fd, errno), None)
  {
    var s1 := Forget(s, fd);
    LedgerSame(s, s1, None);
    if s.clientConnect && s.clientRetry {
      LedgerNote(s1, Restart, None);
      var s2 := Afresh(s1);
      LedgerSame(Log(s1, Restart), s2, None);
      LedgerStart(s2, errno);
    }
  }

  lemma LedgerStopFunctor(s: State)
    requires Ledger(s, None) && (s.state == Connecting ==> HasChannel(s, true))
    ensures Ledger(RunStopInLoop(s), None)
  {
    if s.state == Connecting {
      LedgerSame(s, s.(state := Disconnected), None);
      LedgerGiveUp(s.(state := Disconnected));
    }
  }

  lemma LedgerFunctor(s: State, errno: Errno)
    requires Control(s) && Ledger(s, None) && Enabled(s, RunFunctor(errno))
    ensures Ledger(RunNext(s, errno), None)
  {
    var f, s1 := s.batch[0], s.(batch := s.batch[1..]);
    assert f in Queue(s);
    LedgerSame(s, s1, None);
    if f == StartInLoop {
      LedgerStart(s1, errno);
    } else if f == StopInLoop {
      LedgerStopFunctor(s1);
    } else {
      LedgerSame(s1, RunNext(s, errno), None);
    }
  }

  /** Steps that reach no descriptor, no channel and no log entry. */
  predicate Quiet(step: Step) {
    || step == StartQueue || step == Disconnect || step == StopBegin || step == StopFlag || step == StopQueue
    || step.StopCancel? || step.Poll? || step == EndDispatch
  }

  /** Nothing the log, the ledger and the backoff look at has changed. */
  predicate SameBooks(s: State, t: State) {
    t.log == s.log && t.nextFd == s.nextFd && t.channel == s.channel && t.retryDelayMs == s.retryDelayMs
  }

  lemma QuietStop(s: State, step: Step)
    requires Enabled(s, step) && (step == StartQueue || step == Disconnect || step == StopBegin || step == StopFlag || step == StopQueue)
    ensures SameBooks(s, Next(s, step))
  {
    hide OnStart, RunNext, RemoveConnection, OnChannelEvent, OnTimer;
  }

  lemma QuietCancel(s: State, inLoop: bool)
    requires Enabled(s, StopCancel(inLoop))
    ensures SameBooks(s, Next(s, StopCancel(inLoop)))
  {
  }

  lemma QuietNext(s: State, step: Step)
    requires Enabled(s, step) && Quiet(step)
    ensures SameBooks(s, Next(s, step))
  {
    if step.StopCancel? {
      hide Next;
      QuietCancel(s, step.inLoop);
    } else if !step.Poll? && step != EndDispatch {
      hide Next;
      QuietStop(s, step);
    }
  }

  lemma LedgerStartCall(s: State, inLoop: bool, errno: Errno)
    requires Ledger(s, None) && (inLoop ==> !HasChannel(s, true))
    ensures Ledger(OnStart(s, inLoop, errno), None)
  {
    hide RunStartInLoop;
    var s1 := s.(connect := true, clientConnect := true);
    LedgerSame(s, s1, None);
    if inLoop { LedgerStart(s1, errno); } else { LedgerSame(s1, OnStart(s, false, errno), None); }
  }

  lemma LedgerTimer(s: State, id: nat, errno: Errno)
    requires Ledger(s, None) && !HasChannel(s, true)
    ensures Ledger(OnTimer(s, id, errno), None)
  {
    var s1 := s.(timers := s.timers - {id}, timersReady := s.timersReady - {id});
    LedgerSame(s, s1, None);
    LedgerStart(s1, errno);
  }

  lemma LedgerNext(s: State, step: Step)
    requires Control(s) && Ledger(s, None) && Enabled(s, step) && Keeps(s, step)
    ensures Ledger(Next(s, step), None)
  {
    if Quiet(step) {
      hide Next;
      QuietNext(s, step);
      LedgerSame(s, Next(s, step), None);
    } else {
      hide OnStart, RunNext, RemoveConnection, OnChannelEvent, OnTimer, Ledger;
      match step
      case Start(inLoop, errno) => LedgerStartCall(s, inLoop, errno);
      case RunFunctor(errno) => LedgerFunctor(s, errno);
      case ChannelEvent(error, write, failed) => LedgerEvent(s, error, write, failed);
      case TimerEvent(id, errno) => LedgerTimer(s, id, errno);
      case CloseEvent(fd, errno) => LedgerClose(s, fd, errno);
    }
  }

  lemma {:induction false} LedgerRun(s: State, steps: seq<Step>)
    requires Control(s) && Ledger(s, None) && Legal(s, steps) && InContract(s, steps)
    ensures Ledger(Run(s, steps), None)
    decreases |steps|
  {
    if steps != [] {
      KeepsNext(s, steps[0]);
      LedgerNext(s, steps[0]);
      LedgerRun(Next(s, steps[0]), steps[1..]);
    }
  }

  /**
   Every socket created is closed exactly once, or handed over exactly once, or is
   the one the active channel holds, which exists exactly in kConnecting.
   */
  lemma DescriptorLedger(clientRetry: bool, steps: seq<Step>, fd: nat)
    requires Legal(Init(clientRetry), steps) && InContract(Init(clientRetry), steps)
    ensures var s := Run(Init(clientRetry), steps);
            && Times(s.log, Attempt(fd)) <= 1
            && Times(s.log, Closed(fd)) + Times(s.log, Handed(fd)) + One(s.state == Connecting && Fd(s) == fd)
               == Times(s.log, Attempt(fd))
  {
    ControlInit(clientRetry);
    assert Ledger(Init(clientRetry), None);
    KeepsRun(Init(clientRetry), steps);
    LedgerRun(Init(clientRetry), steps);
    assert LedgerAt(Run(Init(clientRetry), steps), fd, None);
  }

  // ---------------------------------------------------------------------------
  // Backoff
  // ---------------------------------------------------------------------------

  function Pow2(k: nat): nat {
    if k == 0 then 1 else 2 * Pow2(k - 1)
  }

  /** The wait before the next attempt after `k` waits in a row. */
  function Delay(k: nat): nat {
    Min(INIT_RETRY_DELAY_MS * Pow2(k), MAX_RETRY_DELAY_MS)
  }

  lemma {:induction false} Pow2Positive(k: nat)
    ensures Pow2(k) >= 1
  {
    if k > 0 { Pow2Positive(k - 1); }
  }

  lemma DelayDoubles(k: nat)
    ensures Delay(k + 1) == Min(2 * Delay(k), MAX_RETRY_DELAY_MS)
    ensures INIT_RETRY_DELAY_MS <= Delay(k) <= MAX_RETRY_DELAY_MS
  {
    Pow2Positive(k);
  }

  /** Waits since the last restart. */
  function Retries(log: seq<Entry>): nat {
    if log == [] || log[|log| - 1].Restart? then 0
    else Retries(log[..|log| - 1]) + One(log[|log| - 1].Backoff?)
  }

  /** The delay a log leads up to, or None if some wait in it was not the one due. */
  function Due(log: seq<Entry>): Option<nat> {
    if log == [] then Some(INIT_RETRY_DELAY_MS)
    else
      var e, due := log[|log| - 1], Due(log[..|log| - 1]);
      if due == None then None
      else if e.Restart? then Some(INIT_RETRY_DELAY_MS)
      else if !e.Backoff? then due
      else if e.ms == due.value then Some(Min(e.ms * 2, MAX_RETRY_DELAY_MS)) else None
  }

  predicate Paced(s: State) {
    Due(s.log) == Some(s.retryDelayMs)
  }

  lemma DueSnoc(log: seq<Entry>, e: Entry)
    ensures Due(log).Some? && (e.Attempt? || e.Closed? || e.Handed?) ==> Due(log + [e]) == Due(log)
    ensures Due(log).Some? && e == Backoff(Due(log).value) ==> Due(log + [e]) == Some(Min(e.ms * 2, MAX_RETRY_DELAY_MS))
    ensures Due(log).Some? && e.Restart? ==> Due(log + [e]) == Some(INIT_RETRY_DELAY_MS)
  {
    assert (log + [e])[..|log|] == log;
  }

  lemma PacedRetry(s: State, fd: nat)
    requires Paced(s)
    ensures Paced(Retry(s, fd))
  {
    DueSnoc(s.log, Closed(fd));
    DueSnoc(s.log + [Closed(fd)], Backoff(s.retryDelayMs));
  }

  lemma PacedConnect(s: State, outcome: Outcome)
    requires Paced(s)
    ensures Paced(ConnectAs(s, outcome))
  {
    hide Due, Retry;
    var fd := s.nextFd;
    var s1 := s.(log := s.log + [Attempt(fd)], nextFd := fd + 1);
    DueSnoc(s.log, Attempt(fd));
    match outcome
    case Pending =>
    case Refused => PacedRetry(s1, fd);
    case Fatal => DueSnoc(s1.log, Closed(fd));
  }

  lemma PacedStart(s: State, errno: Errno)
    requires Paced(s)
    ensures Paced(RunStartInLoop(s, errno))
  {
    if s.connect { PacedConnect(s.(ok := s.ok && s.state == Disconnected), OutcomeOf(errno)); }
  }

  lemma PacedClosing(s: State, fd: nat, errno: Errno)
    requires Paced(s)
    ensures Paced(RemoveConnection(s, fd, errno))
  {
    hide Due, RunStartInLoop;
    DueSnoc(s.log, Restart);
    PacedStart(Afresh(Forget(s, fd)), errno);
  }

  lemma PacedGiveUp(s: State)
    requires Paced(s)
    ensures Paced(Retry(RemoveAndResetChannel(s), Fd(s)))
  {
    PacedRetry(RemoveAndResetChannel(s), Fd(s));
  }

  lemma WriteDone(s: State)
    requires s.state == Connecting
    ensures var t := HandleWrite(s, false);
            && t.log == s.log + [if s.connect then Handed(Fd(s)) else Closed(Fd(s))]
            && t.retryDelayMs == s.retryDelayMs
  {
    hide Retry;
  }

  lemma PacedDone(s: State)
    requires Paced(s) && s.state == Connecting
    ensures Paced(HandleWrite(s, false))
  {
    hide HandleWrite;
    WriteDone(s);
    DueSnoc(s.log, if s.connect then Handed(Fd(s)) else Closed(Fd(s)));
  }

  lemma PacedChannelEvent(s: State, error: bool, write: bool, failed: bool)
    requires Paced(s)
    ensures Paced(OnChannelEvent(s, error, write, failed))
  {
    hide Due, Retry, RemoveAndResetChannel;
    var s1 := s.(channelReady := false);
    PacedGiveUp(s1);
    var s2 := if error then HandleError(s1) else s1;
    PacedGiveUp(s2);
    if s2.state == Connecting { PacedDone(s2); }
  }

  lemma PacedFunctor(s: State, errno: Errno)
    requires Paced(s) && s.batch != []
    ensures Paced(RunNext(s, errno))
  {
    hide Due, Retry, RunStartInLoop, RemoveAndResetChannel;
    var s1 := s.(batch := s.batch[1..]);
    match s.batch[0]
    case StartInLoop => PacedStart(s1, errno);
    case StopInLoop => PacedGiveUp(s1.(state := Disconnected));
    case _ =>
  }

  lemma PacedNext(s: State, step: Step)
    requires Paced(s) && Enabled(s, step)
    ensures Paced(Next(s, step))
  {
    if Quiet(step) {
      hide Next;
      QuietNext(s, step);
    } else {
      hide RunStartInLoop, RunNext, RemoveConnection, OnChannelEvent, Due;
      match step
      case Start(inLoop, errno) => PacedStart(s.(connect := true, clientConnect := true), errno);
      case RunFunctor(errno) => PacedFunctor(s, errno);
      case ChannelEvent(error, write, failed) => PacedChannelEvent(s, error, write, failed);
      case TimerEvent(id, errno) => PacedStart(s.(timers := s.timers - {id}, timersReady := s.timersReady - {id}), errno);
      case CloseEvent(fd, errno) => PacedClosing(s, fd, errno);
    }
  }

  lemma {:induction false} PacedRun(s: State, steps: seq<Step>)
    requires Paced(s) && Legal(s, steps)
    ensures Paced(Run(s, steps))
    decreases |steps|
  {
    if steps != [] {
      PacedNext(s, steps[0]);
      PacedRun(Next(s, steps[0]), steps[1..]);
    }
  }

  lemma {:induction false} DueIsDelay(log: seq<Entry>)
    requires Due(log).Some?
    ensures Due(log).value == Delay(Retries(log))
  {
    if log != [] {
      DueIsDelay(log[..|log| - 1]);
      DelayDoubles(Retries(log[..|log| - 1]));
    }
  }

  lemma {:induction false} DueAt(log: seq<Entry>, i: nat)
    requires Due(log).Some? && i < |log| && log[i].Backoff?
    ensures Due(log[..i]) == Some(log[i].ms)
    decreases |log|
  {
    if i < |log| - 1 {
      DueAt(log[..|log| - 1], i);
      assert log[..|log| - 1][..i] == log[..i];
    }
  }

  /** The k-th wait in a row lasts min(500 * 2^k, 30000) milliseconds, whoever calls what. */
  lemma ExponentialBackoff(clientRetry: bool, steps: seq<Step>, i: nat)
    requires Legal(Init(clientRetry), steps)
    requires var log := Run(Init(clientRetry), steps).log; i < |log| && log[i].Backoff?
    ensures var log := Run(Init(clientRetry), steps).log;
            && log[i].ms == Min(500 * Pow2(Retries(log[..i])), 30000)
            && 500 <= log[i].ms <= 30000
  {
    PacedRun(Init(clientRetry), steps);
    var log := Run(Init(clientRetry), steps).log;
    DueAt(log, i);
    DueIsDelay(log[..i]);
    DelayDoubles(Retries(log[..i]));
  }

  // ---------------------------------------------------------------------------
  // Stop
  // ---------------------------------------------------------------------------

  /** connect_ is down, and the client will not raise it again by a restart; so it is after a stop(). */
  predicate Stopped(s: State) {
    !s.connect && !(s.clientConnect && s.clientRetry)
  }

  /** The log went on with nothing but descriptors closed. */
  ghost predicate OnlyClosed(before: seq<Entry>, after: seq<Entry>) {
    before <= after && forall i :: |before| <= i < |after| ==> after[i].Closed?
  }

  predicate Calm(s: State, t: State) {
    Stopped(t) && (s.state != Connecting ==> t.state != Connecting)
  }

  lemma StoppedGiveUp(s: State)
    requires Stopped(s)
    ensures var t := Retry(RemoveAndResetChannel(s), Fd(s)); Calm(s, t) && OnlyClosed(s.log, t.log)
  {
  }

  lemma StoppedWrite(s: State, failed: bool)
    requires Stopped(s)
    ensures Calm(s, HandleWrite(s, failed)) && OnlyClosed(s.log, HandleWrite(s, failed).log)
  {
    if s.state == Connecting {
      if failed {
        StoppedGiveUp(s);
      } else {
        WriteDone(s);
      }
    }
  }

  lemma StoppedEvent(s: State, error: bool, write: bool, failed: bool)
    requires Stopped(s)
    ensures var t := OnChannelEvent(s, error, write, failed); Calm(s, t) && OnlyClosed(s.log, t.log)
  {
    hide HandleWrite, Retry;
    var s1 := s.(channelReady := false);
    StoppedGiveUp(s1);
    var s2 := if error then HandleError(s1) else s1;
    assert Calm(s, s2) && OnlyClosed(s.log, s2.log);
    StoppedWrite(s2, failed);
  }

  lemma StoppedIdle(s: State, errno: Errno)
    requires Stopped(s) && s.batch != [] && s.batch[0] != StopInLoop
    ensures var t := RunNext(s, errno); Calm(s, t) && t.log == s.log
  {
    match s.batch[0]
    case StartInLoop => hide Connect, RunStopInLoop, RunCancelTimer, RunResetChannel;
    case ResetChannel => hide RunStartInLoop, RunStopInLoop, RunCancelTimer;
    case CancelTimer(id) => hide RunStartInLoop, RunStopInLoop, RunResetChannel;
    case ConnectDestroyed(_) => hide RunStartInLoop, RunStopInLoop, RunResetChannel, RunCancelTimer;
  }

  lemma StoppedFunctor(s: State, errno: Errno)
    requires Stopped(s) && s.batch != []
    ensures var t := RunNext(s, errno); Calm(s, t) && OnlyClosed(s.log, t.log)
  {
    if s.batch[0] == StopInLoop {
      hide Retry, OnlyClosed;
      StoppedGiveUp(s.(batch := s.batch[1..], state := Disconnected));
    } else {
      hide RunNext;
      StoppedIdle(s, errno);
    }
  }

  lemma StoppedNext(s: State, step: Step)
    requires Stopped(s) && Enabled(s, step) && !step.Start?
    ensures var t := Next(s, step); Calm(s, t) && OnlyClosed(s.log, t.log)
  {
    hide RunNext, OnChannelEvent, RunCancelTimer, RunStopInLoop;
    match step
    case RunFunctor(errno) => StoppedFunctor(s, errno);
    case ChannelEvent(error, write, failed) => StoppedEvent(s, error, write, failed);
    case StopCancel(_) => hide Next; QuietStopped(s, step);
    case _ =>
  }

  lemma QuietStopped(s: State, step: Step)
    requires Stopped(s) && Enabled(s, step) && step.StopCancel?
    ensures var t := Next(s, step); Calm(s, t) && t.log == s.log
  {
  }

  lemma {:induction false} StoppedRun(s: State, steps: seq<Step>)
    requires Stopped(s) && Legal(s, steps) && NoStart(steps)
    ensures Calm(s, Run(s, steps)) && OnlyClosed(s.log, Run(s, steps).log)
    decreases |steps|
  {
    hide Next, Enabled;
    if steps != [] {
      StoppedNext(s, steps[0]);
      StoppedRun(Next(s, steps[0]), steps[1..]);
    }
  }

  /**
   Once stop() has lowered both flags, and until the next start, no further attempt
   is made, no connection is handed over and no timer is set: descriptors are only
   closed. And once the connector has left kConnecting it stays out of it.
   */
  lemma StopIsFinal(clientRetry: bool, trace: seq<Step>, steps: seq<Step>)
    requires Legal(Init(clientRetry), trace)
    requires var s := Run(Init(clientRetry), trace); Stopped(s) && Legal(s, steps) && NoStart(steps)
    ensures var s := Run(Init(clientRetry), trace);
            var t := Run(s, steps);
            OnlyClosed(s.log, t.log) && (s.state != Connecting ==> t.state != Connecting)
  {
    StoppedRun(Run(Init(clientRetry), trace), steps);
  }

  lemma StopFunctorEnds(s: State, errno: Errno)
    requires Control(s) && Enabled(s, RunFunctor(errno)) && s.batch[0] == StopInLoop && !Starting(s)
    ensures Stopped(s) && Next(s, RunFunctor(errno)).state != Connecting
  {
    assert StopInLoop in Queue(s);
  }

  /** When stopInLoop has run with no start queued behind it or on its way there, no connecting socket is open, now or later, until the next start. */
  lemma StopInLoopClosesAll(clientRetry: bool, trace: seq<Step>, errno: Errno, steps: seq<Step>)
    requires Legal(Init(clientRetry), trace) && InContract(Init(clientRetry), trace)
    requires var s := Run(Init(clientRetry), trace);
             Enabled(s, RunFunctor(errno)) && s.batch[0] == StopInLoop && !Starting(s)
    requires Legal(Next(Run(Init(clientRetry), trace), RunFunctor(errno)), steps) && NoStart(steps)
    ensures var t := Run(Next(Run(Init(clientRetry), trace), RunFunctor(errno)), steps);
            t.state != Connecting && forall fd :: Times(t.log, Attempt(fd)) == Times(t.log, Closed(fd)) + Times(t.log, Handed(fd))
  {
    ControlInit(clientRetry);
    assert Ledger(Init(clientRetry), None);
    KeepsRun(Init(clientRetry), trace);
    LedgerRun(Init(clientRetry), trace);
    var s := Run(Init(clientRetry), trace);
    var s1 := Next(s, RunFunctor(errno));
    StopFunctorEnds(s, errno);
    StoppedNext(s, RunFunctor(errno));
    StoppedRun(s1, steps);
    var t := Run(s1, steps);
    hide Next, Stopped;
    KeepsNext(s, RunFunctor(errno));
    LedgerNext(s, RunFunctor(errno));
    NoStartKeeps(s1, steps);
    KeepsRun(s1, steps);
    LedgerRun(s1, steps);
    forall fd: nat
      ensures Times(t.log, Attempt(fd)) == Times(t.log, Closed(fd)) + Times(t.log, Handed(fd))
    {
      assert LedgerAt(t, fd, None);
    }
  }

  // ---------------------------------------------------------------------------
  // Never stuck
  // ---------------------------------------------------------------------------

  /** The ways a connector can have forward: a start queued or on its way there, a live retry timer, an attempt, a live connection. */
  function Ways(s: State): nat {
    Count(s, StartInLoop) + s.startsDue + |Alive(s)| + One(s.state == Connecting) + |s.live|
  }

  /** No timer that can still fire is about to be cancelled. */
  ghost predicate NoCancel(s: State) {
    forall id :: id in Alive(s) ==> CancelTimer(Some(id)) !in Queue(s)
  }

  predicate NoStop(s: State) {
    s.flagDue == 0 && s.queueDue == 0 && s.cancelDue == 0
  }

  /** The client wants a connection, and no stop is under way. */
  ghost predicate Wanting(s: State) {
    s.clientRetry && s.clientConnect && s.connect && NoStop(s) && NoCancel(s)
  }

  ghost predicate Onward(s: State) {
    Wanting(s) && Ways(s) == 1
  }

  /** connect() has begun, or failed in a way that another attempt may cure. */
  predicate Hopeful(errno: Errno) {
    || errno in {EOK, EINPROGRESS, EINTR, EISCONN}
    || errno in {EAGAIN, EADDRINUSE, EADDRNOTAVAIL, ECONNREFUSED, ENETUNREACH}
  }

  lemma HopefulOutcome(errno: Errno)
    ensures Hopeful(errno) <==> OutcomeOf(errno) != Fatal
  {
  }

  /** No stop, no disconnect, and no connect call that comes back with an error the connector does not retry. */
  predicate Benign(step: Step) {
    match step
    case Start(_, errno) => Hopeful(errno)
    case RunFunctor(errno) => Hopeful(errno)
    case TimerEvent(_, errno) => Hopeful(errno)
    case CloseEvent(_, errno) => Hopeful(errno)
    case Disconnect => false
    case StopBegin => false
    case _ => true
  }

  /** The retry timer just set is alive, and no queued cancel is for it. */
  lemma NewTimer(s: State, t: State)
    requires Numbered(s) && Alive(s) == {} && t.phase == s.phase && Queue(t) == Queue(s) && Imminent(t) == Imminent(s)
    requires t.timers == s.timers + {s.nextTimer} && t.timersReady == s.timersReady
    ensures Alive(t) == {s.nextTimer} && NoCancel(t)
  {
    assert forall f :: f in Imminent(s) ==> f in Queue(s);
  }

  lemma OnwardPending(s: State)
    requires Control(s) && Fresh(s) && Wanting(s)
    ensures Onward(ConnectAs(s, Pending))
  {
    hide Alive;
    var t := ConnectAs(s, Pending);
    CountIn(s, StartInLoop);
    assert Queue(t) == Queue(s) && Count(t, StartInLoop) == Count(s, StartInLoop);
    SameTimers(s, t);
  }

  lemma OnwardRefused(s: State)
    requires Control(s) && Fresh(s) && Wanting(s)
    ensures Onward(ConnectAs(s, Refused))
  {
    hide Alive, NoCancel;
    var t := ConnectAs(s, Refused);
    CountIn(s, StartInLoop);
    assert Queue(t) == Queue(s) && Count(t, StartInLoop) == Count(s, StartInLoop);
    NewTimer(s, t);
  }

  /** An attempt leads to exactly one way forward. */
  lemma OnwardConnect(s: State, outcome: Outcome)
    requires Control(s) && Fresh(s) && Wanting(s) && outcome != Fatal
    ensures Onward(ConnectAs(s, outcome))
  {
    hide Control, Fresh, Wanting, Onward, ConnectAs;
    if outcome == Pending { OnwardPending(s); } else { OnwardRefused(s); }
  }

  lemma SameTimers(s: State, t: State)
    requires t.timers == s.timers && t.timersReady == s.timersReady && Imminent(t) == Imminent(s)
    ensures Alive(t) == Alive(s)
  {
  }

  lemma OnwardStart(s: State, errno: Errno)
    requires Control(s) && Fresh(s) && Wanting(s) && OutcomeOf(errno) != Fatal
    ensures Onward(RunStartInLoop(s, errno))
  {
    hide ConnectAs, OutcomeOf;
    assert s.(ok := s.ok && s.state == Disconnected) == s;
    OnwardConnect(s, OutcomeOf(errno));
  }

  lemma OnwardGiveUp(s: State)
    requires Control(s) && Onward(s) && s.state == Connecting
    ensures Onward(Retry(RemoveAndResetChannel(s), Fd(s)))
  {
    Removed(s);
    hide RemoveAndResetChannel, Alive;
    var s1 := RemoveAndResetChannel(s);
    var t := Retry(s1, Fd(s));
    assert Queue(t) == Queue(s1) && Queue(s1) == Queue(s) + [ResetChannel];
    assert Count(t, StartInLoop) == Count(s1, StartInLoop);
    NewTimer(s1, t);
  }

  lemma OnwardConnected(s: State)
    requires Control(s) && Onward(s) && s.state == Connecting
    ensures Onward(HandleWrite(s, false))
  {
    Removed(s);
    hide RemoveAndResetChannel, Alive;
    var s1 := RemoveAndResetChannel(s);
    var t := HandleWrite(s, false);
    assert Queue(t) == Queue(s1) && Count(t, StartInLoop) == Count(s1, StartInLoop);
    SameTimers(s1, t);
  }

  lemma OnwardWrite(s: State, failed: bool)
    requires Control(s) && Onward(s)
    ensures Onward(HandleWrite(s, failed))
  {
    if s.state == Connecting {
      hide Retry, RemoveAndResetChannel, Onward;
      if failed { OnwardGiveUp(s); } else { OnwardConnected(s); }
    } else {
      var t := HandleWrite(s, failed);
      assert Queue(t) == Queue(s) && Count(t, StartInLoop) == Count(s, StartInLoop);
      SameTimers(s, t);
    }
  }

  lemma OnwardEvent(s: State, error: bool, write: bool, failed: bool)
    requires Control(s) && Onward(s) && Enabled(s, ChannelEvent(error, write, failed))
    ensures Onward(OnChannelEvent(s, error, write, failed))
  {
    hide HandleWrite, Retry, RemoveAndResetChannel, Control, Alive;
    var s1 := s.(channelReady := false);
    KeepsUnready(s);
    SameTimers(s, s1);
    assert Queue(s1) == Queue(s) && Count(s1, StartInLoop) == Count(s, StartInLoop);
    KeepsHandleError(s1);
    OnwardGiveUp(s1);
    hide Onward;
    OnwardWrite(if error then HandleError(s1) else s1, failed);
  }

  lemma OnwardClose(s: State, fd: nat, errno: Errno)
    requires Control(s) && Onward(s) && Enabled(s, CloseEvent(fd, errno)) && OutcomeOf(errno) != Fatal
    ensures Onward(RemoveConnection(s, fd, errno))
  {
    hide RunStartInLoop, OutcomeOf, Control;
    KeepsForget(s, fd);
    var s1 := Forget(s, fd);
    KeepsAfresh(s1);
    var s2 := Afresh(s1);
    assert Queue(s2) == Queue(s) + [ConnectDestroyed(fd)];
    OnwardStart(s2, errno);
  }

  lemma OnwardTimer(s: State, id: nat, errno: Errno)
    requires Control(s) && Onward(s) && Enabled(s, TimerEvent(id, errno)) && OutcomeOf(errno) != Fatal
    ensures Onward(OnTimer(s, id, errno))
  {
    hide RunStartInLoop, OutcomeOf, Control;
    TimerGone(s, id);
    var s1 := s.(timers := s.timers - {id}, timersReady := s.timersReady - {id});
    OnwardStart(s1, errno);
  }

  /** A functor that is no start, and has no timer to cancel, goes without leaving a trace. */
  lemma OnwardPop(s: State)
    requires Control(s) && Onward(s) && s.phase == Batch && s.batch != [] && s.batch[0] != StartInLoop
    requires match s.batch[0] { case CancelTimer(Some(id)) => id !in s.timers case _ => true }
    ensures var t := s.(batch := s.batch[1..]);
            && Alive(t) == Alive(s) && Count(t, StartInLoop) == Count(s, StartInLoop)
            && NoCancel(t) && (s.batch[0] == StopInLoop ==> s.state != Connecting)
  {
    PopHead(s);
    SameAlive(s);
    CountIn(s, StartInLoop);
  }

  lemma OnwardFunctor(s: State, errno: Errno)
    requires Control(s) && Onward(s) && s.batch != [] && s.phase == Batch && OutcomeOf(errno) != Fatal
    ensures Onward(RunNext(s, errno))
  {
    if s.batch[0] == StartInLoop {
      OnwardStartFunctor(s, errno);
    } else {
      OnwardOther(s, errno);
    }
  }

  lemma OnwardStartFunctor(s: State, errno: Errno)
    requires Control(s) && Onward(s) && s.phase == Batch && OutcomeOf(errno) != Fatal
    requires s.batch != [] && s.batch[0] == StartInLoop
    ensures Onward(RunNext(s, errno))
  {
    hide RunStartInLoop, OutcomeOf, Control, Alive;
    var s1 := s.(batch := s.batch[1..]);
    StartMeets(s);
    QueuePop(s);
    assert Queue(s1) == s.batch[1..] + s.pending;
    OnwardStart(s1, errno);
  }

  lemma OnwardOther(s: State, errno: Errno)
    requires Control(s) && Onward(s) && s.phase == Batch && s.batch != [] && s.batch[0] != StartInLoop
    ensures Onward(RunNext(s, errno))
  {
    if s.batch[0].CancelTimer? {
      OnwardCancel(s, errno);
    } else {
      OnwardPop(s);
      hide Control, RunStartInLoop;
      var s1 := s.(batch := s.batch[1..]);
      var t := RunNext(s, errno);
      assert Queue(t) == Queue(s1) && Count(t, StartInLoop) == Count(s1, StartInLoop);
      assert Alive(t) == Alive(s1);
    }
  }

  lemma OnwardCancel(s: State, errno: Errno)
    requires Control(s) && Onward(s) && s.phase == Batch && s.batch != [] && s.batch[0].CancelTimer?
    ensures Onward(RunNext(s, errno))
  {
    var u := RunCancelTimer(s, s.batch[0].id);
    Cancelled(s, s.batch[0].id);
    assert Onward(u) by { SparesAlive(s); }
    hide Control, RunCancelTimer;
    OnwardPop(u);
    assert RunNext(s, errno) == u.(batch := u.batch[1..]) by { CancelThenPop(s, errno); }
  }

  lemma CancelThenPop(s: State, errno: Errno)
    requires s.batch != [] && s.batch[0].CancelTimer?
    ensures var u := RunCancelTimer(s, s.batch[0].id); RunNext(s, errno) == u.(batch := u.batch[1..])
  {
    hide RunStartInLoop, RunStopInLoop, RunResetChannel;
  }

  /** No queued cancel is for a timer that is alive. */
  lemma SparesAlive(s: State)
    requires Onward(s) && s.batch != [] && s.batch[0].CancelTimer?
    ensures Onward(RunCancelTimer(s, s.batch[0].id))
  {
    var u := RunCancelTimer(s, s.batch[0].id);
    assert s.batch[0] in Queue(s);
    assert Alive(u) == Alive(s) && Queue(u) == Queue(s) && Count(u, StartInLoop) == Count(s, StartInLoop);
  }

  lemma OnwardPoll(s: State, ch: bool, tms: set<nat>, live: set<nat>)
    requires Control(s) && Onward(s) && Enabled(s, Poll(ch, tms, live))
    ensures Onward(Next(s, Poll(ch, tms, live)))
  {
    hide OnStart, RunNext, RemoveConnection, OnChannelEvent, OnTimer, RunCancelTimer;
    var t := Next(s, Poll(ch, tms, live));
    assert Queue(t) == Queue(s) == s.pending && Alive(s) == s.timers;
    assert Alive(t) == Alive(s);
  }

  lemma OnwardEnd(s: State)
    requires Control(s) && Onward(s) && Enabled(s, EndDispatch)
    ensures Onward(Next(s, EndDispatch))
  {
    hide OnStart, RunNext, RemoveConnection, OnChannelEvent, OnTimer, RunCancelTimer;
    var t := Next(s, EndDispatch);
    assert Queue(t) == Queue(s);
    assert Alive(t) == Alive(s);
  }

  lemma OnwardQueue(s: State)
    requires Control(s) && Onward(s) && s.startsDue > 0
    ensures Onward(Next(s, StartQueue))
  {
    hide OnStart, RunNext, RemoveConnection, OnChannelEvent, OnTimer, RunCancelTimer;
    QueuedTokens(s);
    var t := Next(s, StartQueue);
    assert Count(t, StartInLoop) == Count(s, StartInLoop) + 1;
    assert Alive(s) == {};
  }

  lemma OnwardNext(s: State, step: Step)
    requires Control(s) && Onward(s) && Enabled(s, step) && Keeps(s, step) && Benign(step)
    ensures Onward(Next(s, step))
  {
    hide Hopeful, OutcomeOf, RunNext, RemoveConnection, OnChannelEvent, OnStart, OnTimer, Alive, RunCancelTimer;
    match step
    case Start(inLoop, errno) => NoStartNow(s, inLoop);
    case RunFunctor(errno) => HopefulOutcome(errno); OnwardFunctor(s, errno);
    case ChannelEvent(error, write, failed) => OnwardEvent(s, error, write, failed);
    case TimerEvent(id, errno) => HopefulOutcome(errno); OnwardTimer(s, id, errno);
    case CloseEvent(fd, errno) => HopefulOutcome(errno); OnwardClose(s, fd, errno);
    case Poll(ch, tms, live) => OnwardPoll(s, ch, tms, live);
    case EndDispatch => OnwardEnd(s);
    case StartQueue => OnwardQueue(s);
    case _ =>
  }

  /** With a way forward there is no room for another start. */
  lemma NoStartNow(s: State, inLoop: bool)
    requires Control(s) && Onward(s)
    ensures !MayStart(s, inLoop)
  {
    CountIn(s, StartInLoop);
  }

  lemma {:induction false} OnwardRun(s: State, steps: seq<Step>)
    requires Control(s) && Onward(s) && Legal(s, steps) && InContract(s, steps)
    requires forall step :: step in steps ==> Benign(step)
    ensures Onward(Run(s, steps))
    decreases |steps|
  {
    hide Onward, Next, Enabled, Keeps, Benign;
    if steps != [] {
      KeepsNext(s, steps[0]);
      OnwardNext(s, steps[0]);
      OnwardRun(Next(s, steps[0]), steps[1..]);
    }
  }

  /** A start that the contract allows, with no stop under way, sets exactly one thing going. */
  lemma OnwardCall(s: State, inLoop: bool, errno: Errno)
    requires Control(s) && MayStart(s, inLoop) && s.clientRetry && NoStop(s) && OutcomeOf(errno) != Fatal
    ensures Onward(OnStart(s, inLoop, errno))
  {
    hide RunStartInLoop, OutcomeOf;
    var s1 := s.(connect := true, clientConnect := true);
    assert Queue(s1) == Queue(s);
    if inLoop {
      StartInTime(s);
      OnwardStart(s1, errno);
    } else {
      CountIn(s, StartInLoop);
      assert Alive(OnStart(s, false, errno)) == Alive(s) && Queue(OnStart(s, false, errno)) == Queue(s);
    }
  }

  /**
   A retrying client never gets stuck and never has two attempts going. From any
   start inside the contract with no stop under way, and until the next stop or disconnect:
   exactly one of a start queued or on its way there, a retry timer that can still fire, a connecting
   socket and a live connection exists, as long as connect() meets no fatal error.
   */
  lemma NeverStuck(clientRetry: bool, trace: seq<Step>, inLoop: bool, errno: Errno, steps: seq<Step>)
    requires Legal(Init(clientRetry), trace) && InContract(Init(clientRetry), trace)
    requires var s := Run(Init(clientRetry), trace); s.clientRetry && MayStart(s, inLoop) && NoStop(s) && Hopeful(errno)
    requires var t := Next(Run(Init(clientRetry), trace), Start(inLoop, errno)); Legal(t, steps) && InContract(t, steps)
    requires forall step :: step in steps ==> Benign(step)
    ensures Ways(Run(Next(Run(Init(clientRetry), trace), Start(inLoop, errno)), steps)) == 1
  {
    ControlInit(clientRetry);
    KeepsRun(Init(clientRetry), trace);
    var s := Run(Init(clientRetry), trace);
    HopefulOutcome(errno);
    OnwardCall(s, inLoop, errno);
    KeepsStartCall(s, inLoop, errno);
    hide OnStart, MayStart;
    OnwardRun(Next(s, Start(inLoop, errno)), steps);
  }
}
