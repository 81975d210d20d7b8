/**
 What each event comes to, told from the event itself: the errno that connect()
 returned by name, the callbacks that ran, whether the socket had failed. Over runs
 this gives which connections are handed over, and that each is destroyed once.
 */
module ConnectorOutcomes {
  import opened Basics
  import opened ConnectorSpec
  import opened ConnectorProofs
  import opened ConnectorContract
  import opened ConnectorTheorems

  // ---------------------------------------------------------------------------
  // One event
  // ---------------------------------------------------------------------------

  /** The entries an event logs, the functors it queues, the state and the live connections it leaves. */
  datatype Account = Account(entries: seq<Entry>, queued: seq<Functor>, state: States, live: set<nat>)

  /** An attempt on the next socket, with `delay` the wait that is due. */
  function Attempted(s: State, delay: nat, errno: Errno): Account {
    var fd := s.nextFd;
    if errno in {EOK, EINPROGRESS, EINTR, EISCONN} then
      Account([Attempt(fd)], [], Connecting, s.live)
    else if errno in {EAGAIN, EADDRINUSE, EADDRNOTAVAIL, ECONNREFUSED, ENETUNREACH} then
      Account([Attempt(fd), Closed(fd), Backoff(delay)], [], Disconnected, s.live)
    else
      Account([Attempt(fd), Closed(fd)], [], Disconnected, s.live)
  }

  /** The attempt under way is given up. */
  function GivenUp(s: State): Account {
    Account([Closed(Fd(s))] + (if s.connect then [Backoff(s.retryDelayMs)] else []), [ResetChannel], Disconnected, s.live)
  }

  /** The attempt under way has succeeded. */
  function Succeeds(s: State): Account {
    if s.connect then Account([Handed(Fd(s))], [ResetChannel], Connected, s.live + {Fd(s)})
    else Account([Closed(Fd(s))], [ResetChannel], Connected, s.live)
  }

  function Nothing(s: State): Account {
    Account([], [], s.state, s.live)
  }

  function Of(s: State, step: Step): Account
    requires Enabled(s, step)
  {
    match step
    case Start(inLoop, errno) => if inLoop then Attempted(s, s.retryDelayMs, errno) else Nothing(s)
    case TimerEvent(_, errno) => if s.connect then Attempted(s, s.retryDelayMs, errno) else Nothing(s)
    case RunFunctor(errno) =>
      if s.batch[0] == StartInLoop && s.connect then Attempted(s, s.retryDelayMs, errno)
      else if s.batch[0] == StopInLoop && s.state == Connecting then GivenUp(s)
      else Nothing(s)
    case ChannelEvent(error, write, failed) => if error || failed then GivenUp(s) else Succeeds(s)
    case CloseEvent(fd, errno) =>
      var gone := s.(live := s.live - {fd});
      if s.clientConnect && s.clientRetry then
        var a := Attempted(gone, 500, errno);
        a.(entries := [Restart] + a.entries, queued := [ConnectDestroyed(fd)] + a.queued)
      else Nothing(gone).(queued := [ConnectDestroyed(fd)])
    case StartQueue => Nothing(s).(queued := [StartInLoop])
    case StopQueue => Nothing(s).(queued := [StopInLoop])
    case StopCancel(inLoop) => if inLoop then Nothing(s) else Nothing(s).(queued := [CancelTimer(s.timerId)])
    case _ => Nothing(s)
  }

  predicate SetsTimer(a: Account) {
    a.entries != [] && a.entries[|a.entries| - 1].Backoff?
  }

  /** A timer set is the only one that can fire, and is the one stop() will cancel; without one, timers only go. */
  ghost predicate Timed(s: State, t: State, a: Account) {
    if SetsTimer(a) then s.nextTimer in Alive(t) && t.timerId == Some(s.nextTimer) && t.nextTimer == s.nextTimer + 1
    else Alive(t) <= Alive(s) && t.timerId == s.timerId && t.nextTimer == s.nextTimer
  }

  /** `t` is `s` with account `a` made good. */
  ghost predicate Done(s: State, t: State, a: Account) {
    && t.log == s.log + a.entries && Queue(t) == Queue(s) + a.queued
    && t.state == a.state && t.live == a.live && Timed(s, t, a)
  }

  // ---------------------------------------------------------------------------
  // The handlers
  // ---------------------------------------------------------------------------

  lemma NotCancelled(s: State)
    requires Numbered(s)
    ensures CancelTimer(Some(s.nextTimer)) !in Imminent(s)
  {
    assert forall f :: f in Imminent(s) ==> f in Queue(s);
  }

  lemma AttemptRefused(s: State)
    requires Control(s) && Fresh(s) && s.connect
    ensures Done(s, ConnectAs(s, Refused), Attempted(s, s.retryDelayMs, ECONNREFUSED))
  {
    var t := ConnectAs(s, Refused);
    NotCancelled(s);
    assert Queue(t) == Queue(s) + [] && Imminent(t) == Imminent(s);
    assert t.log == s.log + [Attempt(s.nextFd), Closed(s.nextFd), Backoff(s.retryDelayMs)];
  }

  lemma AttemptOther(s: State, outcome: Outcome)
    requires Control(s) && Fresh(s) && outcome != Refused
    ensures Done(s, ConnectAs(s, outcome), Attempted(s, s.retryDelayMs, if outcome == Pending then EOK else EBADF))
  {
    var t := ConnectAs(s, outcome);
    assert Queue(t) == Queue(s) + [] && Alive(t) == Alive(s);
    assert s.log + [Attempt(s.nextFd)] + [Closed(s.nextFd)] == s.log + [Attempt(s.nextFd), Closed(s.nextFd)];
  }

  lemma StartDone(s: State, errno: Errno)
    requires Control(s) && Fresh(s)
    ensures Done(s, RunStartInLoop(s, errno), if s.connect then Attempted(s, s.retryDelayMs, errno) else Nothing(s))
  {
    assert s.(ok := s.ok && s.state == Disconnected) == s;
    if s.connect {
      assert Attempted(s, s.retryDelayMs, errno) == Attempted(s, s.retryDelayMs,
        match OutcomeOf(errno) case Pending => EOK case Refused => ECONNREFUSED case Fatal => EBADF);
      hide ConnectAs, Control, Fresh, Done, Attempted;
      if OutcomeOf(errno) == Refused { AttemptRefused(s); } else { AttemptOther(s, OutcomeOf(errno)); }
    } else {
      assert Queue(s) + [] == Queue(s) && s.log + [] == s.log;
    }
  }

  lemma GiveUpDone(s: State)
    requires Control(s) && s.state == Connecting
    ensures Done(s, Retry(RemoveAndResetChannel(s), Fd(s)), GivenUp(s))
  {
    Removed(s);
    hide RemoveAndResetChannel;
    var s1 := RemoveAndResetChannel(s);
    var t := Retry(s1, Fd(s));
    NotCancelled(s);
    assert Queue(t) == Queue(s) + [ResetChannel];
    assert forall id: nat :: CancelTimer(Some(id)) in Imminent(t) ==> CancelTimer(Some(id)) in Imminent(s);
    assert s.log + [Closed(Fd(s))] + [Backoff(s.retryDelayMs)] == s.log + ([Closed(Fd(s))] + [Backoff(s.retryDelayMs)]);
    assert [Closed(Fd(s))] + [] == [Closed(Fd(s))];
  }

  lemma SucceedsDone(s: State)
    requires Control(s) && s.state == Connecting
    ensures Done(s, HandleWrite(s, false), Succeeds(s))
  {
    Removed(s);
    WriteDone(s);
    hide RemoveAndResetChannel;
    var t := HandleWrite(s, false);
    assert Queue(t) == Queue(s) + [ResetChannel];
    SameTimers(RemoveAndResetChannel(s), t);
  }

  lemma EventDone(s: State, error: bool, write: bool, failed: bool)
    requires Control(s) && Enabled(s, ChannelEvent(error, write, failed))
    ensures Done(s, OnChannelEvent(s, error, write, failed), Of(s, ChannelEvent(error, write, failed)))
  {
    KeepsUnready(s);
    var s1 := s.(channelReady := false);
    SameTimers(s, s1);
    assert Queue(s1) == Queue(s);
    GiveUpDone(s1);
    SucceedsDone(s1);
    hide Control, Retry, RemoveAndResetChannel, NewConnection;
    KeepsHandleError(s1);
  }

  lemma CloseDone(s: State, fd: nat, errno: Errno)
    requires Control(s) && Enabled(s, CloseEvent(fd, errno))
    ensures Done(s, RemoveConnection(s, fd, errno), Of(s, CloseEvent(fd, errno)))
  {
    hide Control, RunStartInLoop;
    KeepsForget(s, fd);
    var s1 := Forget(s, fd);
    SameTimersLess(s, s1);
    assert Queue(s1) == Queue(s) + [ConnectDestroyed(fd)];
    if s.clientConnect && s.clientRetry {
      KeepsAfresh(s1);
      var s2 := Afresh(s1);
      StartDone(s2, errno);
      AfreshDone(s, s2, fd, errno, RunStartInLoop(s2, errno));
    }
  }

  lemma SameTimersLess(s: State, t: State)
    requires t.timers == s.timers && t.timersReady == s.timersReady && Imminent(s) <= Imminent(t)
    ensures Alive(t) <= Alive(s)
  {
  }

  /** The restart's account is the attempt's, behind what closing the connection came to. */
  lemma AfreshDone(s: State, s2: State, fd: nat, errno: Errno, t: State)
    requires s2 == Afresh(Forget(s, fd)) && Done(s2, t, Attempted(s2, s2.retryDelayMs, errno))
    requires Alive(s2) <= Alive(s) && Queue(s2) == Queue(s) + [ConnectDestroyed(fd)] && s.clientConnect && s.clientRetry
    requires Enabled(s, CloseEvent(fd, errno))
    ensures Done(s, t, Of(s, CloseEvent(fd, errno)))
  {
    hide Alive, Queue;
    var a, b := Attempted(s2, s2.retryDelayMs, errno), Of(s, CloseEvent(fd, errno));
    assert s2.retryDelayMs == 500 && s2.log == s.log + [Restart] && s2.nextFd == s.nextFd && s2.live == s.live - {fd};
    assert b.entries == [Restart] + a.entries && b.queued == [ConnectDestroyed(fd)] + a.queued;
    Regroup(s.log, [Restart], a.entries);
    Regroup(Queue(s), [ConnectDestroyed(fd)], a.queued);
  }

  // ---------------------------------------------------------------------------
  // Functors and the rest
  // ---------------------------------------------------------------------------

  /** The functors left when a step has taken the one it runs. */
  function Left(s: State, step: Step): seq<Functor>
    requires Enabled(s, step)
  {
    if step.RunFunctor? then Queue(s)[1..] else Queue(s)
  }

  ghost predicate Made(s: State, step: Step, t: State)
    requires Enabled(s, step)
  {
    var a := Of(s, step);
    && t.log == s.log + a.entries && Queue(t) == Left(s, step) + a.queued
    && t.state == a.state && t.live == a.live && Timed(s, t, a)
  }

  lemma FunctorMade(s: State, errno: Errno)
    requires Control(s) && Enabled(s, RunFunctor(errno))
    ensures Made(s, RunFunctor(errno), RunNext(s, errno))
  {
    var s1 := s.(batch := s.batch[1..]);
    QueuePop(s);
    assert Queue(s1) == Queue(s)[1..];
    match s.batch[0]
    case StartInLoop =>
      StartMeets(s);
      SameAlive(s);
      StartDone(s1, errno);
      hide RunStartInLoop;
    case StopInLoop => StopMade(s, errno);
    case CancelTimer(id) => CancelMade(s, errno);
    case ResetChannel => SameAlive(s); IdleMade(s, errno);
    case ConnectDestroyed(_) => SameAlive(s); IdleMade(s, errno);
  }

  lemma StopMade(s: State, errno: Errno)
    requires Control(s) && Enabled(s, RunFunctor(errno)) && s.batch[0] == StopInLoop
    ensures Made(s, RunFunctor(errno), RunNext(s, errno))
  {
    var s1 := s.(batch := s.batch[1..]);
    Popped(s);
    SameAlive(s);
    QueuePop(s);
    assert Queue(s1) == Queue(s)[1..];
    if s1.state == Connecting {
      GiveUpDone(s1);
      assert RunStopInLoop(s1) == Retry(RemoveAndResetChannel(s1), Fd(s1));
    }
  }

  /** A step that logs nothing and sets no timer. */
  lemma Unlogged(s: State, step: Step, t: State)
    requires Enabled(s, step) && t.log == s.log && t.nextTimer == s.nextTimer && t.timerId == s.timerId
    requires var a := Of(s, step); a.entries == [] && t.state == a.state && t.live == a.live && Queue(t) == Left(s, step) + a.queued
    requires Alive(t) <= Alive(s)
    ensures Made(s, step, t)
  {
    hide Of, Alive, Queue, Left;
  }

  lemma CancelLess(s: State, id: Option<nat>)
    requires s.timersReady <= s.timers
    ensures Alive(RunCancelTimer(s, id)) <= Alive(s)
  {
  }

  lemma CancelMade(s: State, errno: Errno)
    requires Control(s) && Enabled(s, RunFunctor(errno)) && s.batch[0].CancelTimer?
    ensures Made(s, RunFunctor(errno), RunNext(s, errno))
  {
    hide RunNext, Control, Made, Alive;
    ReadyTimers(s);
    CancelThenPop(s, errno);
    CancelGone(s);
    Unlogged(s, RunFunctor(errno), RunNext(s, errno));
  }

  lemma CancelGone(s: State)
    requires Control(s) && s.phase == Batch && s.batch != [] && s.batch[0].CancelTimer?
    ensures var u := RunCancelTimer(s, s.batch[0].id);
            Alive(u.(batch := u.batch[1..])) <= Alive(s) && Queue(u.(batch := u.batch[1..])) == Queue(s)[1..]
  {
    ReadyTimers(s);
    CancelLess(s, s.batch[0].id);
    QueuePop(s);
    hide Control, Alive;
    SameAlive(RunCancelTimer(s, s.batch[0].id));
  }

  lemma IdleMade(s: State, errno: Errno)
    requires Enabled(s, RunFunctor(errno)) && (s.batch[0] == ResetChannel || s.batch[0].ConnectDestroyed?)
    requires Alive(s.(batch := s.batch[1..])) == Alive(s)
    ensures Made(s, RunFunctor(errno), RunNext(s, errno))
  {
    hide RunStartInLoop, RunStopInLoop, RunCancelTimer;
    QueuePop(s);
    SameTimers(s.(batch := s.batch[1..]), RunNext(s, errno));
  }

  lemma FlagMade(s: State, step: Step)
    requires Enabled(s, step) && (step == StartQueue || step == Disconnect || step == StopBegin || step == StopFlag || step == StopQueue)
    ensures Made(s, step, Next(s, step))
  {
    hide OnStart, RunNext, RemoveConnection, OnChannelEvent, OnTimer, RunCancelTimer;
    var t := Next(s, step);
    assert Queue(t) == Queue(s) + Of(s, step).queued;
    SameTimersLess(s, t);
  }

  lemma StopCancelMade(s: State, inLoop: bool)
    requires Control(s) && Enabled(s, StopCancel(inLoop))
    ensures Made(s, StopCancel(inLoop), Next(s, StopCancel(inLoop)))
  {
    ReadyTimers(s);
    hide Control;
    if inLoop { CancelsNow(s); } else { CancelsLater(s); }
  }

  lemma CancelsNow(s: State)
    requires s.cancelDue > 0 && s.timersReady <= s.timers
    ensures Made(s, StopCancel(true), Next(s, StopCancel(true)))
  {
    hide OnStart, RunNext, RemoveConnection, OnChannelEvent, OnTimer, Made, Alive;
    var t := Next(s, StopCancel(true));
    var s1 := s.(cancelDue := s.cancelDue - 1);
    SameTimersLess(s, s1);
    CancelLess(s1, s.timerId);
    assert Queue(t) == Queue(s) + [];
    Unlogged(s, StopCancel(true), t);
  }

  lemma CancelsLater(s: State)
    requires s.cancelDue > 0
    ensures Made(s, StopCancel(false), Next(s, StopCancel(false)))
  {
    hide OnStart, RunNext, RemoveConnection, OnChannelEvent, OnTimer, RunCancelTimer, Made, Alive;
    var t := Next(s, StopCancel(false));
    SameTimersLess(s, t);
    assert Queue(t) == Queue(s) + [CancelTimer(s.timerId)];
    Unlogged(s, StopCancel(false), t);
  }

  lemma TurnMade(s: State, step: Step)
    requires Control(s) && Enabled(s, step) && (step.Poll? || step == EndDispatch)
    ensures Made(s, step, Next(s, step))
  {
    hide OnStart, RunNext, RemoveConnection, OnChannelEvent, OnTimer, RunCancelTimer, Made;
    var t := Next(s, step);
    assert Queue(t) == Queue(s) + [];
    assert Alive(t) <= Alive(s);
    hide Control, Next;
    Unlogged(s, step, t);
  }

  lemma NextMade(s: State, step: Step)
    requires Control(s) && Enabled(s, step) && Keeps(s, step)
    ensures Made(s, step, Next(s, step))
  {
    if step.StopCancel? {
      StopCancelMade(s, step.inLoop);
    } else if step.Poll? || step == EndDispatch {
      TurnMade(s, step);
    } else if Quiet(step) {
      FlagMade(s, step);
    } else {
      hide Control, Alive, RunStartInLoop, RunNext, RemoveConnection, OnChannelEvent;
      match step
      case Start(inLoop, errno) => StartMade(s, inLoop, errno);
      case RunFunctor(errno) => FunctorMade(s, errno);
      case ChannelEvent(error, write, failed) => EventDone(s, error, write, failed);
      case TimerEvent(id, errno) => TimerMade(s, id, errno);
      case CloseEvent(fd, errno) => CloseDone(s, fd, errno);
    }
  }

  lemma StartMade(s: State, inLoop: bool, errno: Errno)
    requires Control(s) && Keeps(s, Start(inLoop, errno))
    ensures Made(s, Start(inLoop, errno), OnStart(s, inLoop, errno))
  {
    hide RunStartInLoop;
    var s1 := s.(connect := true, clientConnect := true);
    assert Queue(s1) == Queue(s);
    SameTimers(s, s1);
    if inLoop {
      StartInTime(s);
      StartDone(s1, errno);
    } else {
      SameTimers(s, OnStart(s, false, errno));
    }
  }

  lemma TimerMade(s: State, id: nat, errno: Errno)
    requires Control(s) && Enabled(s, TimerEvent(id, errno))
    ensures Made(s, TimerEvent(id, errno), OnTimer(s, id, errno))
  {
    hide RunStartInLoop, Control;
    TimerGone(s, id);
    var s1 := s.(timers := s.timers - {id}, timersReady := s.timersReady - {id});
    assert Queue(s1) == Queue(s) && Alive(s1) <= Alive(s);
    StartDone(s1, errno);
  }

  // ---------------------------------------------------------------------------
  // The events of a run
  // ---------------------------------------------------------------------------

  /** An attempt that has met `errno`: under way, closed with a timer set, or closed and nothing more. */
  ghost predicate Branched(s: State, errno: Errno, t: State) {
    var fd := s.nextFd;
    var begun := errno in {EOK, EINPROGRESS, EINTR, EISCONN};
    var again := errno in {EAGAIN, EADDRINUSE, EADDRNOTAVAIL, ECONNREFUSED, ENETUNREACH};
    && t.nextFd == fd + 1
    && t.state == (if begun then Connecting else Disconnected)
    && t.channel == (if begun then Some(Channel(fd, true)) else None)
    && t.timers == (if again && s.connect then s.timers + {s.nextTimer} else s.timers)
    && t.log == s.log + (if begun then [Attempt(fd)]
                         else if again && s.connect then [Attempt(fd), Closed(fd), Backoff(s.retryDelayMs)]
                         else [Attempt(fd), Closed(fd)])
  }

  /**
   The switch on errno, from a connector that is disconnected and has no channel: which
   values leave it connecting, which close the socket and set a timer, and that any
   other closes the socket and nothing more.
   */
  lemma ConnectBranches(s: State, errno: Errno)
    requires s.state == Disconnected && s.channel == None
    ensures Branched(s, errno, Connect(s, errno))
  {
    var fd := s.nextFd;
    match OutcomeOf(errno)
    case Pending => hide Retry;
    case Fatal =>
      hide Retry, StartConnecting;
      assert s.log + [Attempt(fd)] + [Closed(fd)] == s.log + [Attempt(fd), Closed(fd)];
    case Refused =>
      hide StartConnecting;
      assert s.log + [Attempt(fd)] + [Closed(fd)] == s.log + [Attempt(fd), Closed(fd)];
      assert s.log + [Attempt(fd), Closed(fd)] + [Backoff(s.retryDelayMs)]
          == s.log + [Attempt(fd), Closed(fd), Backoff(s.retryDelayMs)];
  }

  /** The same for the write callback of an attempt under way: what it looks at is SO_ERROR first, then connect_. */
  lemma WriteOutcome(s: State, failed: bool)
    requires s.state == Connecting && s.channel.Some?
    ensures var t := HandleWrite(s, failed);
            var fd := Fd(s);
            && t.connect == s.connect && t.state == (if failed then Disconnected else Connected)
            && t.live == (if !failed && s.connect then s.live + {fd} else s.live)
            && t.timers == (if failed && s.connect then s.timers + {s.nextTimer} else s.timers)
            && t.log == s.log + (if !failed then [if s.connect then Handed(fd) else Closed(fd)]
                                 else if s.connect then [Closed(fd), Backoff(s.retryDelayMs)] else [Closed(fd)])
  {
    if failed {
      hide NewConnection;
      assert s.log + [Closed(Fd(s))] + [Backoff(s.retryDelayMs)] == s.log + [Closed(Fd(s)), Backoff(s.retryDelayMs)];
    } else {
      WriteDone(s);
      hide Retry;
    }
  }

  /** Any event of any run inside the contract comes to exactly what `Of` tells of it. */
  lemma EventOutcomes(clientRetry: bool, trace: seq<Step>, step: Step)
    requires Legal(Init(clientRetry), trace) && InContract(Init(clientRetry), trace)
    requires var s := Run(Init(clientRetry), trace); Enabled(s, step) && Keeps(s, step)
    ensures var s := Run(Init(clientRetry), trace);
            var t := Next(s, step);
            Made(s, step, t) && (SetsTimer(Of(s, step)) ==> Alive(t) == {s.nextTimer})
  {
    ControlInit(clientRetry);
    KeepsRun(Init(clientRetry), trace);
    var s := Run(Init(clientRetry), trace);
    NextMade(s, step);
    KeepsNext(s, step);
    hide Tokens, Next, Of, Alive, Channels, Client, Order, Stops, Numbered;
    if SetsTimer(Of(s, step)) { OnlyOne(Next(s, step), s.nextTimer); }
  }

  lemma OnlyOne(s: State, id: nat)
    requires Control(s) && id in Alive(s)
    ensures Alive(s) == {id}
  {
    hide Alive;
    assert AtMostOne(Alive(s));
  }

  /** The entries a step adds to the log. */
  function Added(s: State, step: Step): seq<Entry>
    requires Enabled(s, step) && |s.log| <= |Next(s, step).log|
  {
    Next(s, step).log[|s.log|..]
  }

  lemma AddedIs(clientRetry: bool, trace: seq<Step>, step: Step)
    requires Legal(Init(clientRetry), trace) && InContract(Init(clientRetry), trace)
    requires var s := Run(Init(clientRetry), trace); Enabled(s, step) && Keeps(s, step)
    ensures var s := Run(Init(clientRetry), trace);
            |s.log| <= |Next(s, step).log| && Added(s, step) == Of(s, step).entries && Control(s)
  {
    hide Control, Alive, Next, Queue, Of, Keeps, Timed;
    EventOutcomes(clientRetry, trace, step);
    ControlInit(clientRetry);
    KeepsRun(Init(clientRetry), trace);
  }

  /** Which accounts hand a descriptor over, and which restart the connector. */
  lemma Entries(s: State, step: Step, fd: nat)
    requires Control(s) && Enabled(s, step)
    ensures Handed(fd) in Of(s, step).entries <==>
              step.ChannelEvent? && step.write && !step.error && !step.failed && s.connect && s.channel == Some(Channel(fd, true))
    ensures Restart in Of(s, step).entries <==> step.CloseEvent? && s.clientRetry && s.clientConnect
  {
    if step.ChannelEvent? { KeepsUnready(s); }
    hide Tokens, Client, Order, Stops, Numbered, Queue, Alive;
  }

  /**
   A socket is handed over by one kind of event only: the write callback of its channel
   ran, the error callback had not, the socket had not failed and connect_ was set.
   Such an event does hand it over.
   */
  lemma HandoverExact(clientRetry: bool, trace: seq<Step>, step: Step, fd: nat)
    requires Legal(Init(clientRetry), trace) && InContract(Init(clientRetry), trace)
    requires var s := Run(Init(clientRetry), trace); Enabled(s, step) && Keeps(s, step)
    ensures var s := Run(Init(clientRetry), trace);
            && |s.log| <= |Next(s, step).log|
            && (Handed(fd) in Added(s, step) <==>
                  step.ChannelEvent? && step.write && !step.error && !step.failed && s.connect && s.channel == Some(Channel(fd, true)))
  {
    hide Control, Next, Of, Keeps;
    AddedIs(clientRetry, trace, step);
    Entries(Run(Init(clientRetry), trace), step, fd);
  }

  /**
   A socket that failed, or whose error callback ran, is closed and never handed over;
   the connector is disconnected again, with a timer exactly if it still wants to connect.
   */
  lemma FailedAttempt(clientRetry: bool, trace: seq<Step>, write: bool, error: bool, failed: bool)
    requires Legal(Init(clientRetry), trace) && InContract(Init(clientRetry), trace)
    requires Enabled(Run(Init(clientRetry), trace), ChannelEvent(error, write, failed)) && (error || failed)
    ensures var s := Run(Init(clientRetry), trace);
            var t := Next(s, ChannelEvent(error, write, failed));
            && s.state == Connecting && t.state == Disconnected && t.live == s.live == {}
            && t.log == s.log + [Closed(Fd(s))] + (if s.connect then [Backoff(s.retryDelayMs)] else [])
            && Alive(t) == if s.connect then {s.nextTimer} else {}
  {
    var step := ChannelEvent(error, write, failed);
    EventOutcomes(clientRetry, trace, step);
    ControlInit(clientRetry);
    KeepsRun(Init(clientRetry), trace);
    var s := Run(Init(clientRetry), trace);
    KeepsUnready(s);
    Removed(s);
    hide Control, Next, Queue, RemoveAndResetChannel, Alive, Keeps;
    Regroup(s.log, [Closed(Fd(s))], if s.connect then [Backoff(s.retryDelayMs)] else []);
    LastEntry(s, step);
  }

  lemma LastEntry(s: State, step: Step)
    requires Enabled(s, step) && step.ChannelEvent? && (step.error || step.failed)
    ensures SetsTimer(Of(s, step)) <==> s.connect
  {
    assert s.connect ==> Of(s, step).entries == [Closed(Fd(s)), Backoff(s.retryDelayMs)];
    assert !s.connect ==> Of(s, step).entries == [Closed(Fd(s))];
  }

  // ---------------------------------------------------------------------------
  // Flags
  // ---------------------------------------------------------------------------

  /** TcpClient's and Connector's connect_, told from the events. */
  datatype Flags = Flags(client: bool, connector: bool)

  function FlagsAfter(f: Flags, retry: bool, step: Step): Flags {
    match step
    case Start(_, _) => Flags(true, true)
    case Disconnect => f.(client := false)
    case StopBegin => f.(client := false)
    case StopFlag => f.(connector := false)
    case CloseEvent(_, _) => if f.client && retry then f.(connector := true) else f
    case _ => f
  }

  function FlagsBy(f: Flags, retry: bool, steps: seq<Step>): Flags
    decreases |steps|
  {
    if steps == [] then f else FlagsBy(FlagsAfter(f, retry, steps[0]), retry, steps[1..])
  }

  predicate SameFlags(s: State, t: State) {
    t.connect == s.connect && t.clientConnect == s.clientConnect && t.clientRetry == s.clientRetry
  }

  lemma FlagsConnect(s: State, outcome: Outcome)
    ensures SameFlags(s, ConnectAs(s, outcome))
  {
  }

  lemma FlagsStart(s: State, errno: Errno)
    ensures SameFlags(s, RunStartInLoop(s, errno))
  {
    hide OutcomeOf, ConnectAs;
    FlagsConnect(s.(ok := s.ok && s.state == Disconnected), OutcomeOf(errno));
  }

  lemma FlagsSame(s: State, failed: bool)
    ensures SameFlags(s, HandleWrite(s, failed)) && SameFlags(s, HandleError(s))
  {
    FlagsGiveUp(s);
    hide Retry;
  }

  lemma FlagsStop(s: State)
    ensures SameFlags(s, RunStopInLoop(s))
  {
    FlagsGiveUp(s.(state := Disconnected));
    hide Retry;
  }

  lemma FlagsGiveUp(s: State)
    ensures SameFlags(s, Retry(RemoveAndResetChannel(s), Fd(s)))
  {
  }

  lemma FlagsCancel(s: State, id: Option<nat>)
    ensures SameFlags(s, RunCancelTimer(s, id))
  {
  }

  lemma FlagsReset(s: State)
    ensures SameFlags(s, RunResetChannel(s))
  {
  }

  lemma FlagsFunctor(s: State, errno: Errno)
    requires s.batch != []
    ensures SameFlags(s, RunNext(s, errno))
  {
    hide RunStartInLoop, RunStopInLoop, RunCancelTimer, RunResetChannel;
    var s1 := s.(batch := s.batch[1..]);
    assert SameFlags(s, s1);
    match s.batch[0]
    case StartInLoop => FlagsStart(s1, errno);
    case StopInLoop => FlagsStop(s1);
    case CancelTimer(id) => FlagsCancel(s1, id);
    case ResetChannel => FlagsReset(s1);
    case ConnectDestroyed(_) =>
  }

  lemma FlagsEvent(s: State, error: bool, write: bool, failed: bool)
    ensures SameFlags(s, OnChannelEvent(s, error, write, failed))
  {
    hide HandleWrite, HandleError, RunStopInLoop;
    var s1 := s.(channelReady := false);
    FlagsSame(s1, failed);
    FlagsSame(HandleError(s1), failed);
  }

  lemma FlagsClose(s: State, fd: nat, errno: Errno)
    ensures var t := RemoveConnection(s, fd, errno);
            && t.clientConnect == s.clientConnect && t.clientRetry == s.clientRetry
            && t.connect == (s.connect || (s.clientConnect && s.clientRetry))
  {
    hide RunStartInLoop;
    FlagsStart(Afresh(Forget(s, fd)), errno);
  }

  /** The flags after a step are those that `FlagsAfter` tells. */
  predicate FlagsMade(s: State, step: Step, t: State) {
    && Flags(t.clientConnect, t.connect) == FlagsAfter(Flags(s.clientConnect, s.connect), s.clientRetry, step)
    && t.clientRetry == s.clientRetry
  }

  lemma FlagsQuiet(s: State, step: Step)
    requires Enabled(s, step) && Quiet(step)
    ensures FlagsMade(s, step, Next(s, step))
  {
    hide OnStart, RunNext, OnChannelEvent, RemoveConnection, OnTimer, RunCancelTimer;
    if step.StopCancel? { FlagsCancel(s.(cancelDue := s.cancelDue - 1), s.timerId); }
  }

  lemma FlagsBegin(s: State, step: Step)
    requires Enabled(s, step) && (step.Start? || step.TimerEvent?)
    ensures FlagsMade(s, step, Next(s, step))
  {
    hide RunStartInLoop, RunNext, OnChannelEvent, RemoveConnection, RunCancelTimer;
    match step
    case Start(_, errno) => FlagsStart(s.(connect := true, clientConnect := true), errno);
    case TimerEvent(id, errno) => FlagsStart(s.(timers := s.timers - {id}, timersReady := s.timersReady - {id}), errno);
  }

  lemma FlagsNext(s: State, step: Step)
    requires Enabled(s, step)
    ensures FlagsMade(s, step, Next(s, step))
  {
    hide OnStart, OnTimer, RunNext, OnChannelEvent, RemoveConnection, RunCancelTimer;
    match step
    case Start(_, _) => FlagsBegin(s, step); hide Next, FlagsMade;
    case TimerEvent(_, _) => FlagsBegin(s, step); hide Next, FlagsMade;
    case RunFunctor(errno) => FlagsFunctor(s, errno);
    case ChannelEvent(error, write, failed) => FlagsEvent(s, error, write, failed);
    case CloseEvent(fd, errno) => FlagsClose(s, fd, errno);
    case _ => FlagsQuiet(s, step); hide Next, FlagsMade;
  }

  lemma {:induction false} FlagsRun(s: State, steps: seq<Step>)
    requires Legal(s, steps)
    ensures var t := Run(s, steps);
            && Flags(t.clientConnect, t.connect) == FlagsBy(Flags(s.clientConnect, s.connect), s.clientRetry, steps)
            && t.clientRetry == s.clientRetry
    decreases |steps|
  {
    hide Next, Enabled, FlagsAfter;
    if steps != [] {
      FlagsNext(s, steps[0]);
      FlagsRun(Next(s, steps[0]), steps[1..]);
    }
  }

  /**
   A closed connection is restarted exactly when the client retries and the last of its
   connect, disconnect and stop was a connect.
   */
  lemma RestartExact(clientRetry: bool, trace: seq<Step>, step: Step)
    requires Legal(Init(clientRetry), trace) && InContract(Init(clientRetry), trace)
    requires var s := Run(Init(clientRetry), trace); Enabled(s, step) && Keeps(s, step)
    ensures var s := Run(Init(clientRetry), trace);
            && |s.log| <= |Next(s, step).log|
            && (Restart in Added(s, step) <==>
                  step.CloseEvent? && clientRetry && FlagsBy(Flags(true, false), clientRetry, trace).client)
  {
    hide Control, Next, Of, Keeps;
    AddedIs(clientRetry, trace, step);
    FlagsRun(Init(clientRetry), trace);
    Entries(Run(Init(clientRetry), trace), step, 0);
  }

  // ---------------------------------------------------------------------------
  // The timer stop() cancels
  // ---------------------------------------------------------------------------

  /** A timer that can still fire is the one `timerId_` names. */
  ghost predicate TimerKnown(s: State) {
    forall id :: id in Alive(s) ==> s.timerId == Some(id)
  }

  lemma TimerKnownNext(s: State, step: Step)
    requires Control(s) && TimerKnown(s) && Enabled(s, step) && Keeps(s, step)
    ensures TimerKnown(Next(s, step))
  {
    NextMade(s, step);
    KeepsNext(s, step);
    hide Control, Alive, Next, Of, Queue;
    if SetsTimer(Of(s, step)) { OnlyOne(Next(s, step), s.nextTimer); }
  }

  lemma {:induction false} TimerKnownRun(s: State, steps: seq<Step>)
    requires Control(s) && TimerKnown(s) && Legal(s, steps) && InContract(s, steps)
    ensures TimerKnown(Run(s, steps))
    decreases |steps|
  {
    hide Control, TimerKnown, Next, Enabled, Keeps;
    if steps != [] {
      KeepsNext(s, steps[0]);
      TimerKnownNext(s, steps[0]);
      TimerKnownRun(Next(s, steps[0]), steps[1..]);
    }
  }

  lemma CancelsAlive(s: State, inLoop: bool)
    requires TimerKnown(s) && s.cancelDue > 0 && s.timersReady <= s.timers
    ensures var t := Next(s, StopCancel(inLoop));
            if inLoop then Alive(t) == {} && t.pending == s.pending
            else forall id :: id in Alive(t) ==> CancelTimer(Some(id)) in t.pending
  {
    hide OnStart, RunNext, RemoveConnection, OnChannelEvent, OnTimer;
    var t := Next(s, StopCancel(inLoop));
    forall id | id in Alive(t) ensures id in Alive(s) { }
  }

  /**
   stop() cancels the retry timer. On the loop thread no timer can fire any more when it
   returns; on another thread a cancel for the one that can is queued.
   */
  lemma StopCancels(clientRetry: bool, trace: seq<Step>, inLoop: bool)
    requires Legal(Init(clientRetry), trace) && InContract(Init(clientRetry), trace)
    requires Run(Init(clientRetry), trace).cancelDue > 0
    ensures var s := Run(Init(clientRetry), trace);
            var t := Next(s, StopCancel(inLoop));
            if inLoop then Alive(t) == {} && t.pending == s.pending
            else forall id :: id in Alive(t) ==> CancelTimer(Some(id)) in t.pending
  {
    var s := Run(Init(clientRetry), trace);
    ControlInit(clientRetry);
    KeepsRun(Init(clientRetry), trace);
    TimerKnownRun(Init(clientRetry), trace);
    ReadyTimers(s);
    hide Control, Queue, Made, OnStart, RunNext, RemoveConnection, OnChannelEvent, OnTimer;
    CancelsAlive(s, inLoop);
  }

  /** Once a queued cancel has run, its timer cannot fire. */
  lemma CancelRuns(clientRetry: bool, trace: seq<Step>, errno: Errno, id: nat)
    requires Legal(Init(clientRetry), trace) && InContract(Init(clientRetry), trace)
    requires var s := Run(Init(clientRetry), trace); Enabled(s, RunFunctor(errno)) && s.batch[0] == CancelTimer(Some(id))
    ensures Alive(Next(Run(Init(clientRetry), trace), RunFunctor(errno))) !! {id}
  {
    hide RunStartInLoop, RunStopInLoop, RunResetChannel;
  }

  // ---------------------------------------------------------------------------
  // Connections, from hand-over to destruction
  // ---------------------------------------------------------------------------

  /** The run of connectDestroyed for the connection on `fd`, if that is what a step is. */
  function Destroys(s: State, step: Step, fd: nat): nat
    requires Enabled(s, step)
  {
    One(step.RunFunctor? && s.batch[0] == ConnectDestroyed(fd))
  }

  function DestroysBy(s: State, steps: seq<Step>, fd: nat): nat
    requires Legal(s, steps)
    decreases |steps|
  {
    if steps == [] then 0 else Destroys(s, steps[0], fd) + DestroysBy(Next(s, steps[0]), steps[1..], fd)
  }

  /** Connections on `fd` handed over and not yet destroyed: live, or with the destruction queued. */
  function Undestroyed(s: State, fd: nat): nat {
    One(fd in s.live) + multiset(Queue(s))[ConnectDestroyed(fd)]
  }

  lemma LeftCount(s: State, step: Step, fd: nat)
    requires Enabled(s, step)
    ensures multiset(Left(s, step))[ConnectDestroyed(fd)] + Destroys(s, step, fd) == multiset(Queue(s))[ConnectDestroyed(fd)]
  {
    if step.RunFunctor? {
      QueuePop(s);
      assert Queue(s) == [s.batch[0]] + Left(s, step);
    }
  }

  /** An account hands `fd` over, or takes it from the live ones and queues its destruction, or neither. */
  ghost predicate Balanced(a: Account, live: set<nat>, fd: nat) {
    One(fd in a.live) + multiset(a.queued)[ConnectDestroyed(fd)] == One(fd in live) + multiset(a.entries)[Handed(fd)]
  }

  lemma AttemptBalance(s: State, delay: nat, errno: Errno, fd: nat)
    ensures Balanced(Attempted(s, delay, errno), s.live, fd)
  {
  }

  lemma EventBalance(s: State, fd: nat)
    requires s.live == {}
    ensures Balanced(GivenUp(s), s.live, fd) && Balanced(Succeeds(s), s.live, fd)
  {
    assert [Closed(Fd(s))] + [] == [Closed(Fd(s))];
    assert [Closed(Fd(s))] + [Backoff(s.retryDelayMs)] == [Closed(Fd(s)), Backoff(s.retryDelayMs)];
  }

  lemma CloseBalance(s: State, fd: nat, errno: Errno, g: nat)
    requires Enabled(s, CloseEvent(fd, errno)) && fd in s.live
    ensures Balanced(Of(s, CloseEvent(fd, errno)), s.live, g)
  {
    hide Attempted;
    var gone := s.(live := s.live - {fd});
    AttemptBalance(gone, 500, errno, g);
    var a := Attempted(gone, 500, errno);
    assert multiset([Restart] + a.entries) == multiset([Restart]) + multiset(a.entries);
    assert multiset([ConnectDestroyed(fd)] + a.queued) == multiset([ConnectDestroyed(fd)]) + multiset(a.queued);
    AttemptLive(gone, errno);
  }

  lemma AttemptLive(s: State, errno: Errno)
    ensures Attempted(s, 500, errno).live == s.live
  {
  }

  lemma FunctorBalance(s: State, errno: Errno, fd: nat)
    requires Control(s) && Enabled(s, RunFunctor(errno))
    ensures Balanced(Of(s, RunFunctor(errno)), s.live, fd)
  {
    assert s.state == Connecting ==> s.live == {};
    hide Control, Attempted, GivenUp, Balanced;
    AttemptBalance(s, s.retryDelayMs, errno, fd);
    if s.state == Connecting { EventBalance(s, fd); }
    NothingBalance(s, fd);
  }

  lemma NothingBalance(s: State, fd: nat)
    ensures Balanced(Nothing(s), s.live, fd)
  {
  }

  lemma StartBalance(s: State, step: Step, fd: nat)
    requires Enabled(s, step) && (step.Start? || step.TimerEvent?)
    ensures Balanced(Of(s, step), s.live, fd)
  {
    hide Attempted, Nothing, GivenUp, Succeeds, Balanced;
    AttemptBalance(s, s.retryDelayMs, step.errno, fd);
    NothingBalance(s, fd);
  }

  lemma QuietBalance(s: State, step: Step, fd: nat)
    requires Enabled(s, step) && Quiet(step)
    ensures Balanced(Of(s, step), s.live, fd)
  {
    hide Attempted, GivenUp, Succeeds;
  }

  lemma DispatchBalance(s: State, step: Step, fd: nat)
    requires Control(s) && Enabled(s, step) && (step.ChannelEvent? || step.CloseEvent?)
    ensures Balanced(Of(s, step), s.live, fd)
  {
    if step.ChannelEvent? {
      KeepsUnready(s);
      EventBalance(s, fd);
      hide GivenUp, Succeeds, Balanced, Control;
    } else {
      CloseBalance(s, step.fd, step.errno, fd);
      hide Of, Balanced;
    }
  }

  lemma AccountBalance(s: State, step: Step, fd: nat)
    requires Control(s) && Enabled(s, step)
    ensures Balanced(Of(s, step), s.live, fd)
  {
    hide Control, Of, Balanced;
    match step
    case Start(_, _) => StartBalance(s, step, fd);
    case TimerEvent(_, _) => StartBalance(s, step, fd);
    case RunFunctor(errno) => FunctorBalance(s, errno, fd);
    case ChannelEvent(_, _, _) => DispatchBalance(s, step, fd);
    case CloseEvent(_, _) => DispatchBalance(s, step, fd);
    case _ => QuietBalance(s, step, fd);
  }

  lemma BalanceNext(s: State, step: Step, fd: nat)
    requires Control(s) && Enabled(s, step) && Keeps(s, step)
    ensures var t := Next(s, step);
            Times(t.log, Handed(fd)) + Undestroyed(s, fd) == Times(s.log, Handed(fd)) + Undestroyed(t, fd) + Destroys(s, step, fd)
  {
    hide Control, Next, Of, Left, Keeps, Timed, Queue, Destroys;
    NextMade(s, step);
    LeftCount(s, step, fd);
    AccountBalance(s, step, fd);
  }

  lemma {:induction false} BalanceRun(s: State, steps: seq<Step>, fd: nat)
    requires Control(s) && Legal(s, steps) && InContract(s, steps)
    ensures var t := Run(s, steps);
            Times(t.log, Handed(fd)) + Undestroyed(s, fd) == Times(s.log, Handed(fd)) + Undestroyed(t, fd) + DestroysBy(s, steps, fd)
    decreases |steps|
  {
    hide Control, Next, Enabled, Keeps, Undestroyed, Destroys, Times;
    if steps != [] {
      KeepsNext(s, steps[0]);
      BalanceNext(s, steps[0], fd);
      BalanceRun(Next(s, steps[0]), steps[1..], fd);
    }
  }

  /**
   Every connection handed over is live, or has its destruction queued, or has been
   destroyed, once: none is destroyed twice, or while it is live, or forgotten.
   */
  lemma ConnectionsConserved(clientRetry: bool, steps: seq<Step>, fd: nat)
    requires Legal(Init(clientRetry), steps) && InContract(Init(clientRetry), steps)
    ensures var s := Run(Init(clientRetry), steps);
            && One(fd in s.live) + multiset(Queue(s))[ConnectDestroyed(fd)] + DestroysBy(Init(clientRetry), steps, fd)
               == Times(s.log, Handed(fd)) <= 1
  {
    ControlInit(clientRetry);
    BalanceRun(Init(clientRetry), steps, fd);
    DescriptorLedger(clientRetry, steps, fd);
  }
}
