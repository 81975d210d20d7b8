/**
 What every run of Connector and TcpClient keeps, however often it is started and
 stopped, as long as each start() comes when `MayStart` allows it.
 */
module ConnectorProofs {
  import opened Basics
  import opened ConnectorSpec

  // ---------------------------------------------------------------------------
  // The control invariant
  // ---------------------------------------------------------------------------

  /** How often a functor stands in the loop's queue, the swapped part included. */
  function Count(s: State, f: Functor): nat {
    multiset(s.batch)[f] + multiset(s.pending)[f]
  }

  /** What is queued behind the first startInLoop; everything, if none is queued. */
  function After(queue: seq<Functor>): seq<Functor> {
    if StartInLoop !in queue then queue
    else if queue[0] == StartInLoop then queue[1..]
    else After(queue[1..])
  }

  /** What runs behind the first startInLoop, queued or on its way to the queue. */
  function Behind(s: State): seq<Functor> {
    if s.startsDue > 0 then [] else After(Queue(s))
  }

  predicate HasChannel(s: State, watched: bool) {
    s.channel.Some? && s.channel.value.watched == watched
  }

  ghost predicate AtMostOne(ids: set<nat>) {
    forall i, j :: i in ids && j in ids ==> i == j
  }

  /** At most one thing can start an attempt, and only while disconnected; no reset is queued behind a start. */
  ghost predicate Tokens(s: State) {
    && Count(s, StartInLoop) + s.startsDue <= 1
    && AtMostOne(Alive(s))
    && (Starting(s) ==> Alive(s) == {} && ResetChannel !in Behind(s))
    && (Starting(s) || Alive(s) != {} ==> s.state == Disconnected)
    && s.timersReady <= s.timers
  }

  /** The channel is in use exactly while connecting; otherwise, if it is still there, one reset is queued. */
  predicate Channels(s: State) {
    && (s.state == Connecting <==> HasChannel(s, true))
    && Count(s, ResetChannel) == (if HasChannel(s, false) then 1 else 0)
    && (s.channelReady ==> s.phase == Dispatch && HasChannel(s, true))
  }

  /** At most one live connection, and TcpClient knows it. */
  predicate Client(s: State) {
    && s.live == (if s.connection.Some? then {s.connection.value} else {})
    && (s.live != {} ==> s.state == Connected)
    && s.liveReady <= s.live
  }

  /** Nothing that could start an attempt is ready before the queued reset has run. */
  predicate Order(s: State) {
    && (s.phase == Dispatch ==> s.batch == [])
    && (s.phase == Batch ==> s.liveReady == {} && s.timersReady == {})
    && (s.timersReady != {} ==> s.channel == None)
    && (s.liveReady != {} ==> s.channel == None)
    && (s.phase == Batch && ResetChannel in s.pending ==> s.state == Disconnected && Alive(s) == {})
  }

  /** A stopInLoop that can still meet an attempt finds connect_ lowered for good. */
  predicate Stops(s: State) {
    && (s.flagDue > 0 || s.queueDue > 0 || StopInLoop in Behind(s) ==> !(s.clientConnect && s.clientRetry))
    && (s.queueDue > 0 || StopInLoop in Behind(s) ==> !s.connect)
  }

  /** Timers are numbered in order, so a queued cancel is for one that was set already. */
  ghost predicate Numbered(s: State) {
    && (forall id: nat :: CancelTimer(Some(id)) in Queue(s) ==> id < s.nextTimer)
    && (s.timerId.Some? ==> s.timerId.value < s.nextTimer)
  }

  ghost predicate Control(s: State) {
    s.ok && Tokens(s) && Channels(s) && Client(s) && Order(s) && Stops(s) && Numbered(s)
  }

  lemma ControlInit(clientRetry: bool)
    ensures Control(Init(clientRetry))
  {
  }

  // ---------------------------------------------------------------------------
  // Queues
  // ---------------------------------------------------------------------------

  lemma CountIn(s: State, f: Functor)
    ensures Count(s, f) > 0 <==> f in Queue(s)
  {
  }

  lemma {:induction false} AfterPush(queue: seq<Functor>, f: Functor)
    ensures After(queue + [f]) ==
            if StartInLoop in queue then After(queue) + [f] else if f == StartInLoop then [] else queue + [f]
  {
    if queue == [] {
      assert queue + [f] == [f] && [f][1..] == [];
    } else {
      AfterPush(queue[1..], f);
      assert (queue + [f])[1..] == queue[1..] + [f];
      assert StartInLoop in queue <==> queue[0] == StartInLoop || StartInLoop in queue[1..];
    }
  }

  /** A functor other than startInLoop joins the queue. */
  lemma PushOther(s: State, f: Functor, t: State)
    requires f != StartInLoop && t.batch == s.batch && t.pending == s.pending + [f]
    ensures After(Queue(t)) == After(Queue(s)) + [f]
    ensures forall g :: g in Queue(t) <==> g in Queue(s) || g == f
    ensures forall g :: Count(t, g) == Count(s, g) + (if f == g then 1 else 0)
  {
    assert Queue(t) == Queue(s) + [f];
    AfterPush(Queue(s), f);
  }

  lemma CountPop(s: State, g: Functor)
    requires s.batch != []
    ensures Count(s, g) == Count(s.(batch := s.batch[1..]), g) + (if s.batch[0] == g then 1 else 0)
  {
    assert s.batch == [s.batch[0]] + s.batch[1..];
  }

  /** The head of the queue goes. */
  lemma PopHead(s: State)
    requires s.batch != [] && Count(s, StartInLoop) <= 1
    ensures var t := s.(batch := s.batch[1..]);
            && (forall g :: Count(s, g) == Count(t, g) + (if s.batch[0] == g then 1 else 0))
            && (forall g :: g in Queue(s) <==> g in Queue(t) || g == s.batch[0])
            && (s.batch[0] == StartInLoop ==> StartInLoop !in Queue(t))
            && (forall g :: g in After(Queue(t)) ==> g in After(Queue(s)))
            && (StartInLoop !in Queue(t) && s.batch[0] != StartInLoop ==> s.batch[0] in After(Queue(s)))
            && (s.batch[0] == StartInLoop ==> After(Queue(s)) == Queue(t))
  {
    var t := s.(batch := s.batch[1..]);
    forall g ensures Count(s, g) == Count(t, g) + (if s.batch[0] == g then 1 else 0) { CountPop(s, g); }
    assert Queue(s)[1..] == Queue(t) && Queue(s)[0] == s.batch[0];
    assert Queue(s) == [s.batch[0]] + Queue(t);
    CountIn(t, StartInLoop);
  }

  // ---------------------------------------------------------------------------
  // Steps
  // ---------------------------------------------------------------------------

  /** Nothing else can start an attempt, and no channel object is left over. */
  predicate Fresh(s: State) {
    s.state == Disconnected && s.channel == None && !Starting(s) && Alive(s) == {}
  }

  lemma KeepsConnecting(s: State, fd: nat)
    requires Control(s) && Fresh(s)
    ensures Control(StartConnecting(s, fd))
  {
    var t := StartConnecting(s, fd);
    assert Queue(t) == Queue(s) && Alive(t) == Alive(s);
  }

  /** A new timer is the only one alive. */
  lemma AliveTimer(s: State)
    ensures Alive(SetRetryTimer(s)) <= Alive(s) + {s.nextTimer}
  {
  }

  lemma KeepsRefused(s: State, fd: nat)
    requires Control(s) && Fresh(s)
    ensures Control(Retry(s, fd))
  {
    var t := Retry(s, fd);
    var s1 := s.(state := Disconnected, log := s.log + [Closed(fd)]);
    assert Queue(t) == Queue(s) && Alive(s1) == Alive(s);
    AliveTimer(s1);
    assert forall id :: id in s.timersReady ==> id in Alive(s);
  }

  /** The log and the descriptor counter play no part in control. */
  lemma Unlogged(s: State, t: State)
    requires Control(s) && t == s.(log := t.log, nextFd := t.nextFd)
    ensures Control(t) && (Fresh(s) ==> Fresh(t))
  {
    assert Queue(t) == Queue(s) && Alive(t) == Alive(s);
  }

  lemma KeepsConnect(s: State, outcome: Outcome)
    requires Control(s) && Fresh(s)
    ensures Control(ConnectAs(s, outcome))
  {
    hide Control, Fresh, Retry, StartConnecting;
    var fd := s.nextFd;
    var s1 := s.(log := s.log + [Attempt(fd)], nextFd := fd + 1);
    Unlogged(s, s1);
    match outcome
    case Pending => KeepsConnecting(s1, fd);
    case Refused => KeepsRefused(s1, fd);
    case Fatal => Unlogged(s1, Log(s1, Closed(fd)));
  }

  lemma KeepsStart(s: State, errno: Errno)
    requires Control(s) && Fresh(s)
    ensures Control(RunStartInLoop(s, errno))
  {
    hide ConnectAs, OutcomeOf, Tokens, Channels, Client, Order, Stops;
    assert s.(ok := s.ok && s.state == Disconnected) == s;
    if s.connect { KeepsConnect(s, OutcomeOf(errno)); }
  }

  /** The channel is taken out of use, with its reset queued. */
  lemma Removed(s: State)
    requires Control(s) && s.state == Connecting
    ensures var t := RemoveAndResetChannel(s);
            && t == s.(channel := Some(s.channel.value.(watched := false)), channelReady := false, pending := s.pending + [ResetChannel])
            && After(Queue(t)) == After(Queue(s)) + [ResetChannel]
            && !Starting(t) && Count(t, StartInLoop) == 0 && Count(t, ResetChannel) == 1
            && Alive(t) == {} && Alive(s) == {} && s.timersReady == {} && s.live == {}
  {
    var t := RemoveAndResetChannel(s);
    PushOther(s, ResetChannel, t);
    assert Alive(t) <= Alive(s);
    assert forall id :: id in s.timersReady ==> id in Alive(s);
    CountIn(s, StartInLoop);
  }

  /** A connecting attempt is given up: the channel waits for its reset, and a timer may be set. */
  lemma KeepsGiveUp(s: State)
    requires Control(s) && s.state == Connecting
    requires s.phase == Dispatch || !s.connect
    ensures Control(Retry(RemoveAndResetChannel(s), Fd(s)))
  {
    Removed(s);
    var s1 := RemoveAndResetChannel(s);
    var t := Retry(s1, Fd(s));
    assert Queue(t) == Queue(s1);
    assert Count(t, StartInLoop) == Count(s1, StartInLoop) && Count(t, ResetChannel) == Count(s1, ResetChannel);
    var s2 := s1.(state := Disconnected, log := s1.log + [Closed(Fd(s))]);
    assert Alive(s2) == Alive(s1);
    AliveTimer(s2);
  }

  lemma KeepsConnected(s: State)
    requires Control(s) && s.state == Connecting && s.phase == Dispatch
    ensures Control(HandleWrite(s, false))
  {
    hide RemoveAndResetChannel;
    Removed(s);
    var s1 := RemoveAndResetChannel(s);
    var t := HandleWrite(s, false);
    assert Queue(t) == Queue(s1) && Alive(t) == Alive(s1);
    assert Count(t, StartInLoop) == Count(s1, StartInLoop) && Count(t, ResetChannel) == Count(s1, ResetChannel);
  }

  lemma KeepsHandleError(s: State)
    requires Control(s) && s.phase == Dispatch
    ensures Control(HandleError(s)) && HandleError(s).phase == Dispatch
    ensures HandleError(s) == s || HandleError(s).state == Disconnected
  {
    if s.state == Connecting { KeepsGiveUp(s); }
  }

  lemma KeepsHandleWrite(s: State, failed: bool)
    requires Control(s) && s.phase == Dispatch && (s.state == Connecting || s.state == Disconnected)
    ensures Control(HandleWrite(s, failed))
  {
    hide Tokens, Channels, Client, Order, Stops;
    if s.state == Connecting {
      if failed { KeepsGiveUp(s); } else { KeepsConnected(s); }
    } else {
      assert HandleWrite(s, failed) == s;
    }
  }

  lemma KeepsUnready(s: State)
    requires Control(s) && s.phase == Dispatch && s.channelReady
    ensures Control(s.(channelReady := false)) && s.state == Connecting
  {
    var t := s.(channelReady := false);
    assert Queue(t) == Queue(s) && Alive(t) == Alive(s);
  }

  lemma KeepsChannelEvent(s: State, error: bool, write: bool, failed: bool)
    requires Control(s) && Enabled(s, ChannelEvent(error, write, failed))
    ensures Control(OnChannelEvent(s, error, write, failed))
  {
    hide Control, HandleError, HandleWrite;
    var s1 := s.(channelReady := false);
    KeepsUnready(s);
    KeepsHandleError(s1);
    var s2 := if error then HandleError(s1) else s1;
    KeepsHandleWrite(s2, failed);
  }

  lemma TimerGone(s: State, id: nat)
    requires Control(s) && s.phase == Dispatch && id in s.timersReady
    ensures var t := s.(timers := s.timers - {id}, timersReady := s.timersReady - {id}); Control(t) && Fresh(t)
  {
    var t := s.(timers := s.timers - {id}, timersReady := s.timersReady - {id});
    assert Queue(t) == Queue(s);
    assert id in Alive(s);
    assert Alive(t) == Alive(s) - {id};
  }

  lemma KeepsTimerEvent(s: State, id: nat, errno: Errno)
    requires Control(s) && Enabled(s, TimerEvent(id, errno))
    ensures Control(OnTimer(s, id, errno))
  {
    hide Control, Fresh, RunStartInLoop;
    TimerGone(s, id);
    KeepsStart(s.(timers := s.timers - {id}, timersReady := s.timersReady - {id}), errno);
  }

  lemma KeepsAfresh(s: State)
    requires Control(s) && s.live == {} && s.state == Connected && s.channel == None
    requires s.clientConnect && s.clientRetry
    ensures Control(Afresh(s)) && Fresh(Afresh(s))
  {
    var t := Afresh(s);
    assert Queue(t) == Queue(s) && Alive(t) == Alive(s);
  }

  lemma KeepsRestart(s: State, errno: Errno)
    requires Control(s) && s.live == {} && s.state == Connected && s.channel == None
    requires s.clientConnect && s.clientRetry
    ensures Control(RestartConnector(s, errno))
  {
    hide Control, Fresh, RunStartInLoop;
    KeepsAfresh(s);
    KeepsStart(Afresh(s), errno);
  }

  lemma KeepsForget(s: State, fd: nat)
    requires Control(s) && fd in s.liveReady
    ensures s.connection == Some(fd)
    ensures var t := Forget(s, fd);
            Control(t) && t.live == {} && t.state == Connected && t.channel == None
  {
    assert s.live == {fd} && s.connection == Some(fd);
    var t := Forget(s, fd);
    PushOther(s, ConnectDestroyed(fd), t);
    assert Alive(t) == Alive(s);
  }

  lemma KeepsCloseEvent(s: State, fd: nat, errno: Errno)
    requires Control(s) && Enabled(s, CloseEvent(fd, errno))
    ensures Control(RemoveConnection(s, fd, errno))
  {
    KeepsForget(s, fd);
    hide Control, RestartConnector;
    if s.clientConnect && s.clientRetry { KeepsRestart(Forget(s, fd), errno); }
  }

  /** Timers go, and nothing else that control looks at changes. */
  lemma FewerTimers(s: State, t: State)
    requires Control(s) && t == s.(timers := t.timers, timersReady := t.timersReady, cancelDue := t.cancelDue)
    requires Alive(t) <= Alive(s) && t.timersReady <= s.timersReady * t.timers
    ensures Control(t)
  {
    assert Queue(t) == Queue(s);
  }

  /** Popping a functor that neither resets the channel nor has a timer left to cancel. */
  lemma Popped(s: State)
    requires Control(s) && s.phase == Batch && s.batch != [] && s.batch[0] != ResetChannel
    requires match s.batch[0] { case CancelTimer(Some(id)) => id !in s.timers case _ => true }
    ensures Control(s.(batch := s.batch[1..]))
  {
    var t := s.(batch := s.batch[1..]);
    PopHead(s);
    SameAlive(s);
  }

  lemma SameAlive(s: State)
    requires s.phase == Batch && s.batch != []
    requires match s.batch[0] { case CancelTimer(Some(id)) => id !in s.timers case _ => true }
    ensures Alive(s.(batch := s.batch[1..])) == Alive(s)
  {
    assert s.batch == [s.batch[0]] + s.batch[1..];
  }

  lemma KeepsStopFunctor(s: State)
    requires Control(s) && s.phase == Batch && s.batch != [] && s.batch[0] == StopInLoop
    ensures Control(RunNext(s, EOK))
  {
    var s1 := s.(batch := s.batch[1..]);
    Popped(s);
    if s1.state == Connecting {
      PopHead(s);
      KeepsGiveUp(s1);
      assert RunStopInLoop(s1) == Retry(RemoveAndResetChannel(s1), Fd(s1));
    }
  }

  lemma KeepsStartFunctor(s: State, errno: Errno)
    requires Control(s) && s.phase == Batch && s.batch != [] && s.batch[0] == StartInLoop
    ensures Control(RunNext(s, errno))
  {
    hide RunStartInLoop;
    StartMeets(s);
    KeepsStart(s.(batch := s.batch[1..]), errno);
  }

  /** A queued startInLoop, when its turn comes, finds everything ready for it. */
  lemma StartMeets(s: State)
    requires Control(s) && s.phase == Batch && s.batch != [] && s.batch[0] == StartInLoop
    ensures var t := s.(batch := s.batch[1..]); Control(t) && Fresh(t)
  {
    var t := s.(batch := s.batch[1..]);
    Popped(s);
    PopHead(s);
    assert StartInLoop in Queue(s);
    CountIn(t, ResetChannel);
    CountIn(s, ResetChannel);
    SameAlive(s);
  }

  lemma KeepsResetFunctor(s: State)
    requires Control(s) && s.phase == Batch && s.batch != [] && s.batch[0] == ResetChannel
    ensures Control(RunNext(s, EOK))
  {
    var t := RunNext(s, EOK);
    var s1 := s.(batch := s.batch[1..]);
    PopHead(s);
    CountIn(s, ResetChannel);
    CountIn(s1, ResetChannel);
    assert Queue(t) == Queue(s1);
    assert forall g :: Count(t, g) == Count(s1, g);
    SameAlive(s);
    assert Alive(t) == Alive(s1);
  }

  lemma KeepsCancelFunctor(s: State)
    requires Control(s) && s.phase == Batch && s.batch != [] && s.batch[0].CancelTimer?
    ensures Control(RunNext(s, EOK))
  {
    hide Control;
    var u := RunCancelTimer(s, s.batch[0].id);
    Cancelled(s, s.batch[0].id);
    Popped(u);
    assert RunNext(s, EOK) == u.(batch := u.batch[1..]);
  }

  /** Cancelling leaves the other timers as they are. */
  lemma Cancelled(s: State, id: Option<nat>)
    requires Control(s)
    ensures var t := RunCancelTimer(s, id);
            Control(t) && t.batch == s.batch && t.phase == s.phase && (id.Some? ==> id.value !in t.timers)
  {
    hide Control;
    var t := RunCancelTimer(s, id);
    assert s.timersReady <= s.timers by { ReadyTimers(s); }
    assert Alive(t) <= Alive(s);
    FewerTimers(s, t);
  }

  lemma ReadyTimers(s: State)
    requires Control(s)
    ensures s.timersReady <= s.timers
  {
  }

  lemma KeepsRunFunctor(s: State, errno: Errno)
    requires Control(s) && Enabled(s, RunFunctor(errno))
    ensures Control(RunNext(s, errno))
  {
    hide Control, RunStartInLoop, RunStopInLoop, RunResetChannel, RunCancelTimer;
    match s.batch[0]
    case StartInLoop => KeepsStartFunctor(s, errno);
    case StopInLoop => KeepsStopFunctor(s);
    case ResetChannel => KeepsResetFunctor(s);
    case CancelTimer(_) => KeepsCancelFunctor(s);
    case ConnectDestroyed(_) => Popped(s);
  }

  lemma StartInTime(s: State)
    requires Control(s) && MayStart(s, true)
    ensures var t := s.(connect := true, clientConnect := true); Control(t) && Fresh(t)
  {
    var t := s.(connect := true, clientConnect := true);
    assert Queue(t) == Queue(s) && Alive(t) == Alive(s);
  }

  lemma KeepsForeignStart(s: State)
    requires Control(s) && MayStart(s, false)
    ensures Control(OnStart(s, false, EOK))
  {
    var t := OnStart(s, false, EOK);
    assert Queue(t) == Queue(s) && Alive(t) == Alive(s);
    CountIn(s, StartInLoop);
  }

  /** The startInLoop of a start on another thread joins the queue. */
  lemma QueuedTokens(s: State)
    requires Control(s) && s.startsDue > 0
    ensures var t := Next(s, StartQueue);
            && Behind(t) == [] && Alive(t) == {} && Tokens(t) && Numbered(t)
            && forall g :: g != StartInLoop ==> Count(t, g) == Count(s, g) && (g in t.pending <==> g in s.pending)
  {
    hide OnStart, RunNext, RemoveConnection, OnChannelEvent, OnTimer, RunCancelTimer;
    var t := Next(s, StartQueue);
    assert Queue(t) == Queue(s) + [StartInLoop];
    AfterPush(Queue(s), StartInLoop);
    assert Alive(t) == Alive(s);
    CountIn(s, StartInLoop);
  }

  lemma KeepsStartQueue(s: State)
    requires Control(s) && s.startsDue > 0
    ensures Control(Next(s, StartQueue))
  {
    hide Tokens, After, Queue, Alive, Numbered, Behind, OnStart, RunNext, RemoveConnection, OnChannelEvent, OnTimer, RunCancelTimer;
    QueuedTokens(s);
    assert StopInLoop !in Behind(Next(s, StartQueue));
    assert Count(Next(s, StartQueue), ResetChannel) == Count(s, ResetChannel);
  }

  lemma KeepsStartCall(s: State, inLoop: bool, errno: Errno)
    requires Control(s) && MayStart(s, inLoop)
    ensures Control(OnStart(s, inLoop, errno))
  {
    if inLoop {
      hide Control, Fresh, RunStartInLoop, MayStart;
      StartInTime(s);
      KeepsStart(s.(connect := true, clientConnect := true), errno);
    } else {
      KeepsForeignStart(s);
    }
  }

  lemma KeepsDisconnect(s: State)
    requires Control(s)
    ensures Control(s.(clientConnect := false))
  {
    var t := s.(clientConnect := false);
    assert Queue(t) == Queue(s) && Alive(t) == Alive(s);
  }

  lemma KeepsStopBegin(s: State)
    requires Control(s)
    ensures Control(s.(clientConnect := false, flagDue := s.flagDue + 1))
  {
    var t := s.(clientConnect := false, flagDue := s.flagDue + 1);
    assert Queue(t) == Queue(s) && Alive(t) == Alive(s);
  }

  lemma KeepsStopFlag(s: State)
    requires Control(s) && s.flagDue > 0
    ensures Control(Next(s, StopFlag))
  {
    var t := Next(s, StopFlag);
    assert Queue(t) == Queue(s) && Alive(t) == Alive(s);
  }

  lemma KeepsStopQueue(s: State)
    requires Control(s) && s.queueDue > 0
    ensures Control(Next(s, StopQueue))
  {
    var t := Next(s, StopQueue);
    PushOther(s, StopInLoop, t);
    assert Alive(t) == Alive(s);
  }

  lemma KeepsStopCancel(s: State, inLoop: bool)
    requires Control(s) && s.cancelDue > 0
    ensures Control(Next(s, StopCancel(inLoop)))
  {
    assert s.timerId.Some? ==> s.timerId.value < s.nextTimer;
    hide Control;
    var s1 := s.(cancelDue := s.cancelDue - 1);
    assert Alive(s1) == Alive(s);
    ReadyTimers(s);
    FewerTimers(s, s1);
    if inLoop {
      Cancelled(s1, s.timerId);
    } else {
      JoinCancel(s1, s.timerId);
    }
  }

  lemma JoinCancel(s: State, id: Option<nat>)
    requires Control(s) && (id.Some? ==> id.value < s.nextTimer)
    ensures Control(Push(s, CancelTimer(id)))
  {
    var t := Push(s, CancelTimer(id));
    PushOther(s, CancelTimer(id), t);
    assert Alive(t) <= Alive(s);
  }

  lemma KeepsPoll(s: State, ch: bool, tms: set<nat>, live: set<nat>)
    requires Control(s) && Enabled(s, Poll(ch, tms, live))
    ensures Control(Next(s, Poll(ch, tms, live)))
  {
    var t := Next(s, Poll(ch, tms, live));
    assert Queue(t) == Queue(s) && Alive(t) <= Alive(s) == s.timers;
    CountIn(s, ResetChannel);
    assert tms != {} ==> Alive(s) != {};
  }

  lemma KeepsEndDispatch(s: State)
    requires Control(s) && Enabled(s, EndDispatch)
    ensures Control(Next(s, EndDispatch))
  {
    var t := Next(s, EndDispatch);
    assert Queue(t) == Queue(s) && Alive(t) == Alive(s);
  }

  lemma KeepsNext(s: State, step: Step)
    requires Control(s) && Enabled(s, step) && Keeps(s, step)
    ensures Control(Next(s, step))
  {
    hide Control, MayStart, OnStart, RunNext, RemoveConnection, OnChannelEvent, OnTimer;
    match step
    case Start(inLoop, errno) => KeepsStartCall(s, inLoop, errno);
    case StartQueue => KeepsStartQueue(s);
    case RunFunctor(errno) => KeepsRunFunctor(s, errno);
    case Poll(ch, tms, live) => KeepsPoll(s, ch, tms, live);
    case ChannelEvent(error, write, failed) => KeepsChannelEvent(s, error, write, failed);
    case TimerEvent(id, errno) => KeepsTimerEvent(s, id, errno);
    case CloseEvent(fd, errno) => KeepsCloseEvent(s, fd, errno);
    case EndDispatch => KeepsEndDispatch(s);
    case Disconnect => KeepsDisconnect(s);
    case StopBegin => KeepsStopBegin(s);
    case StopFlag => KeepsStopFlag(s);
    case StopQueue => KeepsStopQueue(s);
    case StopCancel(inLoop) => KeepsStopCancel(s, inLoop);
  }

  lemma {:induction false} KeepsRun(s: State, steps: seq<Step>)
    requires Control(s) && Legal(s, steps) && InContract(s, steps)
    ensures Control(Run(s, steps))
    decreases |steps|
  {
    hide Control, Next, Enabled, Keeps;
    if steps != [] {
      KeepsNext(s, steps[0]);
      KeepsRun(Next(s, steps[0]), steps[1..]);
    }
  }
}
