/**
 Connector and TcpClient: the retrying connect machine with its descriptor, its
 deferred channel reset and its backoff timer, on one event loop.

 A loop iteration is: run the swapped functors, poll, dispatch what poll found
 ready. Only what was watched or armed before the poll can be ready after it, and
 stopping a watcher takes its readiness back. start() on the loop thread is one
 step; on other threads, several at once, it raises the flags in one step and queues
 startInLoop in a later one. stop() runs on any threads, several at once, and is
 four separate steps.
 */
module ConnectorSpec {
  import opened Basics

  datatype States = Disconnected | Connecting | Connected

  const INIT_RETRY_DELAY_MS: nat := 500
  const MAX_RETRY_DELAY_MS: nat := 30 * 1000

  /** The errno values Connector::connect tells apart; `EOTHER` is any further one. */
  datatype Errno =
    | EOK | EINPROGRESS | EINTR | EISCONN
    | EAGAIN | EADDRINUSE | EADDRNOTAVAIL | ECONNREFUSED | ENETUNREACH
    | EACCES | EPERM | EAFNOSUPPORT | EALREADY | EBADF | EFAULT | ENOTSOCK
    | EOTHER

  /** The channel object, and whether it is still watched or only waits for its reset. */
  datatype Channel = Channel(fd: nat, watched: bool)

  datatype Functor = StartInLoop | StopInLoop | ResetChannel | CancelTimer(id: Option<nat>) | ConnectDestroyed(fd: nat)

  datatype Entry =
    | Attempt(fd: nat)       // a socket was created and connect called on it
    | Closed(fd: nat)        // the connector closed it
    | Handed(fd: nat)        // newConnectionCallback_ got it
    | Backoff(ms: nat)       // a retry timer was set
    | Restart                // TcpClient asked for a new round

  datatype Phase = Batch | Dispatch

  datatype State = State(
    phase: Phase,
    batch: seq<Functor>,
    pending: seq<Functor>,
    state: States,
    connect: bool,                 // Connector::connect_
    channel: Option<Channel>,
    channelReady: bool,
    timers: set<nat>,              // the outstanding retry timers
    timersReady: set<nat>,
    timerId: Option<nat>,          // Connector::timerId_
    nextTimer: nat,
    retryDelayMs: nat,
    clientConnect: bool,           // TcpClient::connect_
    clientRetry: bool,             // TcpClient::retry_
    connection: Option<nat>,       // TcpClient::connection_, by descriptor
    live: set<nat>,                // established connections not closed yet
    liveReady: set<nat>,
    startsDue: nat,                // other threads in start() that have yet to queue startInLoop
    flagDue: nat,                  // threads in stop() that have yet to lower connect_,
    queueDue: nat,                 // to queue stopInLoop,
    cancelDue: nat,                // and to cancel the timer
    nextFd: nat,
    log: seq<Entry>,
    ok: bool)                      // no assert has failed

  function Init(clientRetry: bool): State {
    State(Dispatch, [], [], Disconnected, false, None, false, {}, {}, None, 0, INIT_RETRY_DELAY_MS,
          true, clientRetry, None, {}, {}, 0, 0, 0, 0, 0, [], true)
  }

  // ---------------------------------------------------------------------------
  // Connector
  // ---------------------------------------------------------------------------

  function Push(s: State, f: Functor): State {
    s.(pending := s.pending + [f])
  }

  function Log(s: State, e: Entry): State {
    s.(log := s.log + [e])
  }

  function Min(a: nat, b: nat): nat {
    if a <= b then a else b
  }

  /** runAfter(retryDelayMs_ / 1000.0, startInLoop), and the next delay. */
  function SetRetryTimer(s: State): State {
    s.(log := s.log + [Backoff(s.retryDelayMs)],
       timers := s.timers + {s.nextTimer}, timerId := Some(s.nextTimer), nextTimer := s.nextTimer + 1,
       retryDelayMs := Min(s.retryDelayMs * 2, MAX_RETRY_DELAY_MS))
  }

  function Retry(s: State, fd: nat): State {
    var s1 := s.(state := Disconnected, log := s.log + [Closed(fd)]);
    if s.connect then SetRetryTimer(s1) else s1
  }

  /** connecting(): asserts that no channel object is left over. */
  function StartConnecting(s: State, fd: nat): State {
    s.(state := Connecting, channel := Some(Channel(fd, true)), channelReady := false, ok := s.ok && s.channel == None)
  }

  datatype Outcome = Pending | Refused | Fatal

  /** The three ways the switch on errno goes. */
  function OutcomeOf(errno: Errno): Outcome {
    match errno
    case EOK => Pending
    case EINPROGRESS => Pending
    case EINTR => Pending
    case EISCONN => Pending
    case EAGAIN => Refused
    case EADDRINUSE => Refused
    case EADDRNOTAVAIL => Refused
    case ECONNREFUSED => Refused
    case ENETUNREACH => Refused
    case _ => Fatal
  }

  function ConnectAs(s: State, outcome: Outcome): State {
    var fd := s.nextFd;
    var s1 := s.(log := s.log + [Attempt(fd)], nextFd := fd + 1);
    match outcome
    case Pending => StartConnecting(s1, fd)
    case Refused => Retry(s1, fd)
    case Fatal => Log(s1, Closed(fd))
  }

  function Connect(s: State, errno: Errno): State {
    ConnectAs(s, OutcomeOf(errno))
  }

  function RunStartInLoop(s: State, errno: Errno): State {
    var s1 := s.(ok := s.ok && s.state == Disconnected);
    if s.connect then Connect(s1, errno) else s1
  }

  function Afresh(s: State): State {
    s.(log := s.log + [Restart], state := Disconnected, retryDelayMs := INIT_RETRY_DELAY_MS, connect := true)
  }

  function RestartConnector(s: State, errno: Errno): State {
    RunStartInLoop(Afresh(s), errno)
  }

  /** removeAndResetChannel(): dereferences the channel, so there has to be one. */
  function RemoveAndResetChannel(s: State): State {
    if s.channel == None then s.(ok := false)
    else s.(channel := Some(s.channel.value.(watched := false)), channelReady := false, pending := s.pending + [ResetChannel])
  }

  function Fd(s: State): nat {
    if s.channel.Some? then s.channel.value.fd else 0
  }

  function HandleError(s: State): State {
    if s.state == Connecting then Retry(RemoveAndResetChannel(s), Fd(s)) else s
  }

  /** `failed` is a pending SO_ERROR or a self-connect. */
  function HandleWrite(s: State, failed: bool): State {
    if s.state == Connecting then
      var s1 := RemoveAndResetChannel(s);
      if failed then Retry(s1, Fd(s))
      else if s.connect then NewConnection(s1.(state := Connected), Fd(s))
      else s1.(state := Connected, log := s.log + [Closed(Fd(s))])
    else s.(ok := s.ok && s.state == Disconnected)
  }

  function RunStopInLoop(s: State): State {
    if s.state == Connecting then Retry(RemoveAndResetChannel(s.(state := Disconnected)), Fd(s)) else s
  }

  /** resetChannel() deletes the channel; the one deleted must be out of use. */
  function RunResetChannel(s: State): State {
    s.(channel := None, channelReady := false, ok := s.ok && s.channel.Some? && !s.channel.value.watched)
  }

  function RunCancelTimer(s: State, id: Option<nat>): State {
    if id == None then s
    else s.(timers := s.timers - {id.value}, timersReady := s.timersReady - {id.value})
  }

  // ---------------------------------------------------------------------------
  // TcpClient
  // ---------------------------------------------------------------------------

  function NewConnection(s: State, fd: nat): State {
    s.(log := s.log + [Handed(fd)], connection := Some(fd), live := s.live + {fd})
  }

  function Forget(s: State, fd: nat): State {
    s.(connection := None, live := s.live - {fd}, liveReady := s.liveReady - {fd},
       ok := s.ok && s.connection == Some(fd), pending := s.pending + [ConnectDestroyed(fd)])
  }

  function RemoveConnection(s: State, fd: nat, errno: Errno): State {
    var s1 := Forget(s, fd);
    if s.clientConnect && s.clientRetry then RestartConnector(s1, errno) else s1
  }

  // ---------------------------------------------------------------------------
  // Steps
  // ---------------------------------------------------------------------------

  datatype Step =
    | Start(inLoop: bool, errno: Errno)
    | StartQueue
    | Disconnect
    | StopBegin | StopFlag | StopQueue | StopCancel(inLoop: bool)
    | RunFunctor(errno: Errno)
    | Poll(channel: bool, timers: set<nat>, live: set<nat>)
    | ChannelEvent(error: bool, write: bool, failed: bool)
    | TimerEvent(id: nat, errno: Errno)
    | CloseEvent(fd: nat, errno: Errno)
    | EndDispatch

  predicate Enabled(s: State, step: Step) {
    match step
    case Start(_, _) => true
    case StartQueue => s.startsDue > 0
    case Disconnect => true
    case StopBegin => true
    case StopFlag => s.flagDue > 0
    case StopQueue => s.queueDue > 0
    case StopCancel(_) => s.cancelDue > 0
    case RunFunctor(_) => s.phase == Batch && s.batch != []
    case Poll(ch, tms, live) =>
      && s.phase == Batch && s.batch == []
      && (ch ==> s.channel.Some? && s.channel.value.watched) && tms <= s.timers && live <= s.live
    case ChannelEvent(error, write, _) => s.phase == Dispatch && s.channelReady && (error || write)
    case TimerEvent(id, _) => s.phase == Dispatch && id in s.timersReady
    case CloseEvent(fd, _) => s.phase == Dispatch && fd in s.liveReady
    case EndDispatch => s.phase == Dispatch && !s.channelReady && s.liveReady == {} && s.timersReady == {}
  }

  function RunNext(s: State, errno: Errno): State
    requires s.batch != []
  {
    var s1 := s.(batch := s.batch[1..]);
    match s.batch[0]
    case StartInLoop => RunStartInLoop(s1, errno)
    case StopInLoop => RunStopInLoop(s1)
    case ResetChannel => RunResetChannel(s1)
    case CancelTimer(id) => RunCancelTimer(s1, id)
    case ConnectDestroyed(_) => s1
  }

  /** TcpClient::connect, and with it Connector::start; on another thread without the queueing. */
  function OnStart(s: State, inLoop: bool, errno: Errno): State {
    var s1 := s.(connect := true, clientConnect := true);
    if inLoop then RunStartInLoop(s1, errno) else s1.(startsDue := s.startsDue + 1)
  }

  /** Channel::handleEvent on the connector's channel: the error callback, then the write callback. */
  function OnChannelEvent(s: State, error: bool, write: bool, failed: bool): State {
    var s1 := s.(channelReady := false);
    var s2 := if error then HandleError(s1) else s1;
    if write then HandleWrite(s2, failed) else s2
  }

  /** A retry timer fires: it is gone, and startInLoop runs. */
  function OnTimer(s: State, id: nat, errno: Errno): State {
    RunStartInLoop(s.(timers := s.timers - {id}, timersReady := s.timersReady - {id}), errno)
  }

  function Next(s: State, step: Step): State
    requires Enabled(s, step)
  {
    match step
    case Start(inLoop, errno) => OnStart(s, inLoop, errno)
    case StartQueue => s.(pending := s.pending + [StartInLoop], startsDue := s.startsDue - 1)
    case Disconnect => s.(clientConnect := false)     // and shutdown() on the connection, if there is one
    case StopBegin => s.(clientConnect := false, flagDue := s.flagDue + 1)
    case StopFlag => s.(connect := false, flagDue := s.flagDue - 1, queueDue := s.queueDue + 1)
    case StopQueue => s.(pending := s.pending + [StopInLoop], queueDue := s.queueDue - 1, cancelDue := s.cancelDue + 1)
    case StopCancel(inLoop) =>
      var s1 := s.(cancelDue := s.cancelDue - 1);
      if inLoop then RunCancelTimer(s1, s.timerId) else Push(s1, CancelTimer(s.timerId))
    case RunFunctor(errno) => RunNext(s, errno)
    case Poll(ch, tms, live) => s.(phase := Dispatch, channelReady := ch, liveReady := live, timersReady := tms)
    case ChannelEvent(error, write, failed) => OnChannelEvent(s, error, write, failed)
    case TimerEvent(id, errno) => OnTimer(s, id, errno)
    case CloseEvent(fd, errno) => RemoveConnection(s, fd, errno)
    case EndDispatch => s.(phase := Batch, batch := s.pending, pending := [])
  }

  predicate Legal(s: State, steps: seq<Step>)
    decreases |steps|
  {
    steps == [] || (Enabled(s, steps[0]) && Legal(Next(s, steps[0]), steps[1..]))
  }

  function Run(s: State, steps: seq<Step>): State
    requires Legal(s, steps)
    decreases |steps|
  {
    if steps == [] then s else Run(Next(s, steps[0]), steps[1..])
  }

  // ---------------------------------------------------------------------------
  // The contract of start()
  // ---------------------------------------------------------------------------

  /** The functors queued, in the order they will run. */
  function Queue(s: State): seq<Functor> {
    s.batch + s.pending
  }

  /** The functors that run before the next poll. */
  function Imminent(s: State): seq<Functor> {
    if s.phase == Batch then s.batch else s.pending
  }

  /** The retry timers that can still fire: ready, or not cancelled before the next poll. */
  function Alive(s: State): set<nat> {
    set id | id in s.timers && (id in s.timersReady || CancelTimer(Some(id)) !in Imminent(s))
  }

  /** A startInLoop is queued, or another thread is on its way to queue one. */
  predicate Starting(s: State) {
    StartInLoop in Queue(s) || s.startsDue > 0
  }

  /**
   When start() may be called. The connector is disconnected, nothing is under way
   that could start an attempt, and no stop() is on its way whose stopInLoop would
   meet this start's attempt. On the loop thread, where start() connects at once,
   the old channel must be gone too and no stopInLoop queued; on another thread the
   new startInLoop runs after both.
   */
  predicate MayStart(s: State, inLoop: bool) {
    && s.state == Disconnected && !Starting(s) && Alive(s) == {}
    && s.queueDue == 0 && (s.flagDue > 0 ==> !s.clientRetry)
    && (inLoop ==> s.channel == None && StopInLoop !in Queue(s))
  }

  predicate Keeps(s: State, step: Step) {
    step.Start? ==> MayStart(s, step.inLoop)
  }

  predicate InContract(s: State, steps: seq<Step>)
    requires Legal(s, steps)
    decreases |steps|
  {
    steps == [] || (Keeps(s, steps[0]) && InContract(Next(s, steps[0]), steps[1..]))
  }
}
