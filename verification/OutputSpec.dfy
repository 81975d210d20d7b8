/**
 The outgoing side of a TCP connection as a state machine: direct write, partial
 write, buffering, the write-interest bit and the deferred half-close. A send or a
 shutdown on another thread looks at the state first and queues its request later;
 anything may happen in between.

 `State.log` records, in order, what the connection took charge of and what it
 did to the outside. Everything promised about the byte stream, the half-close
 and the two notifications is stated over that log.
 */
module OutputSpec {
  import opened Basics
  import opened ConnectionStates

  /** How one write call on the socket came back. `Broken` is EPIPE or ECONNRESET. */
  datatype WriteResult = Wrote(n: nat) | WouldBlock | Broken | OtherError

  /** A write never reports more bytes than it was given. */
  predicate Fits(w: WriteResult, len: nat) {
    w.Wrote? ==> w.n <= len
  }

  datatype Effect =
    | Sent(message: seq<byte>, direct: Option<nat>)  // accepted; a write took the first `direct` bytes at once
    | Flushed(bytes: seq<byte>)                      // handleWrite put these on the wire
    | HalfClosed                                     // shutdownWrite on the socket
    | Closed                                         // handleClose
    | WriteComplete                                  // write-complete callback queued
    | HighWater(level: nat)                          // high-water callback queued

  /** Another thread's request, waiting in the loop's functor queue. */
  datatype Request = SendRequest(message: seq<byte>) | ShutdownRequest

  datatype Config = Config(highWaterMark: nat, onHighWater: bool, onWriteComplete: bool)

  datatype State = State(
    config: Config,
    state: StateE,
    reading: bool,
    writing: bool,
    output: seq<byte>,
    requests: seq<Request>,
    senders: multiset<seq<byte>>,    // messages of other threads past the state check in send(), not yet queued
    shutters: nat,                   // other threads that have set kDisconnecting and not yet queued the shutdown
    log: seq<Effect>)

  function Init(config: Config): State {
    State(config, Connecting, false, false, [], [], multiset{}, 0, [])
  }

  // ---------------------------------------------------------------------------
  // What a log means
  // ---------------------------------------------------------------------------

  function WireOf(e: Effect): seq<byte> {
    match e
    case Sent(m, Some(n)) => if n <= |m| then m[..n] else m
    case Flushed(bytes) => bytes
    case _ => []
  }

  function AcceptedOf(e: Effect): seq<byte> {
    if e.Sent? then e.message else []
  }

  /** Every byte put on the wire, in order. */
  function Wire(log: seq<Effect>): seq<byte> {
    if log == [] then [] else Wire(log[..|log| - 1]) + WireOf(log[|log| - 1])
  }

  /** The accepted messages, joined in order. */
  function Accepted(log: seq<Effect>): seq<byte> {
    if log == [] then [] else Accepted(log[..|log| - 1]) + AcceptedOf(log[|log| - 1])
  }

  /** Bytes accepted and not yet on the wire. */
  function Level(log: seq<Effect>): int {
    |Accepted(log)| - |Wire(log)|
  }

  predicate Moves(e: Effect) {
    e.Sent? || e.Flushed?
  }

  predicate Notifies(e: Effect) {
    e.WriteComplete? || e.HighWater?
  }

  /** The notification the entry just before `log`'s end calls for, told from the log alone. */
  function Due(config: Config, log: seq<Effect>): (due: seq<Effect>)
    requires log != []
    ensures due == [] || (|due| == 1 && Notifies(due[0]))
  {
    var before, e := Level(log[..|log| - 1]), log[|log| - 1];
    var wrote := e.Flushed? || (e.Sent? && e.direct.Some?);
    if wrote && Level(log) == 0 && config.onWriteComplete then [WriteComplete]
    else if before < config.highWaterMark <= Level(log) && config.onHighWater then [HighWater(Level(log))]
    else []
  }

  // ---------------------------------------------------------------------------
  // The handlers
  // ---------------------------------------------------------------------------

  /** The callback queued when the buffer goes from `before` to `after` bytes. */
  function Notice(config: Config, wrote: bool, before: nat, after: nat): seq<Effect> {
    if wrote && after == 0 && config.onWriteComplete then [WriteComplete]
    else if before < config.highWaterMark <= after && config.onHighWater then [HighWater(after)]
    else []
  }

  /** Logs an entry that leaves `output` in the buffer, with the callback it gives rise to. */
  function Record(s: State, e: Effect, output: seq<byte>): State
    requires Moves(e)
  {
    var wrote := e.Flushed? || e.direct.Some?;
    s.(output := output, log := s.log + [e] + Notice(s.config, wrote, |s.output|, |output|))
  }

  function SendInLoop(s: State, message: seq<byte>, w: WriteResult): State
    requires Fits(w, |message|)
  {
    var tries := !s.writing && s.output == [];
    if tries && w.Broken? then s
    else if tries && w.Wrote? then
      Record(s, Sent(message, Some(w.n)), message[w.n..]).(writing := w.n < |message|)
    else
      Record(s, Sent(message, None), s.output + message).(writing := s.writing || message != [])
  }

  function ShutdownInLoop(s: State): State {
    if s.writing then s else s.(log := s.log + [HalfClosed])
  }

  function HandleWrite(s: State, w: WriteResult): State
    requires Fits(w, |s.output|)
  {
    if !s.writing || !w.Wrote? || w.n == 0 then s
    else
      var rest := s.output[w.n..];
      var t := Record(s, Flushed(s.output[..w.n]), rest).(writing := rest != []);
      if rest == [] && s.state == Disconnecting then ShutdownInLoop(t) else t
  }

  /** send() on the loop thread. */
  function Send(s: State, message: seq<byte>, w: WriteResult): State
    requires Fits(w, |message|)
  {
    if s.state == Connected then SendInLoop(s, message, w) else s
  }

  /** shutdown() on the loop thread. */
  function Shutdown(s: State): State {
    if s.state == Connected then ShutdownInLoop(s.(state := Disconnecting)) else s
  }

  /** send() on another thread, up to the check of the state. */
  function BeginSend(s: State, message: seq<byte>): State {
    if s.state == Connected then s.(senders := s.senders + multiset{message}) else s
  }

  /** The rest of it: the message is queued, whatever the state is by now. */
  function PushSend(s: State, message: seq<byte>): State {
    s.(senders := s.senders - multiset{message}, requests := s.requests + [SendRequest(message)])
  }

  /** shutdown() on another thread: the check and the change of state, */
  function BeginShutdown(s: State): State {
    if s.state == Connected then s.(state := Disconnecting, shutters := s.shutters + 1) else s
  }

  /** and then the request. */
  function PushShutdown(s: State): State
    requires s.shutters > 0
  {
    s.(shutters := s.shutters - 1, requests := s.requests + [ShutdownRequest])
  }

  /** The loop runs the oldest queued request. */
  function RunRequest(s: State, w: WriteResult): State
    requires s.requests != []
    requires s.requests[0].SendRequest? ==> Fits(w, |s.requests[0].message|)
  {
    var s1 := s.(requests := s.requests[1..]);
    match s.requests[0]
    case SendRequest(m) => SendInLoop(s1, m, w)
    case ShutdownRequest => ShutdownInLoop(s1)
  }

  function ConnectEstablished(s: State): State {
    s.(state := Connected, reading := true)
  }

  function HandleClose(s: State): State {
    s.(reading := false, writing := false, log := s.log + [Closed])
  }

  function ConnectDestroyed(s: State): State {
    s.(state := Disconnected, reading := false, writing := false)
  }

  // ---------------------------------------------------------------------------
  // Runs
  // ---------------------------------------------------------------------------

  datatype Step =
    | Establish
    | DoSend(message: seq<byte>, w: WriteResult)
    | DoShutdown
    | ForeignSend(message: seq<byte>)        // another thread's send passes the check,
    | ForeignSendPush(message: seq<byte>)    // and queues
    | ForeignShutdown                        // another thread's shutdown sets the state,
    | ForeignShutdownPush                    // and queues
    | DoRequest(w: WriteResult)
    | Writable(w: WriteResult)
    | PeerClosed
    | Destroy

  /**
   When a step can happen. A zero read needs read interest; destruction follows
   the close, once. A writable event is allowed at any time until then, which
   covers the write callback still running after a close in the same dispatch;
   destruction stops the watcher for good.
   */
  predicate Enabled(s: State, step: Step) {
    match step
    case Establish => s.state == Connecting
    case DoSend(m, w) => Fits(w, |m|)
    case DoRequest(w) => s.requests != [] && (s.requests[0].SendRequest? ==> Fits(w, |s.requests[0].message|))
    case Writable(w) => Fits(w, |s.output|) && s.state != Disconnected
    case PeerClosed => s.reading
    case Destroy => Closed in s.log && s.state != Disconnected
    case ForeignSendPush(m) => m in s.senders
    case ForeignShutdownPush => s.shutters > 0
    case _ => true
  }

  function Next(s: State, step: Step): State
    requires Enabled(s, step)
  {
    match step
    case Establish => ConnectEstablished(s)
    case DoSend(m, w) => Send(s, m, w)
    case DoShutdown => Shutdown(s)
    case ForeignSend(m) => BeginSend(s, m)
    case ForeignSendPush(m) => PushSend(s, m)
    case ForeignShutdown => BeginShutdown(s)
    case ForeignShutdownPush => PushShutdown(s)
    case DoRequest(w) => RunRequest(s, w)
    case Writable(w) => HandleWrite(s, w)
    case PeerClosed => HandleClose(s)
    case Destroy => ConnectDestroyed(s)
  }

  predicate Legal(s: State, steps: seq<Step>)
    decreases |steps|
  {
    steps == [] || (Enabled(s, steps[0]) && Legal(Next(s, steps[0]), steps[1..]))
  }

  function Run(s: State, steps: seq<Step>): State
    requires Legal(s, steps)
    decreases |steps|
  {
    if steps == [] then s else Run(Next(s, steps[0]), steps[1..])
  }
}
