/**
 What every run of the outgoing side keeps: the byte stream, the write-interest
 bit and the exactness of the notifications.
 */
module OutputProofs {
  import opened Basics
  import opened ConnectionStates
  import opened OutputSpec

  // ---------------------------------------------------------------------------
  // Logs
  // ---------------------------------------------------------------------------

  lemma Snoc(log: seq<Effect>, e: Effect)
    ensures Wire(log + [e]) == Wire(log) + WireOf(e)
    ensures Accepted(log + [e]) == Accepted(log) + AcceptedOf(e)
  {
    assert (log + [e])[..|log|] == log;
  }

  lemma Trailing(log: seq<Effect>, due: seq<Effect>)
    requires due == [] || (|due| == 1 && Notifies(due[0]))
    ensures Wire(log + due) == Wire(log) && Accepted(log + due) == Accepted(log)
    ensures Closed in log + due <==> Closed in log
  {
    if due == [] {
      assert log + due == log;
    } else {
      assert due == [due[0]];
      Snoc(log, due[0]);
      assert Wire(log) + [] == Wire(log) && Accepted(log) + [] == Accepted(log);
    }
  }

  /** The notification a log still owes at its end. */
  function Owed(config: Config, log: seq<Effect>): seq<Effect> {
    if log != [] && Moves(log[|log| - 1]) then Due(config, log) else []
  }

  /**
   Each entry is the notification owed before it, or something else when none was
   owed; and at every point the wire is a prefix of what was accepted.
   */
  predicate Orderly(config: Config, log: seq<Effect>) {
    log == [] || (
      var init, e := log[..|log| - 1], log[|log| - 1];
      && Orderly(config, init)
      && Wire(log) <= Accepted(log)
      && Owed(config, init) == if Notifies(e) then [e] else [])
  }

  lemma OrderlyExtend(config: Config, log: seq<Effect>, e: Effect)
    requires Orderly(config, log) && Owed(config, log) == [] && !Notifies(e)
    requires Wire(log + [e]) <= Accepted(log + [e])
    ensures var due := Owed(config, log + [e]);
            Orderly(config, log + [e] + due) && Owed(config, log + [e] + due) == []
  {
    var one := log + [e];
    assert one[..|log|] == log;
    var due := Owed(config, one);
    if due == [] {
      assert one + due == one;
    } else {
      var all := one + due;
      Trailing(one, due);
      assert all[..|all| - 1] == one && all[|all| - 1] == due[0];
    }
  }

  // ---------------------------------------------------------------------------
  // The invariant
  // ---------------------------------------------------------------------------

  ghost predicate Stream(s: State) {
    Accepted(s.log) == Wire(s.log) + s.output
  }

  /** Write interest is set exactly while bytes wait, except that a close may drop it early. */
  ghost predicate Interest(s: State) {
    && (s.writing ==> s.output != [])
    && (Closed !in s.log ==> (s.output != [] ==> s.writing))
    && (s.reading ==> s.state in {Connected, Disconnecting} && Closed !in s.log)
    && (s.state in {Connected, Disconnecting} && Closed !in s.log ==> s.reading)
    && (s.state == Connecting ==> s.log == [] && s.output == [] && s.requests == [] && !s.reading)
    && (s.state == Connecting ==> s.senders == multiset{} && s.shutters == 0)
    && (s.state == Disconnected ==> Closed in s.log)
  }

  /** Every notification due so far is in the log, right where it fell due, and no other is. */
  ghost predicate Notified(s: State) {
    Orderly(s.config, s.log) && Owed(s.config, s.log) == []
  }

  ghost predicate Inv(s: State) {
    Stream(s) && Interest(s) && Notified(s)
  }

  lemma InvInit(config: Config)
    ensures Inv(Init(config))
  {
  }

  lemma LevelIsBuffered(s: State)
    requires Stream(s)
    ensures Level(s.log) == |s.output|
  {
  }

  lemma MovedStream(s: State, e: Effect, output: seq<byte>)
    requires Stream(s) && s.output + AcceptedOf(e) == WireOf(e) + output
    ensures Accepted(s.log + [e]) == Wire(s.log + [e]) + output
  {
    Snoc(s.log, e);
    Regroup(Wire(s.log), s.output, AcceptedOf(e));
    Regroup(Wire(s.log), WireOf(e), output);
  }

  /** What an entry makes due by the log alone is what the handler queues by looking at the buffer. */
  lemma Moved(s: State, e: Effect, output: seq<byte>)
    requires Stream(s) && Moves(e) && s.output + AcceptedOf(e) == WireOf(e) + output
    ensures Owed(s.config, s.log + [e]) == Notice(s.config, e.Flushed? || e.direct.Some?, |s.output|, |output|)
  {
    var log := s.log + [e];
    assert Level(log) == |output| by { MovedStream(s, e, output); }
    assert log[..|log| - 1] == s.log;
    assert Level(s.log) == |s.output|;
  }

  /** So the log a handler leaves is the entry with what it makes due. */
  lemma RecordedLog(s: State, e: Effect, output: seq<byte>)
    requires Stream(s) && Moves(e) && s.output + AcceptedOf(e) == WireOf(e) + output
    ensures Record(s, e, output).log == s.log + [e] + Owed(s.config, s.log + [e])
    ensures Accepted(s.log + [e]) == Wire(s.log + [e]) + output
  {
    Moved(s, e, output);
    MovedStream(s, e, output);
  }

  /** A log that goes on by an entry and what it makes due stays orderly. */
  lemma OrderlyDue(config: Config, log: seq<Effect>, e: Effect, due: seq<Effect>)
    requires Orderly(config, log) && Owed(config, log) == [] && Moves(e)
    requires due == Owed(config, log + [e]) && Wire(log + [e]) <= Accepted(log + [e])
    ensures Orderly(config, log + [e] + due) && Owed(config, log + [e] + due) == []
    ensures Wire(log + [e] + due) == Wire(log + [e]) && Accepted(log + [e] + due) == Accepted(log + [e])
    ensures Closed in log + [e] + due <==> Closed in log
  {
    hide Wire, Accepted, Orderly, Owed;
    OrderlyExtend(config, log, e);
    OwedNotifies(config, log + [e]);
    Trailing(log + [e], due);
  }

  /** Entry `e` accounts for the way from the buffer of `s` to `output`. */
  ghost predicate Accounts(s: State, e: Effect, output: seq<byte>) {
    Stream(s) && Notified(s) && Moves(e) && s.output + AcceptedOf(e) == WireOf(e) + output
  }

  /** `t` has taken entry `e` over from `s`, with the callback it makes due. */
  ghost predicate Took(s: State, t: State) {
    Stream(t) && Notified(t) && t.config == s.config && (Closed in t.log <==> Closed in s.log)
  }

  lemma Recorded(s: State, e: Effect, output: seq<byte>)
    requires Accounts(s, e, output)
    ensures Took(s, Record(s, e, output))
  {
    hide Wire, Accepted, Orderly, Owed, WireOf, AcceptedOf;
    RecordedLog(s, e, output);
    OrderlyDue(s.config, s.log, e, Owed(s.config, s.log + [e]));
  }

  lemma OwedNotifies(config: Config, log: seq<Effect>)
    ensures var due := Owed(config, log); due == [] || (|due| == 1 && Notifies(due[0]))
  {
  }

  lemma KeepsSendInLoop(s: State, m: seq<byte>, w: WriteResult)
    requires Inv(s) && s.state != Connecting && Fits(w, |m|)
    ensures Inv(SendInLoop(s, m, w))
  {
    var tries := !s.writing && s.output == [];
    if tries && w.Wrote? {
      assert s.output + m == m[..w.n] + m[w.n..];
      Recorded(s, Sent(m, Some(w.n)), m[w.n..]);
    } else if !(tries && w.Broken?) {
      assert s.output + m == [] + (s.output + m);
      Recorded(s, Sent(m, None), s.output + m);
    }
  }

  /** An entry that neither moves bytes nor notifies leaves everything else as it was. */
  lemma Noted(s: State, e: Effect, t: State)
    requires Stream(s) && Notified(s) && !Moves(e) && !Notifies(e)
    requires t.config == s.config && t.output == s.output && t.log == s.log + [e]
    ensures Stream(t) && Notified(t)
  {
    Snoc(s.log, e);
    assert Wire(s.log) + [] == Wire(s.log) && Accepted(s.log) + [] == Accepted(s.log);
    OrderlyExtend(s.config, s.log, e);
    assert t.log + [] == t.log;
  }

  lemma KeepsShutdownInLoop(s: State)
    requires Inv(s) && s.state != Connecting
    ensures Inv(ShutdownInLoop(s))
  {
    var t := ShutdownInLoop(s);
    if !s.writing { Noted(s, HalfClosed, t); }
    assert Closed in t.log <==> Closed in s.log;
  }

  lemma KeepsHandleWrite(s: State, w: WriteResult)
    requires Inv(s) && Fits(w, |s.output|)
    ensures Inv(HandleWrite(s, w))
  {
    if s.writing && w.Wrote? && w.n > 0 {
      var e, rest := Flushed(s.output[..w.n]), s.output[w.n..];
      assert s.output + [] == s.output[..w.n] + rest;
      Recorded(s, e, rest);
      var t := Record(s, e, rest).(writing := rest != []);
      assert Inv(t);
      if rest == [] && s.state == Disconnecting {
        KeepsShutdownInLoop(t);
      }
    }
  }

  lemma KeepsHandleClose(s: State)
    requires Inv(s) && s.reading
    ensures Inv(HandleClose(s))
  {
    var t := HandleClose(s);
    Noted(s, Closed, t);
    assert t.log[|s.log|] == Closed;
  }

  lemma KeepsNext(s: State, step: Step)
    requires Inv(s) && Enabled(s, step)
    ensures Inv(Next(s, step)) && Next(s, step).config == s.config
  {
    match step
    case DoSend(m, w) => if s.state == Connected { KeepsSendInLoop(s, m, w); }
    case DoShutdown => if s.state == Connected { KeepsShutdownInLoop(s.(state := Disconnecting)); }
    case DoRequest(w) =>
      var s1 := s.(requests := s.requests[1..]);
      assert Inv(s1);
      match s.requests[0] {
        case SendRequest(m) => KeepsSendInLoop(s1, m, w);
        case ShutdownRequest => KeepsShutdownInLoop(s1);
      }
    case Writable(w) => KeepsHandleWrite(s, w);
    case PeerClosed => KeepsHandleClose(s);
    case _ =>
  }

  lemma {:induction false} KeepsRun(s: State, steps: seq<Step>)
    requires Inv(s) && Legal(s, steps)
    ensures Inv(Run(s, steps)) && Run(s, steps).config == s.config
    decreases |steps|
  {
    if steps != [] {
      KeepsNext(s, steps[0]);
      KeepsRun(Next(s, steps[0]), steps[1..]);
    }
  }

  // ---------------------------------------------------------------------------
  // The byte stream
  // ---------------------------------------------------------------------------

  /** The message a step hands to sendInLoop and that is not lost whole to EPIPE or ECONNRESET. */
  function Taken(s: State, step: Step): seq<byte>
    requires Enabled(s, step)
  {
    var tries := !s.writing && s.output == [];
    match step
    case DoSend(m, w) => if s.state == Connected && !(tries && w.Broken?) then m else []
    case DoRequest(w) => if s.requests[0].SendRequest? && !(tries && w.Broken?) then s.requests[0].message else []
    case _ => []
  }

  function TakenBy(s: State, steps: seq<Step>): seq<byte>
    requires Legal(s, steps)
    decreases |steps|
  {
    if steps == [] then [] else Taken(s, steps[0]) + TakenBy(Next(s, steps[0]), steps[1..])
  }

  lemma RecordAccepts(s: State, e: Effect, output: seq<byte>)
    requires Moves(e)
    ensures Accepted(Record(s, e, output).log) == Accepted(s.log) + AcceptedOf(e)
  {
    Snoc(s.log, e);
    Trailing(s.log + [e], Notice(s.config, e.Flushed? || e.direct.Some?, |s.output|, |output|));
  }

  lemma NextAccepts(s: State, step: Step)
    requires Enabled(s, step)
    ensures Accepted(Next(s, step).log) == Accepted(s.log) + Taken(s, step)
  {
    Snoc(s.log, HalfClosed);
    Snoc(s.log, Closed);
    assert Accepted(s.log) + [] == Accepted(s.log);
    match step
    case DoSend(m, w) => if s.state == Connected { SendAccepts(s, m, w); }
    case DoRequest(w) =>
      if s.requests[0].SendRequest? { SendAccepts(s.(requests := s.requests[1..]), s.requests[0].message, w); }
    case Writable(w) => WriteAccepts(s, w);
    case _ =>
  }

  lemma WriteAccepts(s: State, w: WriteResult)
    requires Fits(w, |s.output|)
    ensures Accepted(HandleWrite(s, w).log) == Accepted(s.log)
  {
    if s.writing && w.Wrote? && w.n > 0 {
      var e, rest := Flushed(s.output[..w.n]), s.output[w.n..];
      RecordAccepts(s, e, rest);
      Snoc(Record(s, e, rest).log, HalfClosed);
    }
  }

  lemma SendAccepts(s: State, m: seq<byte>, w: WriteResult)
    requires Fits(w, |m|)
    ensures Accepted(SendInLoop(s, m, w).log)
         == Accepted(s.log) + if !s.writing && s.output == [] && w.Broken? then [] else m
  {
    var tries := !s.writing && s.output == [];
    if tries && w.Wrote? {
      RecordAccepts(s, Sent(m, Some(w.n)), m[w.n..]);
    } else if tries && w.Broken? {
      assert Accepted(s.log) + [] == Accepted(s.log);
    } else {
      RecordAccepts(s, Sent(m, None), s.output + m);
    }
  }

  lemma {:induction false} RunAccepts(s: State, steps: seq<Step>)
    requires Legal(s, steps)
    ensures Accepted(Run(s, steps).log) == Accepted(s.log) + TakenBy(s, steps)
    decreases |steps|
  {
    if steps == [] {
      assert Accepted(s.log) + [] == Accepted(s.log);
    } else {
      var t := Next(s, steps[0]);
      NextAccepts(s, steps[0]);
      RunAccepts(t, steps[1..]);
      Regroup(Accepted(s.log), Taken(s, steps[0]), TakenBy(t, steps[1..]));
    }
  }

  /**
   In every reachable state the wire followed by the buffer is exactly what
   sendInLoop took, in order: nothing lost, repeated, reordered or half-dropped.
   */
  lemma ByteStream(config: Config, steps: seq<Step>)
    requires Legal(Init(config), steps)
    ensures var s := Run(Init(config), steps);
            Wire(s.log) + s.output == TakenBy(Init(config), steps)
  {
    InvInit(config);
    KeepsRun(Init(config), steps);
    RunAccepts(Init(config), steps);
    assert [] + TakenBy(Init(config), steps) == TakenBy(Init(config), steps);
  }

  /** Write interest means waiting bytes, always; and waiting bytes mean write interest until the close. */
  lemma WriteInterest(config: Config, steps: seq<Step>)
    requires Legal(Init(config), steps)
    ensures var s := Run(Init(config), steps);
            && (s.writing ==> s.output != [])
            && (Closed !in s.log ==> (s.writing <==> s.output != []))
  {
    InvInit(config);
    KeepsRun(Init(config), steps);
  }

  // ---------------------------------------------------------------------------
  // Notifications
  // ---------------------------------------------------------------------------

  lemma {:induction false} OrderlyAt(config: Config, log: seq<Effect>, i: nat)
    requires Orderly(config, log) && i < |log|
    ensures Orderly(config, log[..i]) && Owed(config, log[..i]) == if Notifies(log[i]) then [log[i]] else []
    ensures Wire(log[..i]) <= Accepted(log[..i])
    decreases |log|
  {
    var init := log[..|log| - 1];
    if i < |log| - 1 {
      OrderlyAt(config, init, i);
      assert init[..i] == log[..i];
    }
  }

  /**
   Entry `i` of a reachable log is a notification exactly when the entry before it
   made that very notification due, and nothing due is left out at the end.
   */
  lemma NotificationsExact(config: Config, steps: seq<Step>, i: nat)
    requires Legal(Init(config), steps)
    requires i <= |Run(Init(config), steps).log|
    ensures var log := Run(Init(config), steps).log;
            Owed(config, log[..i]) == if i < |log| && Notifies(log[i]) then [log[i]] else []
  {
    InvInit(config);
    KeepsRun(Init(config), steps);
    var log := Run(Init(config), steps).log;
    if i < |log| { OrderlyAt(config, log, i); } else { assert log[..i] == log; }
  }

  /** A write-complete callback is queued only when every byte accepted so far is on the wire. */
  lemma WriteCompleteMeansDrained(config: Config, steps: seq<Step>, i: nat)
    requires Legal(Init(config), steps)
    requires var log := Run(Init(config), steps).log; i < |log| && log[i].WriteComplete?
    ensures var log := Run(Init(config), steps).log; Wire(log[..i]) == Accepted(log[..i])
  {
    NotificationsExact(config, steps, i);
    InvInit(config);
    KeepsRun(Init(config), steps);
    OrderlyAt(config, Run(Init(config), steps).log, i);
  }

  /** A high-water callback marks a crossing of the mark by the entry before it, and reports the level reached. */
  lemma HighWaterMeansCrossing(config: Config, steps: seq<Step>, j: nat)
    requires Legal(Init(config), steps)
    requires var log := Run(Init(config), steps).log; j < |log| && log[j].HighWater?
    ensures var log := Run(Init(config), steps).log;
            && j > 0 && Moves(log[j - 1])
            && Level(log[..j - 1]) < config.highWaterMark <= log[j].level == Level(log[..j])
  {
    var log := Run(Init(config), steps).log;
    NotificationsExact(config, steps, j);
    assert log[..j][..j - 1] == log[..j - 1];
  }

  /** Two high-water callbacks are always separated by a time below the mark. */
  lemma HighWaterSeparated(config: Config, steps: seq<Step>, i: nat, j: nat) returns (k: nat)
    requires Legal(Init(config), steps)
    requires var log := Run(Init(config), steps).log; i < j < |log| && log[i].HighWater? && log[j].HighWater?
    ensures var log := Run(Init(config), steps).log;
            i < k < j && Level(log[..k]) < config.highWaterMark
  {
    k := j - 1;
    HighWaterMeansCrossing(config, steps, j);
  }

  // ---------------------------------------------------------------------------
  // What the socket took, told from the write calls
  // ---------------------------------------------------------------------------

  /** The bytes a step's write call was given and reported as written. */
  function Written(s: State, step: Step): seq<byte>
    requires Enabled(s, step)
  {
    match step
    case DoSend(m, Wrote(n)) => if s.state == Connected && !s.writing && s.output == [] then m[..n] else []
    case DoRequest(Wrote(n)) =>
      if s.requests[0].SendRequest? && !s.writing && s.output == [] then s.requests[0].message[..n] else []
    case Writable(Wrote(n)) => if s.writing then s.output[..n] else []
    case _ => []
  }

  function WrittenBy(s: State, steps: seq<Step>): seq<byte>
    requires Legal(s, steps)
    decreases |steps|
  {
    if steps == [] then [] else Written(s, steps[0]) + WrittenBy(Next(s, steps[0]), steps[1..])
  }

  lemma RecordWires(s: State, e: Effect, output: seq<byte>)
    requires Moves(e)
    ensures Wire(Record(s, e, output).log) == Wire(s.log) + WireOf(e)
  {
    Snoc(s.log, e);
    Trailing(s.log + [e], Notice(s.config, e.Flushed? || e.direct.Some?, |s.output|, |output|));
  }

  lemma SendWires(s: State, m: seq<byte>, w: WriteResult)
    requires Fits(w, |m|)
    ensures Wire(SendInLoop(s, m, w).log)
         == Wire(s.log) + if !s.writing && s.output == [] && w.Wrote? then m[..w.n] else []
  {
    hide Wire, Accepted;
    var tries := !s.writing && s.output == [];
    assert Wire(s.log) + [] == Wire(s.log);
    if tries && w.Wrote? {
      RecordWires(s, Sent(m, Some(w.n)), m[w.n..]);
    } else if !(tries && w.Broken?) {
      RecordWires(s, Sent(m, None), s.output + m);
    }
  }

  lemma WriteWires(s: State, w: WriteResult)
    requires Fits(w, |s.output|)
    ensures Wire(HandleWrite(s, w).log) == Wire(s.log) + if s.writing && w.Wrote? then s.output[..w.n] else []
  {
    hide Wire, Accepted;
    assert Wire(s.log) + [] == Wire(s.log);
    if s.writing && w.Wrote? && w.n > 0 {
      var e, rest := Flushed(s.output[..w.n]), s.output[w.n..];
      RecordWires(s, e, rest);
      Snoc(Record(s, e, rest).log, HalfClosed);
      assert Wire(Record(s, e, rest).log) + [] == Wire(Record(s, e, rest).log);
    }
  }

  lemma NextWires(s: State, step: Step)
    requires Enabled(s, step)
    ensures Wire(Next(s, step).log) == Wire(s.log) + Written(s, step)
  {
    hide Wire, Accepted, SendInLoop, HandleWrite;
    Snoc(s.log, HalfClosed);
    Snoc(s.log, Closed);
    assert Wire(s.log) + [] == Wire(s.log);
    match step
    case DoSend(m, w) => SendWires(s, m, w);
    case DoRequest(w) =>
      if s.requests[0].SendRequest? { SendWires(s.(requests := s.requests[1..]), s.requests[0].message, w); }
    case Writable(w) => WriteWires(s, w);
    case _ =>
  }

  lemma {:induction false} RunWires(s: State, steps: seq<Step>)
    requires Legal(s, steps)
    ensures Wire(Run(s, steps).log) == Wire(s.log) + WrittenBy(s, steps)
    decreases |steps|
  {
    if steps == [] {
      assert Wire(s.log) + [] == Wire(s.log);
    } else {
      NextWires(s, steps[0]);
      RunWires(Next(s, steps[0]), steps[1..]);
      Regroup(Wire(s.log), Written(s, steps[0]), WrittenBy(Next(s, steps[0]), steps[1..]));
    }
  }

  /**
   The socket gets each byte once and in order: what the write calls report as written,
   followed by what is in the buffer, is exactly what sendInLoop was given and did not
   drop for a broken socket. And that, no more and no less, is the wire of the log.
   */
  lemma SocketTook(config: Config, steps: seq<Step>)
    requires Legal(Init(config), steps)
    ensures var s := Run(Init(config), steps);
            && WrittenBy(Init(config), steps) + s.output == TakenBy(Init(config), steps)
            && Wire(s.log) == WrittenBy(Init(config), steps)
  {
    ByteStream(config, steps);
    RunWires(Init(config), steps);
    assert [] + WrittenBy(Init(config), steps) == WrittenBy(Init(config), steps);
  }

  // ---------------------------------------------------------------------------
  // The state and the requests, told from the steps
  // ---------------------------------------------------------------------------

  function StateAfter(state: StateE, step: Step): StateE {
    match step
    case Establish => Connected
    case DoShutdown => if state == Connected then Disconnecting else state
    case ForeignShutdown => if state == Connected then Disconnecting else state
    case Destroy => Disconnected
    case _ => state
  }

  function StateBy(state: StateE, steps: seq<Step>): StateE
    decreases |steps|
  {
    if steps == [] then state else StateBy(StateAfter(state, steps[0]), steps[1..])
  }

  /** The request a step queues. */
  function Queued(step: Step): seq<Request> {
    match step
    case ForeignSendPush(m) => [SendRequest(m)]
    case ForeignShutdownPush => [ShutdownRequest]
    case _ => []
  }

  function QueuedBy(steps: seq<Step>): seq<Request> {
    if steps == [] then [] else Queued(steps[0]) + QueuedBy(steps[1..])
  }

  /** The request a step runs. */
  function Served(s: State, step: Step): seq<Request>
    requires Enabled(s, step)
  {
    if step.DoRequest? then [s.requests[0]] else []
  }

  function ServedBy(s: State, steps: seq<Step>): seq<Request>
    requires Legal(s, steps)
    decreases |steps|
  {
    if steps == [] then [] else Served(s, steps[0]) + ServedBy(Next(s, steps[0]), steps[1..])
  }

  /** The message that another thread's send, called while connected, brings past the check. */
  function Begun(state: StateE, step: Step): multiset<seq<byte>> {
    if step.ForeignSend? && state == Connected then multiset{step.message} else multiset{}
  }

  function BegunBy(state: StateE, steps: seq<Step>): multiset<seq<byte>>
    decreases |steps|
  {
    if steps == [] then multiset{}
    else Begun(state, steps[0]) + BegunBy(StateAfter(state, steps[0]), steps[1..])
  }

  function Pushed(step: Step): multiset<seq<byte>> {
    if step.ForeignSendPush? then multiset{step.message} else multiset{}
  }

  function PushedBy(steps: seq<Step>): multiset<seq<byte>> {
    if steps == [] then multiset{} else Pushed(steps[0]) + PushedBy(steps[1..])
  }

  /** Neither the state nor what others have asked for has changed. */
  predicate Aside(s: State, t: State) {
    t.state == s.state && t.requests == s.requests && t.senders == s.senders && t.shutters == s.shutters
  }

  lemma Asides(s: State, m: seq<byte>, w: WriteResult)
    ensures Fits(w, |m|) ==> Aside(s, SendInLoop(s, m, w))
    ensures Fits(w, |s.output|) ==> Aside(s, HandleWrite(s, w))
  {
    hide Notice;
  }

  lemma AskRequest(s: State, w: WriteResult)
    requires Enabled(s, DoRequest(w))
    ensures var t := Next(s, DoRequest(w));
            t.state == s.state && [s.requests[0]] + t.requests == s.requests && t.senders == s.senders
  {
    hide SendInLoop, HandleWrite;
    var s1 := s.(requests := s.requests[1..]);
    if s.requests[0].SendRequest? { Asides(s1, s.requests[0].message, w); }
  }

  lemma AskForeign(s: State, step: Step)
    requires Enabled(s, step)
    requires step.ForeignSend? || step.ForeignSendPush? || step.ForeignShutdown? || step.ForeignShutdownPush?
    ensures var t := Next(s, step);
            && t.state == StateAfter(s.state, step)
            && t.requests == s.requests + Queued(step)
            && t.senders + Pushed(step) == s.senders + Begun(s.state, step)
  {
    hide SendInLoop, HandleWrite, RunRequest, Send, Shutdown;
    if step.ForeignSendPush? {
      assert s.senders - multiset{step.message} + multiset{step.message} == s.senders;
    }
  }

  lemma AskLoop(s: State, step: Step)
    requires Enabled(s, step) && !step.DoRequest?
    requires !step.ForeignSend? && !step.ForeignSendPush? && !step.ForeignShutdown? && !step.ForeignShutdownPush?
    ensures var t := Next(s, step);
            t.state == StateAfter(s.state, step) && t.requests == s.requests && t.senders == s.senders
  {
    hide SendInLoop, HandleWrite;
    match step
    case DoSend(m, w) => Asides(s, m, w);
    case Writable(w) => Asides(s, [], w);
    case _ =>
  }

  lemma AskNext(s: State, step: Step)
    requires Enabled(s, step)
    ensures var t := Next(s, step);
            && t.state == StateAfter(s.state, step)
            && Served(s, step) + t.requests == s.requests + Queued(step)
            && t.senders + Pushed(step) == s.senders + Begun(s.state, step)
  {
    hide Next;
    if step.DoRequest? {
      AskRequest(s, step.w);
    } else if step.ForeignSend? || step.ForeignSendPush? || step.ForeignShutdown? || step.ForeignShutdownPush? {
      AskForeign(s, step);
    } else {
      AskLoop(s, step);
    }
  }

  lemma {:induction false} StateOf(s: State, steps: seq<Step>)
    requires Legal(s, steps)
    ensures Run(s, steps).state == StateBy(s.state, steps)
    decreases |steps|
  {
    hide Next;
    if steps != [] {
      AskNext(s, steps[0]);
      StateOf(Next(s, steps[0]), steps[1..]);
    }
  }

  lemma {:induction false} RequestsOf(s: State, steps: seq<Step>)
    requires Legal(s, steps)
    ensures ServedBy(s, steps) + Run(s, steps).requests == s.requests + QueuedBy(steps)
    decreases |steps|
  {
    hide Next, Served, Queued;
    if steps == [] {
      assert [] + s.requests == s.requests + [];
    } else {
      var t, rest := Next(s, steps[0]), steps[1..];
      AskNext(s, steps[0]);
      RequestsOf(t, rest);
      Regroup(Served(s, steps[0]), ServedBy(t, rest), Run(t, rest).requests);
      Regroup(Served(s, steps[0]), t.requests, QueuedBy(rest));
      Regroup(s.requests, Queued(steps[0]), QueuedBy(rest));
    }
  }

  lemma Balance(end: multiset<seq<byte>>, outs: multiset<seq<byte>>, middle: multiset<seq<byte>>,
                ins: multiset<seq<byte>>, out: multiset<seq<byte>>, start: multiset<seq<byte>>, more: multiset<seq<byte>>)
    requires end + outs == middle + ins && middle + out == start + more
    ensures end + (out + outs) == start + (more + ins)
  {
    forall m: seq<byte> ensures (end + (out + outs))[m] == (start + (more + ins))[m] {
      assert (end + outs)[m] == (middle + ins)[m] && (middle + out)[m] == (start + more)[m];
    }
  }

  lemma {:induction false} SendersOf(s: State, steps: seq<Step>)
    requires Legal(s, steps)
    ensures Run(s, steps).senders + PushedBy(steps) == s.senders + BegunBy(s.state, steps)
    decreases |steps|
  {
    hide Next, Begun, Pushed;
    if steps != [] {
      var t, rest := Next(s, steps[0]), steps[1..];
      AskNext(s, steps[0]);
      SendersOf(t, rest);
      Balance(Run(t, rest).senders, PushedBy(rest), t.senders, BegunBy(t.state, rest),
              Pushed(steps[0]), s.senders, Begun(s.state, steps[0]));
    }
  }

  lemma CloseNext(s: State, step: Step)
    requires Enabled(s, step)
    ensures Closed in Next(s, step).log <==> Closed in s.log || step == PeerClosed
  {
    hide SendInLoop, HandleWrite;
    match step
    case DoSend(m, w) => ClosedAside(s, m, w);
    case DoRequest(w) =>
      if s.requests[0].SendRequest? { ClosedAside(s.(requests := s.requests[1..]), s.requests[0].message, w); }
    case Writable(w) => ClosedAside(s, [], w);
    case _ =>
  }

  lemma ClosedAside(s: State, m: seq<byte>, w: WriteResult)
    ensures Fits(w, |m|) ==> (Closed in SendInLoop(s, m, w).log <==> Closed in s.log)
    ensures Fits(w, |s.output|) ==> (Closed in HandleWrite(s, w).log <==> Closed in s.log)
  {
  }

  lemma {:induction false} ClosedBy(s: State, steps: seq<Step>)
    requires Legal(s, steps)
    ensures Closed in Run(s, steps).log <==> Closed in s.log || PeerClosed in steps
    decreases |steps|
  {
    hide Next, Enabled;
    if steps != [] {
      CloseNext(s, steps[0]);
      ClosedBy(Next(s, steps[0]), steps[1..]);
      assert steps == [steps[0]] + steps[1..];
    }
  }

  /**
   The state is what establishment, shutdowns and destruction have made of it, and
   nothing else changes it; a connection that is up is read from until the peer closes.
   Requests of other threads run in the order in which they were queued, each once; and
   a send of another thread gets past its check exactly when it finds the connection
   connected.
   */
  lemma AsAsked(config: Config, steps: seq<Step>)
    requires Legal(Init(config), steps)
    ensures var s := Run(Init(config), steps);
            && s.state == StateBy(Connecting, steps)
            && (s.reading <==> s.state in {Connected, Disconnecting} && PeerClosed !in steps)
            && (Closed in s.log <==> PeerClosed in steps)
            && ServedBy(Init(config), steps) + s.requests == QueuedBy(steps)
            && s.senders + PushedBy(steps) == BegunBy(Connecting, steps)
  {
    StateOf(Init(config), steps);
    RequestsOf(Init(config), steps);
    SendersOf(Init(config), steps);
    ClosedBy(Init(config), steps);
    InvInit(config);
    KeepsRun(Init(config), steps);
  }
}
