/**
 The half-close, in every run, with send and shutdown called on any thread: what it
 leaves unwritten, and exactly when a shutdown is final.
 */
module ShutdownProofs {
  import opened Basics
  import opened ConnectionStates
  import opened OutputSpec
  import opened OutputProofs

  // ---------------------------------------------------------------------------
  // What a log says of the half-close
  // ---------------------------------------------------------------------------

  /** Sends and flushes. */
  function Writes(log: seq<Effect>): nat {
    if log == [] then 0 else Writes(log[..|log| - 1]) + One(Moves(log[|log| - 1]))
  }

  function HalfCloses(log: seq<Effect>): nat {
    if log == [] then 0 else HalfCloses(log[..|log| - 1]) + One(log[|log| - 1].HalfClosed?)
  }

  /** No send or flush comes after a half-close. */
  predicate NoneAfter(log: seq<Effect>) {
    log == [] ||
    (NoneAfter(log[..|log| - 1]) && (Moves(log[|log| - 1]) ==> HalfCloses(log[..|log| - 1]) == 0))
  }

  /** Each half-close came with every accepted byte on the wire, unless the connection had closed. */
  predicate Drained(log: seq<Effect>) {
    log == [] ||
    var init := log[..|log| - 1];
    Drained(init) && (log[|log| - 1].HalfClosed? ==> Closed in init || Wire(init) == Accepted(init))
  }

  lemma BooksSnoc(log: seq<Effect>, e: Effect)
    ensures Writes(log + [e]) == Writes(log) + One(Moves(e))
    ensures HalfCloses(log + [e]) == HalfCloses(log) + One(e.HalfClosed?)
    ensures NoneAfter(log + [e]) <==> NoneAfter(log) && (Moves(e) ==> HalfCloses(log) == 0)
    ensures Drained(log + [e]) <==> Drained(log) && (e.HalfClosed? ==> Closed in log || Wire(log) == Accepted(log))
  {
    assert (log + [e])[..|log|] == log;
  }

  lemma BooksRecord(s: State, e: Effect, output: seq<byte>)
    requires Moves(e)
    ensures var t := Record(s, e, output);
            && Writes(t.log) == Writes(s.log) + 1
            && HalfCloses(t.log) == HalfCloses(s.log)
            && (NoneAfter(t.log) <==> NoneAfter(s.log) && HalfCloses(s.log) == 0)
            && (Drained(t.log) <==> Drained(s.log))
  {
    hide Writes, HalfCloses, NoneAfter, Drained;
    var due := Notice(s.config, e.Flushed? || e.direct.Some?, |s.output|, |output|);
    BooksSnoc(s.log, e);
    if due == [] {
      assert s.log + [e] + due == s.log + [e];
    } else {
      assert due == [due[0]];
      BooksSnoc(s.log + [e], due[0]);
    }
  }

  /** What sendInLoop does to the books, to the write interest and to nothing else here. */
  lemma BooksSend(s: State, m: seq<byte>, w: WriteResult)
    requires Fits(w, |m|)
    ensures var t := SendInLoop(s, m, w);
            && Aside(s, t)
            && HalfCloses(t.log) == HalfCloses(s.log)
            && (s.writing ==> t.writing) && (t.writing ==> s.writing || m != [])
            && (NoneAfter(s.log) && HalfCloses(s.log) == 0 ==> NoneAfter(t.log))
            && (Drained(s.log) ==> Drained(t.log))
    ensures var t := SendInLoop(s, m, w);
            w.WouldBlock? ==>
              && (t.writing <==> s.writing || m != []) && t.output == s.output + m
              && Writes(t.log) == Writes(s.log) + 1
              && (NoneAfter(t.log) ==> HalfCloses(s.log) == 0)
  {
    var tries := !s.writing && s.output == [];
    if tries && w.Wrote? {
      BooksRecord(s, Sent(m, Some(w.n)), m[w.n..]);
    } else if !(tries && w.Broken?) {
      BooksRecord(s, Sent(m, None), s.output + m);
    }
  }

  /** What handleWrite does to them when it gets to write. */
  lemma BooksWrite(s: State, w: WriteResult)
    requires Fits(w, |s.output|) && s.writing && w.Wrote? && w.n > 0
    ensures var t := HandleWrite(s, w);
            var drained := w.n == |s.output|;
            && Aside(s, t) && t.writing == !drained
            && HalfCloses(t.log) == HalfCloses(s.log) + One(drained && s.state == Disconnecting)
            && (NoneAfter(t.log) <==> NoneAfter(s.log) && HalfCloses(s.log) == 0)
  {
    hide Writes, HalfCloses, NoneAfter, Drained;
    var e, rest := Flushed(s.output[..w.n]), s.output[w.n..];
    BooksRecord(s, e, rest);
    BooksSnoc(Record(s, e, rest).log, HalfClosed);
  }

  // ---------------------------------------------------------------------------
  // What a half-close leaves behind
  // ---------------------------------------------------------------------------

  ghost predicate Settled(s: State) {
    && Drained(s.log)
    && (s.state in {Connecting, Connected} ==> HalfCloses(s.log) == 0 && !Asked(s))
    && (s.state == Disconnecting && s.output == [] && !Asked(s) ==> HalfCloses(s.log) > 0)
  }

  /** A shutdown is queued, or on its way there. */
  predicate Asked(s: State) {
    ShutdownRequest in s.requests || s.shutters > 0
  }

  /** Without write interest, what is unwritten is what a close left behind. */
  lemma SettledShutdown(s: State)
    requires Inv(s) && Drained(s.log)
    ensures var t := ShutdownInLoop(s);
            Drained(t.log) && HalfCloses(t.log) == HalfCloses(s.log) + One(!s.writing)
  {
    hide Drained, HalfCloses, NoneAfter, Writes;
    BooksSnoc(s.log, HalfClosed);
  }

  lemma SettledWrite(s: State, w: WriteResult)
    requires Inv(s) && Settled(s) && Enabled(s, Writable(w))
    ensures Settled(HandleWrite(s, w))
  {
    hide Drained, HalfCloses, NoneAfter, Writes;
    if s.writing && w.Wrote? && w.n > 0 {
      var e, rest := Flushed(s.output[..w.n]), s.output[w.n..];
      BooksWrite(s, w);
      BooksRecord(s, e, rest);
      if rest == [] && s.state == Disconnecting {
        assert s.output + [] == s.output[..w.n] + rest;
        Recorded(s, e, rest);
        SettledShutdown(Record(s, e, rest).(writing := false));
      }
    }
  }

  lemma SettledSent(s: State, m: seq<byte>, w: WriteResult)
    requires Settled(s) && Fits(w, |m|)
    ensures Settled(SendInLoop(s, m, w))
  {
    hide Drained, HalfCloses, NoneAfter, Writes;
    BooksSend(s, m, w);
  }

  lemma SettledRequest(s: State, w: WriteResult)
    requires Inv(s) && Settled(s) && Enabled(s, DoRequest(w))
    ensures Settled(RunRequest(s, w))
  {
    hide Drained, HalfCloses, NoneAfter, Writes, SendInLoop;
    var s1 := s.(requests := s.requests[1..]);
    assert s.requests == [s.requests[0]] + s1.requests;
    match s.requests[0]
    case SendRequest(m) => SettledSent(s1, m, w);
    case ShutdownRequest =>
      assert Inv(s1);
      SettledShutdown(s1);
  }

  lemma SettledPush(s: State, step: Step)
    requires Settled(s) && Enabled(s, step) && (step.ForeignSendPush? || step.ForeignShutdownPush?)
    ensures Settled(Next(s, step))
  {
    hide Drained, HalfCloses, NoneAfter, Writes, SendInLoop, HandleWrite;
    var t := Next(s, step);
    assert ShutdownRequest in t.requests <==> ShutdownRequest in s.requests || step.ForeignShutdownPush?;
  }

  lemma SettledNext(s: State, step: Step)
    requires Inv(s) && Settled(s) && Enabled(s, step)
    ensures Settled(Next(s, step))
  {
    hide Drained, HalfCloses, NoneAfter, Writes, SendInLoop, HandleWrite, RunRequest;
    match step
    case DoSend(m, w) => SettledSent(s, m, w);
    case DoShutdown => if s.state == Connected { SettledShutdown(s.(state := Disconnecting)); }
    case DoRequest(w) => SettledRequest(s, w);
    case ForeignSendPush(_) => SettledPush(s, step);
    case ForeignShutdownPush => SettledPush(s, step);
    case Writable(w) => SettledWrite(s, w);
    case PeerClosed => BooksSnoc(s.log, Closed);
    case _ =>
  }

  lemma {:induction false} SettledRun(s: State, steps: seq<Step>)
    requires Inv(s) && Settled(s) && Legal(s, steps)
    ensures Inv(Run(s, steps)) && Settled(Run(s, steps))
    decreases |steps|
  {
    if steps != [] {
      KeepsNext(s, steps[0]);
      SettledNext(s, steps[0]);
      SettledRun(Next(s, steps[0]), steps[1..]);
    }
  }

  lemma {:induction false} DrainedAt(log: seq<Effect>, i: nat)
    requires Drained(log) && i < |log| && log[i].HalfClosed?
    ensures Closed in log[..i] || Wire(log[..i]) == Accepted(log[..i])
    decreases |log|
  {
    if i < |log| - 1 {
      DrainedAt(log[..|log| - 1], i);
      assert log[..|log| - 1][..i] == log[..i];
    }
  }

  lemma {:induction false} HalfClosedIn(log: seq<Effect>)
    ensures HalfCloses(log) > 0 <==> HalfClosed in log
  {
    if log != [] {
      HalfClosedIn(log[..|log| - 1]);
      assert log == log[..|log| - 1] + [log[|log| - 1]];
    }
  }

  /**
   Whatever thread calls: every accepted byte is on the wire before a half-close
   unless the connection was closed by then; and once disconnecting, with an empty
   buffer and no shutdown queued or on its way to the queue, the half-close has happened.
   */
  lemma HalfCloseDrained(config: Config, steps: seq<Step>)
    requires Legal(Init(config), steps)
    ensures var s := Run(Init(config), steps);
            && (forall i :: 0 <= i < |s.log| && s.log[i].HalfClosed? ==>
                  Closed in s.log[..i] || Wire(s.log[..i]) == Accepted(s.log[..i]))
            && (s.state == Disconnecting && s.output == [] && !Asked(s) ==> HalfClosed in s.log)
  {
    InvInit(config);
    SettledRun(Init(config), steps);
    var log := Run(Init(config), steps).log;
    HalfClosedIn(log);
    forall i | 0 <= i < |log| && log[i].HalfClosed?
      ensures Closed in log[..i] || Wire(log[..i]) == Accepted(log[..i])
    {
      DrainedAt(log, i);
    }
  }

  lemma StreamLeaves(s: State)
    requires Inv(s)
    ensures Accepted(s.log) == Wire(s.log) + s.output && (Wire(s.log) != Accepted(s.log) <==> s.output != [])
  {
    assert |Accepted(s.log)| == |Wire(s.log)| + |s.output|;
    if s.output == [] { assert Wire(s.log) + [] == Wire(s.log); }
  }

  /**
   A shutdown on the loop thread half-closes at once exactly without write interest,
   and then leaves bytes off the wire exactly when the buffer still holds some,
   which are those bytes.
   */
  lemma ShutdownLeaves(config: Config, steps: seq<Step>)
    requires Legal(Init(config), steps) && Run(Init(config), steps).state == Connected
    ensures var s := Run(Init(config), steps);
            var t := Next(s, DoShutdown);
            && (t.log == s.log + [HalfClosed] <==> !s.writing)
            && (t.log == s.log + [HalfClosed] && Wire(t.log) != Accepted(t.log) <==> !s.writing && s.output != [])
            && Accepted(t.log) == Wire(t.log) + s.output
  {
    hide Inv, Wire, Accepted;
    InvInit(config);
    KeepsRun(Init(config), steps);
    var s := Run(Init(config), steps);
    KeepsNext(s, DoShutdown);
    StreamLeaves(Next(s, DoShutdown));
  }

  // ---------------------------------------------------------------------------
  // How many half-closes
  // ---------------------------------------------------------------------------

  /** A request to send nothing. */
  predicate Idle(r: Request) {
    r.SendRequest? && r.message == []
  }

  /** Half-closes the queued requests can still bring about. */
  function Queued(requests: seq<Request>): nat {
    if requests == [] then 0 else One(!Idle(requests[0])) + Queued(requests[1..])
  }

  /** How many of the messages on their way to the queue are not empty. */
  function RealSends(senders: multiset<seq<byte>>): nat {
    |senders[[] := 0]|
  }

  /**
   Half-closes so far and still possible: by a drain, by the drain of a send that is
   queued or on its way there, by a shutdown that is.
   */
  function Potential(s: State): nat {
    HalfCloses(s.log) + One(s.writing) + Queued(s.requests) + RealSends(s.senders) + s.shutters
  }

  predicate Ending(s: State) {
    s.state in {Disconnecting, Disconnected}
  }

  lemma {:induction false} QueuedPush(requests: seq<Request>, r: Request)
    ensures Queued(requests + [r]) == Queued(requests) + One(!Idle(r))
  {
    if requests == [] {
      assert requests + [r] == [r] && [r][1..] == [];
    } else {
      QueuedPush(requests[1..], r);
      assert (requests + [r])[1..] == requests[1..] + [r];
    }
  }

  /** On its way or queued, a request counts the same. */
  lemma PotentialPush(s: State, step: Step)
    requires Enabled(s, step) && (step.ForeignSendPush? || step.ForeignShutdownPush?)
    ensures Potential(Next(s, step)) == Potential(s)
  {
    hide HalfCloses, NoneAfter, Drained, Writes, SendInLoop, HandleWrite, RunRequest;
    if step.ForeignSendPush? {
      QueuedPush(s.requests, SendRequest(step.message));
      OneLess(s.senders, step.message);
    } else {
      QueuedPush(s.requests, ShutdownRequest);
    }
  }

  lemma OneLess(senders: multiset<seq<byte>>, m: seq<byte>)
    requires m in senders
    ensures RealSends(senders - multiset{m}) == RealSends(senders) - One(m != [])
  {
    if m == [] {
      assert (senders - multiset{m})[[] := 0] == senders[[] := 0];
    } else {
      assert (senders - multiset{m})[[] := 0] == senders[[] := 0] - multiset{m};
    }
  }

  lemma PotentialNext(s: State, step: Step)
    requires Ending(s) && Enabled(s, step)
    ensures Ending(Next(s, step)) && Potential(Next(s, step)) <= Potential(s)
  {
    hide HalfCloses, NoneAfter, Drained, Writes, RealSends;
    match step
    case DoRequest(w) =>
      var s1 := s.(requests := s.requests[1..]);
      match s.requests[0] {
        case SendRequest(m) => BooksSend(s1, m, w);
        case ShutdownRequest => BooksSnoc(s.log, HalfClosed);
      }
    case ForeignSendPush(_) => PotentialPush(s, step);
    case ForeignShutdownPush => PotentialPush(s, step);
    case Writable(w) => if s.writing && w.Wrote? && w.n > 0 { BooksWrite(s, w); }
    case PeerClosed => BooksSnoc(s.log, Closed);
    case _ =>
  }

  lemma {:induction false} PotentialRun(s: State, steps: seq<Step>)
    requires Ending(s) && Legal(s, steps)
    ensures Potential(Run(s, steps)) <= Potential(s)
    decreases |steps|
  {
    if steps != [] {
      PotentialNext(s, steps[0]);
      PotentialRun(Next(s, steps[0]), steps[1..]);
    }
  }

  lemma Unfold(s: State, step: Step, rest: seq<Step>)
    requires Enabled(s, step) && Legal(Next(s, step), rest)
    ensures Legal(s, [step] + rest) && Run(s, [step] + rest) == Run(Next(s, step), rest)
  {
    assert ([step] + rest)[1..] == rest;
  }

  /** What brings the next half-close nearer: first everything is queued, then drain, run a request, drain, and so on. */
  ghost function Nearer(s: State): (step: Step)
    requires s.senders != multiset{} || s.shutters > 0 || s.writing || s.requests != []
  {
    if s.senders != multiset{} then var m :| m in s.senders; ForeignSendPush(m)
    else if s.shutters > 0 then ForeignShutdownPush
    else if s.writing then Writable(Wrote(|s.output|))
    else DoRequest(WouldBlock)
  }

  predicate NotBegun(step: Step) {
    step.Writable? || step.DoRequest? || step.ForeignSendPush? || step.ForeignShutdownPush?
  }

  lemma {:induction false} AllHalfCloses(s: State) returns (steps: seq<Step>)
    requires Inv(s) && s.state == Disconnecting
    ensures Legal(s, steps) && HalfCloses(Run(s, steps).log) == Potential(s)
    ensures forall step :: step in steps ==> NotBegun(step)
    decreases |s.senders| + s.shutters, |s.requests|, s.writing
  {
    hide HalfCloses, NoneAfter, Drained, Writes, Inv, Next, Enabled;
    steps := [];
    if s.senders != multiset{} || s.shutters > 0 || s.writing || s.requests != [] {
      var step := Nearer(s);
      WritingHolds(s);
      AllSame(s);
      KeepsNext(s, step);
      steps := AllHalfCloses(Next(s, step));
      Unfold(s, step, steps);
      steps := [step] + steps;
    }
  }

  lemma WritingHolds(s: State)
    requires Inv(s)
    ensures s.writing ==> s.output != []
  {
  }

  /** On the way nothing gets lost. */
  lemma AllSame(s: State)
    requires s.state == Disconnecting && (s.writing ==> s.output != [])
    requires s.senders != multiset{} || s.shutters > 0 || s.writing || s.requests != []
    ensures var step := Nearer(s);
            && Enabled(s, step) && NotBegun(step)
            && var t := Next(s, step);
               && t.state == Disconnecting && Potential(t) == Potential(s)
               && if step.ForeignSendPush? || step.ForeignShutdownPush? then |t.senders| + t.shutters < |s.senders| + s.shutters
                  else t.senders == s.senders && t.shutters == s.shutters
                       && if s.writing then !t.writing && t.requests == s.requests else t.requests == s.requests[1..]
  {
    hide HalfCloses, NoneAfter, Drained, Writes, RealSends;
    var step := Nearer(s);
    if step.ForeignSendPush? || step.ForeignShutdownPush? {
      PotentialPush(s, step);
    } else if s.writing {
      BooksWrite(s, Wrote(|s.output|));
    } else {
      var s1 := s.(requests := s.requests[1..]);
      match s.requests[0] {
        case SendRequest(m) => BooksSend(s1, m, WouldBlock);
        case ShutdownRequest => BooksSnoc(s.log, HalfClosed);
      }
    }
  }

  /** However a disconnecting connection goes on, it half-closes `Potential` times at most, and that often in some run. */
  lemma HalfClosesExact(config: Config, trace: seq<Step>) returns (worst: seq<Step>)
    requires Legal(Init(config), trace) && Run(Init(config), trace).state == Disconnecting
    ensures var s := Run(Init(config), trace);
            && (forall steps :: Legal(s, steps) ==> HalfCloses(Run(s, steps).log) <= Potential(s))
            && Legal(s, worst) && HalfCloses(Run(s, worst).log) == Potential(s)
  {
    InvInit(config);
    KeepsRun(Init(config), trace);
    var s := Run(Init(config), trace);
    forall steps | Legal(s, steps)
      ensures HalfCloses(Run(s, steps).log) <= Potential(s)
    {
      PotentialRun(s, steps);
    }
    worst := AllHalfCloses(s);
  }

  // ---------------------------------------------------------------------------
  // Writes after the half-close
  // ---------------------------------------------------------------------------

  predicate NoSends(requests: seq<Request>) {
    forall r :: r in requests ==> r.ShutdownRequest?
  }

  /** No send is queued, and none is on its way to the queue. */
  predicate NoMore(s: State) {
    NoSends(s.requests) && s.senders == multiset{}
  }

  lemma QuietNext(s: State, step: Step)
    requires Ending(s) && !s.writing && NoMore(s) && Enabled(s, step)
    ensures var t := Next(s, step);
            Ending(t) && !t.writing && NoMore(t) && Writes(t.log) == Writes(s.log)
  {
    hide HalfCloses, NoneAfter, Drained, Writes;
    match step
    case DoRequest(w) =>
      assert s.requests[0] in s.requests;
      BooksSnoc(s.log, HalfClosed);
    case PeerClosed => BooksSnoc(s.log, Closed);
    case _ =>
  }

  lemma {:induction false} QuietRun(s: State, steps: seq<Step>)
    requires Ending(s) && !s.writing && NoMore(s) && Legal(s, steps)
    ensures Writes(Run(s, steps).log) == Writes(s.log)
    decreases |steps|
  {
    if steps != [] {
      QuietNext(s, steps[0]);
      QuietRun(Next(s, steps[0]), steps[1..]);
    }
  }

  /** Requests run up to the first send, which writes: a send after any half-close so far. */
  lemma {:induction false} SomeWrite(s: State) returns (steps: seq<Step>)
    requires !NoSends(s.requests)
    ensures Legal(s, steps) && Writes(Run(s, steps).log) > Writes(s.log)
    ensures HalfCloses(s.log) > 0 ==> !NoneAfter(Run(s, steps).log)
    decreases |s.requests|
  {
    hide HalfCloses, NoneAfter, Drained, Writes;
    var step := DoRequest(WouldBlock);
    steps := [];
    if s.requests[0].SendRequest? {
      BooksSend(s.(requests := s.requests[1..]), s.requests[0].message, WouldBlock);
    } else {
      BooksSnoc(s.log, HalfClosed);
      steps := SomeWrite(Next(s, step));
    }
    Unfold(s, step, steps);
    steps := [step] + steps;
  }

  /** The same with the send still on its way to the queue. */
  lemma MoreWrites(s: State) returns (steps: seq<Step>)
    requires !NoMore(s)
    ensures Legal(s, steps) && Writes(Run(s, steps).log) > Writes(s.log)
    ensures HalfCloses(s.log) > 0 ==> !NoneAfter(Run(s, steps).log)
  {
    hide HalfCloses, NoneAfter, Drained, Writes;
    if s.senders != multiset{} {
      var m :| m in s.senders;
      var t := Next(s, ForeignSendPush(m));
      assert t.requests[|s.requests|] == SendRequest(m) && SendRequest(m) in t.requests;
      steps := SomeWrite(t);
      Unfold(s, ForeignSendPush(m), steps);
      steps := [ForeignSendPush(m)] + steps;
    } else {
      steps := SomeWrite(s);
    }
  }

  /**
   Where a half-close happens, the connection is on its way out without write
   interest. From there nothing more is ever sent or flushed exactly when no send
   request is queued and no thread is between its check of the state and its push.
   */
  lemma LastWriteExact(config: Config, trace: seq<Step>)
    requires Legal(Init(config), trace)
    requires var s := Run(Init(config), trace); Ending(s) && !s.writing
    ensures var s := Run(Init(config), trace);
            (forall steps :: Legal(s, steps) ==> Writes(Run(s, steps).log) == Writes(s.log)) <==> NoMore(s)
  {
    var s := Run(Init(config), trace);
    if NoMore(s) {
      forall steps | Legal(s, steps)
        ensures Writes(Run(s, steps).log) == Writes(s.log)
      {
        QuietRun(s, steps);
      }
    } else {
      var steps := MoreWrites(s);
    }
  }

  /** Every send request but the last one is an empty message. */
  predicate OneRealSend(requests: seq<Request>) {
    forall i, j :: 0 <= i < j < |requests| && requests[i].SendRequest? && requests[j].SendRequest? ==>
      requests[i].message == []
  }

  /** Every send that another one can follow is an empty message. */
  predicate Followed(s: State) {
    && OneRealSend(s.requests)
    && (s.senders != multiset{} ==> forall r :: r in s.requests && r.SendRequest? ==> Idle(r))
    && (|s.senders| > 1 ==> forall m :: m in s.senders ==> m == [])
  }

  /** No send can be queued behind a shutdown. */
  predicate LastShutdown(s: State) {
    && (forall i, j :: 0 <= i < j < |s.requests| && s.requests[i].ShutdownRequest? ==> s.requests[j].ShutdownRequest?)
    && (Asked(s) ==> s.senders == multiset{})
  }

  /** No send comes behind a half-close that has happened or may happen before it. */
  predicate Behaved(s: State) {
    && (s.writing || HalfCloses(s.log) > 0 ==> NoMore(s))
    && (HalfCloses(s.log) > 0 ==> !s.writing)
    && Followed(s) && LastShutdown(s)
  }

  lemma BehavedRequest(s: State, w: WriteResult)
    requires Ending(s) && NoneAfter(s.log) && Behaved(s) && Enabled(s, DoRequest(w))
    ensures var t := Next(s, DoRequest(w)); Ending(t) && NoneAfter(t.log) && Behaved(t)
  {
    hide HalfCloses, NoneAfter, Drained, Writes;
    var s1 := s.(requests := s.requests[1..]);
    var r := s.requests[0];
    assert r in s.requests;
    assert forall j :: 0 <= j < |s1.requests| ==> s.requests[j + 1] == s1.requests[j];
    Popped(s, s1);
    match r
    case SendRequest(m) =>
      BooksSend(s1, m, w);
      if m != [] {
        forall j | 0 <= j < |s1.requests| ensures s1.requests[j].ShutdownRequest? {
          assert s.requests[j + 1] == s1.requests[j];
        }
      }
    case ShutdownRequest =>
      BooksSnoc(s.log, HalfClosed);
      forall j | 0 <= j < |s1.requests| ensures s1.requests[j].ShutdownRequest? {
        assert s.requests[j + 1] == s1.requests[j];
      }
  }

  lemma Popped(s: State, t: State)
    requires Followed(s) && LastShutdown(s) && s.requests != [] && t == s.(requests := s.requests[1..])
    ensures Followed(t) && LastShutdown(t)
  {
    assert forall r :: r in t.requests ==> r in s.requests;
    forall i, j | 0 <= i < j < |t.requests|
      ensures s.requests[i + 1] == t.requests[i] && s.requests[j + 1] == t.requests[j]
    {
    }
    forall i, j | 0 <= i < j < |t.requests| && t.requests[i].SendRequest? && t.requests[j].SendRequest?
      ensures t.requests[i].message == []
    {
      assert s.requests[i + 1] == t.requests[i] && s.requests[j + 1] == t.requests[j];
    }
    forall i, j | 0 <= i < j < |t.requests| && t.requests[i].ShutdownRequest?
      ensures t.requests[j].ShutdownRequest?
    {
      assert s.requests[i + 1] == t.requests[i] && s.requests[j + 1] == t.requests[j];
    }
  }

  lemma BehavedPush(s: State, step: Step)
    requires Behaved(s) && Enabled(s, step) && (step.ForeignSendPush? || step.ForeignShutdownPush?)
    ensures Behaved(Next(s, step))
  {
    hide HalfCloses, NoneAfter, Drained, Writes, SendInLoop, HandleWrite, RunRequest;
    var t := Next(s, step);
    var r := t.requests[|s.requests|];
    assert t.requests == s.requests + [r];
    forall i | 0 <= i < |s.requests| ensures t.requests[i] == s.requests[i] && s.requests[i] in s.requests {}
    if step.ForeignSendPush? {
      var m := step.message;
      assert |t.senders| == |s.senders| - 1;
      assert forall x :: x in t.senders ==> x in s.senders;
    }
  }

  lemma BehavedNext(s: State, step: Step)
    requires Ending(s) && NoneAfter(s.log) && Behaved(s) && Enabled(s, step)
    ensures var t := Next(s, step); Ending(t) && NoneAfter(t.log) && Behaved(t)
  {
    hide HalfCloses, NoneAfter, Drained, Writes, Followed, LastShutdown, SendInLoop;
    match step
    case DoRequest(w) => BehavedRequest(s, w);
    case ForeignSendPush(_) => BehavedPush(s, step);
    case ForeignShutdownPush => BehavedPush(s, step);
    case Writable(w) =>
      if s.writing && w.Wrote? && w.n > 0 { BooksWrite(s, w); }
      SameAsks(s, Next(s, step));
    case PeerClosed => BooksSnoc(s.log, Closed); SameAsks(s, Next(s, step));
    case Establish =>
    case _ => SameAsks(s, Next(s, step));
  }

  lemma SameAsks(s: State, t: State)
    requires t.requests == s.requests && t.senders == s.senders && t.shutters == s.shutters
    ensures (Followed(t) <==> Followed(s)) && (LastShutdown(t) <==> LastShutdown(s))
  {
  }

  lemma {:induction false} BehavedRun(s: State, steps: seq<Step>)
    requires Ending(s) && NoneAfter(s.log) && Behaved(s) && Legal(s, steps)
    ensures NoneAfter(Run(s, steps).log)
    decreases |steps|
  {
    hide NoneAfter, Behaved, Next, Enabled;
    if steps != [] {
      BehavedNext(s, steps[0]);
      BehavedRun(Next(s, steps[0]), steps[1..]);
    }
  }

  /** Half-closed already or by draining the buffer first: a send or a flush follows. */
  lemma LateWrite(s: State) returns (steps: seq<Step>)
    requires Inv(s) && s.state == Disconnecting && (s.writing || HalfCloses(s.log) > 0)
    requires !NoMore(s) || (s.writing && HalfCloses(s.log) > 0)
    ensures Legal(s, steps) && !NoneAfter(Run(s, steps).log)
  {
    hide HalfCloses, NoneAfter, Drained, Writes;
    var drain := Writable(Wrote(|s.output|));
    if !s.writing {
      steps := MoreWrites(s);
    } else {
      BooksWrite(s, Wrote(|s.output|));
      steps := [];
      if !NoMore(s) { steps := MoreWrites(Next(s, drain)); }
      Unfold(s, drain, steps);
      steps := [drain] + steps;
    }
  }

  /** A real send with another one behind it, or a shutdown with a send behind it. */
  predicate BadPair(requests: seq<Request>, i: nat, j: nat)
    requires i < j < |requests|
  {
    requests[j].SendRequest? && (requests[i].ShutdownRequest? || requests[i].message != [])
  }

  /** The queue runs until the first of the pair has, or may have, half-closed. */
  lemma {:induction false} BadQueue(s: State, i: nat, j: nat) returns (steps: seq<Step>)
    requires Inv(s) && s.state == Disconnecting && i < j < |s.requests| && BadPair(s.requests, i, j)
    ensures Legal(s, steps) && !NoneAfter(Run(s, steps).log)
    decreases |s.requests|
  {
    hide HalfCloses, NoneAfter, Drained, Writes, Inv;
    if s.writing || HalfCloses(s.log) > 0 {
      assert s.requests[j] in s.requests;
      steps := LateWrite(s);
    } else {
      var step := DoRequest(WouldBlock);
      var t := Next(s, step);
      KeepsNext(s, step);
      var s1 := s.(requests := s.requests[1..]);
      assert s1.requests[j - 1] == s.requests[j] && s.requests[j] in s1.requests;
      if s.requests[0].SendRequest? { BooksSend(s1, s.requests[0].message, WouldBlock); } else { BooksSnoc(s.log, HalfClosed); }
      if i > 0 {
        assert t.requests[i - 1] == s.requests[i];
        steps := BadQueue(t, i - 1, j - 1);
      } else {
        steps := LateWrite(t);
      }
      Unfold(s, step, steps);
      steps := [step] + steps;
    }
  }

  /** A send on its way to the queue is pushed behind what must not precede it. */
  lemma BadSender(s: State, i: nat) returns (steps: seq<Step>)
    requires Inv(s) && s.state == Disconnecting && s.senders != multiset{} && i < |s.requests|
    requires s.requests[i].ShutdownRequest? || s.requests[i].message != []
    ensures Legal(s, steps) && !NoneAfter(Run(s, steps).log)
  {
    hide NoneAfter, Inv, SendInLoop, HandleWrite, RunRequest;
    var m :| m in s.senders;
    var t := Next(s, ForeignSendPush(m));
    KeepsNext(s, ForeignSendPush(m));
    assert t.requests[i] == s.requests[i] && t.requests[|s.requests|] == SendRequest(m);
    steps := BadQueue(t, i, |s.requests|);
    Unfold(s, ForeignSendPush(m), steps);
    steps := [ForeignSendPush(m)] + steps;
  }

  /** A shutdown or a real send is pushed, and a send on its way comes behind it. */
  lemma BadPush(s: State, step: Step) returns (steps: seq<Step>)
    requires Inv(s) && s.state == Disconnecting && Enabled(s, step)
    requires step.ForeignShutdownPush? || (step.ForeignSendPush? && step.message != [])
    requires Next(s, step).senders != multiset{}
    ensures Legal(s, steps) && !NoneAfter(Run(s, steps).log)
  {
    hide NoneAfter, Inv, SendInLoop, HandleWrite, RunRequest;
    var t := Next(s, step);
    KeepsNext(s, step);
    assert t.requests[|s.requests|] == if step.ForeignSendPush? then SendRequest(step.message) else ShutdownRequest;
    steps := BadSender(t, |s.requests|);
    Unfold(s, step, steps);
    steps := [step] + steps;
  }

  lemma Misbehaves(s: State) returns (steps: seq<Step>)
    requires Inv(s) && s.state == Disconnecting && !Behaved(s)
    ensures Legal(s, steps) && !NoneAfter(Run(s, steps).log)
  {
    hide HalfCloses, NoneAfter, Drained, Writes, Inv, Next, NoMore;
    if (s.writing || HalfCloses(s.log) > 0) && (!NoMore(s) || (s.writing && HalfCloses(s.log) > 0)) {
      steps := LateWrite(s);
    } else if i, j :| 0 <= i < j < |s.requests| && BadPair(s.requests, i, j) {
      steps := BadQueue(s, i, j);
    } else {
      forall i, j | 0 <= i < j < |s.requests| ensures !BadPair(s.requests, i, j) {}
      if s.senders == multiset{} { Harmless(s); }
      steps := BadlyInFlight(s);
    }
  }

  lemma Harmless(s: State)
    requires forall i, j :: 0 <= i < j < |s.requests| ==> !BadPair(s.requests, i, j)
    requires s.senders == multiset{}
    ensures Followed(s) && LastShutdown(s)
  {
    forall i, j | 0 <= i < j < |s.requests|
      ensures s.requests[i].SendRequest? && s.requests[j].SendRequest? ==> s.requests[i].message == []
      ensures s.requests[i].ShutdownRequest? ==> s.requests[j].ShutdownRequest?
    {
      assert !BadPair(s.requests, i, j);
    }
  }

  lemma BadlyInFlight(s: State) returns (steps: seq<Step>)
    requires Inv(s) && s.state == Disconnecting && s.senders != multiset{} && !(Followed(s) && LastShutdown(s))
    requires forall i, j :: 0 <= i < j < |s.requests| ==> !BadPair(s.requests, i, j)
    ensures Legal(s, steps) && !NoneAfter(Run(s, steps).log)
  {
    hide HalfCloses, NoneAfter, Drained, Writes, Inv, SendInLoop, HandleWrite, RunRequest;
    if i :| 0 <= i < |s.requests| && (s.requests[i].ShutdownRequest? || s.requests[i].message != []) {
      steps := BadSender(s, i);
    } else {
      assert forall r :: r in s.requests ==> Idle(r);
      if s.shutters > 0 {
        steps := BadPush(s, ForeignShutdownPush);
      } else {
        var m :| m in s.senders && m != [];
        assert |s.senders - multiset{m}| == |s.senders| - 1 > 0;
        steps := BadPush(s, ForeignSendPush(m));
      }
    }
  }

  /** A connection on its way out that has not yet written after a half-close never will, exactly when it is `Behaved`. */
  lemma NoneAfterExact(s: State)
    requires Inv(s) && s.state == Disconnecting && NoneAfter(s.log)
    ensures (forall steps :: Legal(s, steps) ==> NoneAfter(Run(s, steps).log)) <==> Behaved(s)
  {
    if Behaved(s) {
      forall steps | Legal(s, steps) ensures NoneAfter(Run(s, steps).log) { BehavedRun(s, steps); }
    } else {
      var steps := Misbehaves(s);
    }
  }

  // ---------------------------------------------------------------------------
  // Calling shutdown
  // ---------------------------------------------------------------------------

  lemma {:induction false} NoHalfClose(log: seq<Effect>)
    requires HalfCloses(log) == 0
    ensures NoneAfter(log)
  {
    if log != [] { NoHalfClose(log[..|log| - 1]); }
  }

  function ShutdownBy(foreign: bool): Step {
    if foreign then ForeignShutdown else DoShutdown
  }

  /** All messages queued or on their way there are empty. */
  predicate AllIdle(s: State) {
    (forall r :: r in s.requests ==> Idle(r)) && (forall m :: m in s.senders ==> m == [])
  }

  lemma {:induction false} QueuedIdle(requests: seq<Request>)
    ensures Queued(requests) == 0 <==> forall r :: r in requests ==> Idle(r)
  {
    if requests != [] {
      QueuedIdle(requests[1..]);
      assert forall r :: r in requests <==> r == requests[0] || r in requests[1..];
      assert (forall r :: r in requests ==> Idle(r)) <==> Idle(requests[0]) && (forall r :: r in requests[1..] ==> Idle(r));
    }
  }

  lemma NoRealSends(senders: multiset<seq<byte>>)
    ensures RealSends(senders) == 0 <==> forall m :: m in senders ==> m == []
  {
    var loud := senders[[] := 0];
    if forall m :: m in senders ==> m == [] {
      assert loud == multiset{};
    } else {
      var m :| m in senders && m != [];
      assert m in loud;
    }
  }

  /** What shutdown() leaves behind it. */
  lemma AfterShutdown(s: State, foreign: bool)
    requires Inv(s) && Settled(s) && s.state == Connected
    ensures var t := Next(s, ShutdownBy(foreign));
            && Inv(t) && Settled(t) && t.state == Disconnecting && NoneAfter(t.log)
            && t.writing == s.writing && HalfCloses(t.log) == One(!foreign && !s.writing)
            && t.requests == s.requests && t.senders == s.senders && t.shutters == One(foreign)
            && ShutdownRequest !in s.requests
  {
    hide HalfCloses, NoneAfter, Drained, Writes, Inv;
    KeepsNext(s, ShutdownBy(foreign));
    SettledNext(s, ShutdownBy(foreign));
    NoHalfClose(s.log);
    BooksSnoc(s.log, HalfClosed);
  }

  lemma BehavedCall(s: State, foreign: bool)
    requires Inv(s) && Settled(s) && s.state == Connected
    ensures Behaved(Next(s, ShutdownBy(foreign))) <==>
            s.senders == multiset{} && if foreign && !s.writing then OneRealSend(s.requests) else s.requests == []
  {
    hide HalfCloses, NoneAfter, Drained, Writes, Next, Inv;
    AfterShutdown(s, foreign);
    forall r | r in s.requests ensures r.SendRequest? {}
    if s.requests != [] { assert s.requests[0] in s.requests; }
  }

  lemma IdleCall(s: State, foreign: bool)
    requires Inv(s) && Settled(s) && s.state == Connected
    ensures Potential(Next(s, ShutdownBy(foreign))) <= 1 <==> AllIdle(s) && (foreign ==> !s.writing)
    ensures Potential(Next(s, ShutdownBy(foreign))) >= 1
  {
    hide HalfCloses, NoneAfter, Drained, Writes, Next, Inv, RealSends, Queued;
    AfterShutdown(s, foreign);
    QueuedIdle(s.requests);
    NoRealSends(s.senders);
  }

  /**
   What a shutdown needs when it is called, on either thread, with `foreign` from the
   moment that thread has set the state. That nothing is sent or flushed after a
   half-close in any continuation: exactly that no other thread is inside send(), past
   its check of the state, and that the request queue is empty, or, for another thread
   and no write interest, holds nothing behind its one send that is not empty. That
   there is at most one half-close: exactly that no message is queued or on its way
   there but empty ones and, for another thread, no write interest.
   */
  lemma ShutdownExact(config: Config, trace: seq<Step>, foreign: bool)
    requires Legal(Init(config), trace) && Run(Init(config), trace).state == Connected
    ensures var s := Run(Init(config), trace);
            var t := Next(s, ShutdownBy(foreign));
            && ((forall steps :: Legal(t, steps) ==> NoneAfter(Run(t, steps).log)) <==>
                  s.senders == multiset{} && if foreign && !s.writing then OneRealSend(s.requests) else s.requests == [])
            && ((forall steps :: Legal(t, steps) ==> HalfCloses(Run(t, steps).log) <= 1) <==>
                  AllIdle(s) && (foreign ==> !s.writing))
  {
    InvInit(config);
    assert Settled(Init(config));
    hide HalfCloses, NoneAfter, Drained, Writes, Inv, Next, Behaved, Potential, AllIdle;
    SettledRun(Init(config), trace);
    var s := Run(Init(config), trace);
    var t := Next(s, ShutdownBy(foreign));
    AfterShutdown(s, foreign);
    BehavedCall(s, foreign);
    NoneAfterExact(t);
    IdleCall(s, foreign);
    forall steps | Legal(t, steps)
      ensures HalfCloses(Run(t, steps).log) <= Potential(t)
    {
      PotentialRun(t, steps);
      WithinPotential(Run(t, steps));
    }
    var worst := AllHalfCloses(t);
  }

  lemma WithinPotential(s: State)
    ensures HalfCloses(s.log) <= Potential(s)
  {
  }

  // ---------------------------------------------------------------------------
  // Runs
  // ---------------------------------------------------------------------------

  predicate OnLoopThread(step: Step) {
    !step.ForeignSend? && !step.ForeignSendPush? && !step.ForeignShutdown? && !step.ForeignShutdownPush?
  }

  ghost predicate Graceful(s: State) {
    && Inv(s) && Settled(s) && NoneAfter(s.log)
    && s.requests == [] && s.senders == multiset{} && s.shutters == 0
    && (Ending(s) ==> Behaved(s) && Potential(s) <= 1)
  }

  lemma GracefulNext(s: State, step: Step)
    requires Graceful(s) && Enabled(s, step) && OnLoopThread(step)
    ensures Graceful(Next(s, step))
  {
    hide HalfCloses, NoneAfter, Drained, Writes, Inv;
    KeepsNext(s, step);
    SettledNext(s, step);
    var t := Next(s, step);
    if Ending(s) {
      BehavedNext(s, step);
      PotentialNext(s, step);
    } else if step == DoShutdown && s.state == Connected {
      AfterShutdown(s, false);
    } else if HalfCloses(t.log) == 0 {
      NoHalfClose(t.log);
    }
  }

  lemma {:induction false} GracefulRun(s: State, steps: seq<Step>)
    requires Graceful(s) && Legal(s, steps)
    requires forall step :: step in steps ==> OnLoopThread(step)
    ensures Graceful(Run(s, steps))
    decreases |steps|
  {
    if steps != [] {
      GracefulNext(s, steps[0]);
      GracefulRun(Next(s, steps[0]), steps[1..]);
    }
  }

  /** Used on the loop thread alone, a connection half-closes at most once and writes nothing after that. */
  lemma GracefulShutdown(config: Config, steps: seq<Step>)
    requires Legal(Init(config), steps)
    requires forall step :: step in steps ==> OnLoopThread(step)
    ensures var s := Run(Init(config), steps); HalfCloses(s.log) <= 1 && NoneAfter(s.log)
  {
    InvInit(config);
    GracefulRun(Init(config), steps);
  }

  /**
   The close matters: a shutdown between the close and the destruction half-closes
   over bytes that never reached the wire.
   */
  lemma CloseThenShutdown(config: Config) returns (steps: seq<Step>)
    ensures Legal(Init(config), steps) && (forall step :: step in steps ==> OnLoopThread(step))
    ensures var s := Run(Init(config), steps);
            s.log != [] && s.log[|s.log| - 1].HalfClosed? && Level(s.log) == 1
  {
    hide Wire, Accepted, Orderly, Owed;
    var s0 := ConnectEstablished(Init(config));
    var s1 := SendInLoop(s0, [1], WouldBlock);
    var s2 := HandleClose(s1);
    var s3 := Shutdown(s2);
    Unfold(s2, DoShutdown, []);
    Unfold(s1, PeerClosed, [DoShutdown] + []);
    Unfold(s0, DoSend([1], WouldBlock), [PeerClosed] + ([DoShutdown] + []));
    Unfold(Init(config), Establish, [DoSend([1], WouldBlock)] + ([PeerClosed] + ([DoShutdown] + [])));
    steps := [Establish] + ([DoSend([1], WouldBlock)] + ([PeerClosed] + ([DoShutdown] + [])));
    assert Run(Init(config), steps) == s3;
    InvInit(config);
    KeepsRun(Init(config), steps);
    LevelIsBuffered(s3);
  }

  /** A send that leaves the buffer waiting, followed by another thread's calls. */
  lemma Waiting(config: Config, rest: seq<Step>)
    requires Legal(SendInLoop(ConnectEstablished(Init(config)), [1], WouldBlock), rest)
    ensures var steps := [Establish] + ([DoSend([1], WouldBlock)] + rest);
            Legal(Init(config), steps)
            && Run(Init(config), steps) == Run(SendInLoop(ConnectEstablished(Init(config)), [1], WouldBlock), rest)
  {
    hide SendInLoop;
    Unfold(ConnectEstablished(Init(config)), DoSend([1], WouldBlock), rest);
    Unfold(Init(config), Establish, [DoSend([1], WouldBlock)] + rest);
  }

  /**
   A message sent, then a shutdown, from another thread can be overtaken by a drain
   that sees the connection disconnecting already, and the message is then written
   after the half-close.
   */
  lemma ForeignShutdownOvertakes(config: Config) returns (steps: seq<Step>, i: nat, j: nat)
    ensures Legal(Init(config), steps)
    ensures var log := Run(Init(config), steps).log;
            i < j < |log| && log[i].HalfClosed? && WireOf(log[j]) == [2]
  {
    hide SendInLoop;
    var s1 := SendInLoop(ConnectEstablished(Init(config)), [1], WouldBlock);
    NoneYet(config);
    var s2 := BeginSend(s1, [2]);
    var s3 := PushSend(s2, [2]);
    var s4 := BeginShutdown(s3);
    var tail;
    tail, i, j := Overtaken(s4);
    Unfold(s3, ForeignShutdown, tail);
    Unfold(s2, ForeignSendPush([2]), [ForeignShutdown] + tail);
    tail := [ForeignSendPush([2])] + ([ForeignShutdown] + tail);
    Unfold(s1, ForeignSend([2]), tail);
    Waiting(config, [ForeignSend([2])] + tail);
    steps := [Establish] + ([DoSend([1], WouldBlock)] + ([ForeignSend([2])] + tail));
  }

  /** The drain half-closes; the queued message is written next. */
  lemma Overtaken(s: State) returns (steps: seq<Step>, i: nat, j: nat)
    requires s.state == Disconnecting && s.writing && |s.output| == 1 && s.requests == [SendRequest([2])]
    ensures Legal(s, steps)
    ensures var log := Run(s, steps).log;
            i < j < |log| && log[i].HalfClosed? && WireOf(log[j]) == [2]
  {
    var t := HandleWrite(s, Wrote(1));
    var u := RunRequest(t, Wrote(1));
    i, j := |t.log| - 1, |t.log|;
    assert t.log[i].HalfClosed? && u.log[j] == Sent([2], Some(1));
    Unfold(t, DoRequest(Wrote(1)), []);
    Unfold(s, Writable(Wrote(1)), [DoRequest(Wrote(1))] + []);
    steps := [Writable(Wrote(1))] + ([DoRequest(Wrote(1))] + []);
  }

  /**
   The same to a shutdown on the loop thread: a sender past its check of the state
   queues after the half-close, and is written.
   */
  lemma LateSendOvertakes(config: Config) returns (steps: seq<Step>, i: nat, j: nat)
    ensures Legal(Init(config), steps) && (forall step :: step in steps ==> !step.ForeignShutdown?)
    ensures var log := Run(Init(config), steps).log;
            i < j < |log| && log[i].HalfClosed? && WireOf(log[j]) == [1]
  {
    var s0 := ConnectEstablished(Init(config));
    var s1 := BeginSend(s0, [1]);
    var s2 := Shutdown(s1);
    var s3 := PushSend(s2, [1]);
    var s4 := RunRequest(s3, Wrote(1));
    i, j := |s2.log| - 1, |s2.log|;
    assert s2.log == [HalfClosed] && s4.log[j] == Sent([1], Some(1));
    Unfold(s3, DoRequest(Wrote(1)), []);
    Unfold(s2, ForeignSendPush([1]), [DoRequest(Wrote(1))] + []);
    Unfold(s1, DoShutdown, [ForeignSendPush([1])] + ([DoRequest(Wrote(1))] + []));
    var tail := [DoShutdown] + ([ForeignSendPush([1])] + ([DoRequest(Wrote(1))] + []));
    Unfold(s0, ForeignSend([1]), tail);
    Unfold(Init(config), Establish, [ForeignSend([1])] + tail);
    steps := [Establish] + ([ForeignSend([1])] + tail);
  }

  /** Another thread's shutdown alone, with bytes waiting, can half-close twice: by the drain and by its own request. */
  lemma HalfClosesTwice(config: Config) returns (steps: seq<Step>)
    ensures Legal(Init(config), steps) && HalfCloses(Run(Init(config), steps).log) == 2
    ensures forall step :: step in steps ==> !step.ForeignSend?
  {
    hide HalfCloses, Inv, SendInLoop;
    var s1 := SendInLoop(ConnectEstablished(Init(config)), [1], WouldBlock);
    NoneYet(config);
    KeepsNext(s1, ForeignShutdown);
    var s2 := BeginShutdown(s1);
    assert Queued(s2.requests) == 0;
    NoRealSends(s2.senders);
    var worst := AllHalfCloses(s2);
    Unfold(s1, ForeignShutdown, worst);
    Waiting(config, [ForeignShutdown] + worst);
    steps := [Establish] + ([DoSend([1], WouldBlock)] + ([ForeignShutdown] + worst));
  }

  lemma NoneYet(config: Config)
    ensures var s := SendInLoop(ConnectEstablished(Init(config)), [1], WouldBlock);
            Inv(s) && HalfCloses(s.log) == 0 && s.state == Connected && s.writing && s.output == [1]
            && s.requests == [] && s.senders == multiset{} && s.shutters == 0
  {
    var s0 := ConnectEstablished(Init(config));
    InvInit(config);
    assert Inv(s0);
    KeepsSendInLoop(s0, [1], WouldBlock);
    BooksSend(s0, [1], WouldBlock);
  }
}
