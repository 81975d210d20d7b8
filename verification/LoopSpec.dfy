/**
 The functor queue and wakeup protocol of an EventLoop: swap-and-drain, an
 eventfd counter, and a flag that lets the loop's own thread skip the wakeup
 outside a batch. The flag falls before the swapped functors are destroyed, and
 their destructors may queue. A foreign thread's queueInLoop is two steps, push and wakeup,
 and so is its quit; anything may happen in between.
 */
module LoopSpec {

  /** A queued callback: who queued it and which one it is. */
  datatype Functor = Functor(producer: nat, tag: nat)

  datatype Phase =
    | Outside      // loop() has not started
    | Dispatch     // event callbacks run
    | Swapping     // callingPendingFunctors_ is set, the queue not yet swapped
    | Batch        // the swapped functors run
    | Checking     // the flag is down again: the batch is destroyed, then quit_ looked at
    | Poll         // blocked, or about to block, in the backend
    | Stopped

  /** An eventfd write that would pass this value fails and leaves the counter alone. */
  const COUNTER_MAX: nat := 0xffff_ffff_ffff_fffe

  datatype State = State(
    phase: Phase,
    pending: seq<Functor>,
    batch: seq<Functor>,        // what is left of the swapped functors
    calling: bool,
    quit: bool,
    counter: nat,
    pushers: set<nat>,          // foreign threads between their push and their wakeup
    quitters: set<nat>,         // foreign threads between setting quit_ and their wakeup
    selfOwes: bool,             // the loop's thread is between its push and its wakeup
    queued: seq<Functor>,       // every functor ever queued
    ran: seq<Functor>)          // every functor run so far

  function Init(): State {
    State(Outside, [], [], false, false, 0, {}, {}, false, [], [])
  }

  function Bump(n: nat): (m: nat)
    ensures m > 0 && (n <= COUNTER_MAX ==> m <= COUNTER_MAX)
  {
    if n < COUNTER_MAX then n + 1 else n
  }

  function Push(s: State, f: Functor): State {
    s.(pending := s.pending + [f], queued := s.queued + [f])
  }

  datatype Step =
    // other threads
    | ForeignPush(thread: nat, f: Functor)
    | ForeignWake(thread: nat)
    | ForeignQuit(thread: nat)
    | ForeignQuitWake(thread: nat)
    // code run on the loop's thread by callbacks and functors
    | LoopPush(f: Functor)
    | LoopWake
    | LoopQuit
    // the loop itself
    | Prepare
    | Swap
    | RunNext
    | EndBatch
    | CheckQuit
    | PollWoken                 // the eventfd is readable
    | PollOther                 // some other event, or a timer
    | HandleRead                // the wakeup channel's read callback

  /** Callbacks and functors, and in `Checking` the destructors of what the swapped functors had bound. */
  predicate UserCodeRuns(s: State) {
    s.phase in {Outside, Dispatch, Batch, Checking} && !s.selfOwes
  }

  predicate Enabled(s: State, step: Step) {
    match step
    case ForeignPush(t, _) => t !in s.pushers && t !in s.quitters
    case ForeignWake(t) => t in s.pushers
    case ForeignQuit(t) => t !in s.pushers && t !in s.quitters
    case ForeignQuitWake(t) => t in s.quitters
    case LoopPush(_) => UserCodeRuns(s)
    case LoopWake => s.selfOwes
    case LoopQuit => UserCodeRuns(s)
    case Prepare => s.phase in {Outside, Dispatch} && !s.selfOwes
    case Swap => s.phase == Swapping
    case RunNext => s.phase == Batch && s.batch != [] && !s.selfOwes
    case EndBatch => s.phase == Batch && s.batch == [] && !s.selfOwes
    case CheckQuit => s.phase == Checking
    case PollWoken => s.phase == Poll && s.counter > 0
    case PollOther => s.phase == Poll
    case HandleRead => s.phase == Dispatch && !s.selfOwes
  }

  function Next(s: State, step: Step): State
    requires Enabled(s, step)
  {
    match step
    case ForeignPush(t, f) => Push(s, f).(pushers := s.pushers + {t})
    case ForeignWake(t) => s.(pushers := s.pushers - {t}, counter := Bump(s.counter))
    case ForeignQuit(t) => s.(quit := true, quitters := s.quitters + {t})
    case ForeignQuitWake(t) => s.(quitters := s.quitters - {t}, counter := Bump(s.counter))
    case LoopPush(f) => Push(s, f).(selfOwes := s.calling)
    case LoopWake => s.(selfOwes := false, counter := Bump(s.counter))
    case LoopQuit => s.(quit := true)
    case Prepare => s.(phase := Swapping, calling := true)
    case Swap => s.(phase := Batch, batch := s.pending, pending := [])
    case RunNext => s.(batch := s.batch[1..], ran := s.ran + [s.batch[0]])
    case EndBatch => s.(phase := Checking, calling := false)
    case CheckQuit => s.(phase := if s.quit then Stopped else Poll)
    case PollWoken => s.(phase := Dispatch)
    case PollOther => s.(phase := Dispatch)
    case HandleRead => s.(counter := 0)
  }

  predicate Legal(s: State, steps: seq<Step>)
    decreases |steps|
  {
    steps == [] || (Enabled(s, steps[0]) && Legal(Next(s, steps[0]), steps[1..]))
  }

  function Run(s: State, steps: seq<Step>): State
    requires Legal(s, steps)
    decreases |steps|
  {
    if steps == [] then s else Run(Next(s, steps[0]), steps[1..])
  }
}
