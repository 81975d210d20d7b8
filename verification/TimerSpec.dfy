/**
 The timers of an event loop: Timer objects on a heap that hands freed addresses
 out again, the set of (pointer, sequence) pairs the loop believes in, and the
 functors by which other threads add and cancel. Firing, stopping and clearing
 happen on the loop's thread. An add from another thread is two steps: it posts the
 new timer, and later reads the timer's number for the id it returns; anything may
 happen in between.
 */
module TimerSpec {
  import opened Basics

  /** A Timer pointer with the sequence number of the timer it was issued for. */
  datatype TimerId = TimerId(addr: nat, sequence: nat)

  /** A Timer object; `active` is whether its watcher is started. */
  datatype Timer = Timer(sequence: nat, repeat: bool, active: bool)

  datatype Functor = AddInLoop(id: TimerId) | CancelInLoop(id: TimerId)

  datatype Event =
    | Fired(sequence: nat)
    | Cancelled(sequence: nat)       // cancelInLoop found it and stopped it

  datatype State = State(
    heap: map<nat, Timer>,
    created: nat,                    // s_numCreated_
    valid: set<TimerId>,             // validTimers_
    queue: seq<Functor>,
    made: set<TimerId>,              // every timer ever created, where and with which number
    flying: set<TimerId>,            // timers posted by calls that have not returned
    issued: set<TimerId>,            // every TimerId ever returned
    log: seq<Event>,
    ok: bool,                        // the loop's thread has touched allocated timers only
    readOk: bool)                    // and so have the calls that returned

  /** The TimerId nobody was issued. */
  const NULL_ID: TimerId := TimerId(0, 0)

  function Init(): State {
    State(map[], 0, {}, [], {}, {}, {}, [], true, true)
  }

  /** new Timer at a free address. */
  function NewTimer(s: State, addr: nat, repeat: bool): State {
    s.(heap := s.heap[addr := Timer(s.created + 1, repeat, false)], created := s.created + 1,
       made := s.made + {TimerId(addr, s.created + 1)})
  }

  function AddTimerInLoop(s: State, addr: nat): State {
    if addr !in s.heap then s.(ok := false)
    else
      var timer := s.heap[addr];
      s.(heap := s.heap[addr := timer.(active := true)], valid := s.valid + {TimerId(addr, timer.sequence)})
  }

  function CancelTimer(s: State, id: TimerId): State {
    if id !in s.valid then s
    else if id.addr !in s.heap then s.(ok := false)
    else s.(heap := s.heap[id.addr := s.heap[id.addr].(active := false)], log := s.log + [Cancelled(id.sequence)])
  }

  predicate Active(heap: map<nat, Timer>, addr: nat) {
    addr in heap && heap[addr].active
  }

  /** The addresses clearExpiredTimer deletes. */
  function Expired(s: State): set<nat> {
    set id | id in s.valid && !Active(s.heap, id.addr) :: id.addr
  }

  function ClearExpiredTimer(s: State): State {
    s.(heap := s.heap - Expired(s), valid := (set id | id in s.valid && Active(s.heap, id.addr)),
       ok := s.ok && (forall id :: id in s.valid ==> id.addr in s.heap)
                  && (forall a, b :: a in s.valid && b in s.valid && a.addr == b.addr ==> a == b))
  }

  /** The watcher expires: libev stops it first unless it repeats, then the callback runs. */
  function Fire(s: State, addr: nat): State
    requires addr in s.heap
  {
    var timer := s.heap[addr];
    s.(heap := s.heap[addr := timer.(active := timer.repeat)], log := s.log + [Fired(timer.sequence)])
  }

  /** What the call that posted `own` reads when it comes to build the id it returns. */
  function Answer(s: State, own: TimerId): Option<TimerId> {
    if own.addr in s.heap then Some(TimerId(own.addr, s.heap[own.addr].sequence)) else None
  }

  function ReturnId(s: State, own: TimerId): State {
    var s1 := s.(flying := s.flying - {own});
    match Answer(s, own)
    case Some(id) => s1.(issued := s.issued + {id})
    case None => s1.(readOk := false)
  }

  datatype Step =
    | ForeignAdd(addr: nat, repeat: bool)
    | Return(own: TimerId)           // the foreign add that posted this timer returns
    | LoopAdd(addr: nat, repeat: bool)
    | ForeignCancel(id: TimerId)
    | LoopCancel(id: TimerId)
    | RunFunctor
    | Clear
    | Expire(addr: nat)

  predicate Enabled(s: State, step: Step) {
    match step
    case ForeignAdd(addr, _) => addr != 0 && addr !in s.heap
    case Return(own) => own in s.flying
    case LoopAdd(addr, _) => addr != 0 && addr !in s.heap
    case ForeignCancel(id) => id in s.issued || id == NULL_ID
    case LoopCancel(id) => id in s.issued || id == NULL_ID
    case RunFunctor => s.queue != []
    case Clear => true
    case Expire(addr) => Active(s.heap, addr)
  }

  function RunNext(s: State): State
    requires s.queue != []
  {
    var s1 := s.(queue := s.queue[1..]);
    match s.queue[0]
    case AddInLoop(id) => AddTimerInLoop(s1, id.addr)
    case CancelInLoop(id) => CancelTimer(s1, id)
  }

  function Next(s: State, step: Step): State
    requires Enabled(s, step)
  {
    match step
    case ForeignAdd(addr, repeat) =>
      var s1 := NewTimer(s, addr, repeat);
      var own := TimerId(addr, s1.created);
      s1.(queue := s1.queue + [AddInLoop(own)], flying := s1.flying + {own})
    case Return(own) => ReturnId(s, own)
    case LoopAdd(addr, repeat) =>
      var s1 := NewTimer(s, addr, repeat);
      AddTimerInLoop(s1, addr).(issued := s1.issued + {TimerId(addr, s1.created)})
    case ForeignCancel(id) => s.(queue := s.queue + [CancelInLoop(id)])
    case LoopCancel(id) => CancelTimer(s, id)
    case RunFunctor => RunNext(s)
    case Clear => ClearExpiredTimer(s)
    case Expire(addr) => Fire(s, addr)
  }

  predicate Legal(s: State, steps: seq<Step>)
    decreases |steps|
  {
    steps == [] || (Enabled(s, steps[0]) && Legal(Next(s, steps[0]), steps[1..]))
  }

  function Run(s: State, steps: seq<Step>): State
    requires Legal(s, steps)
    decreases |steps|
  {
    if steps == [] then s else Run(Next(s, steps[0]), steps[1..])
  }
}
