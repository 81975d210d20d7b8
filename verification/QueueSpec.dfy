/**
 BoundedBlockingQueue as a monitor: one mutex, two condition variables, any number
 of producers and consumers, barging and spurious wakeups included. Put and take
 are the same program with the roles of full and empty exchanged.
 */
module QueueSpec {
  import opened Basics

  type Item = int

  datatype Role = Put | Take

  datatype Stage =
    | Locking      // wants the mutex: just called, or woken spuriously
    | Testing      // holds it, at the while test
    | Waiting      // in the condition's wait set, the mutex released
    | Woken        // signalled, has to get the mutex back
    | Passed       // holds it, past the loop
    | Moved        // holds it, has pushed or popped, about to notify
    | Notified     // holds it, about to unlock

  datatype Thread = Idle | Busy(role: Role, stage: Stage, item: Item)

  /** A condition variable: who waits, and who was signalled and has not run yet. */
  datatype Condition = Condition(waiting: set<nat>, woken: set<nat>)

  datatype State = State(
    capacity: nat,
    items: seq<Item>,
    owner: Option<nat>,            // the thread that holds the mutex
    notEmpty: Condition,           // takers wait here
    notFull: Condition,            // putters wait here
    threads: map<nat, Thread>,
    puts: seq<Item>,               // everything pushed so far
    takes: seq<Item>,              // everything popped so far
    ok: bool)                      // no assert has failed

  function Init(capacity: nat): State {
    State(capacity, [], None, Condition({}, {}), Condition({}, {}), map[], [], [], true)
  }

  function ThreadOf(s: State, t: nat): Thread {
    if t in s.threads then s.threads[t] else Idle
  }

  predicate At(s: State, t: nat, stage: Stage) {
    ThreadOf(s, t).Busy? && ThreadOf(s, t).stage == stage
  }

  predicate Full(s: State) {
    |s.items| >= s.capacity
  }

  /** What keeps a thread of this role waiting. */
  predicate Blocked(s: State, role: Role) {
    if role.Put? then Full(s) else s.items == []
  }

  /** The condition a thread of this role waits on. */
  function CondOf(s: State, role: Role): Condition {
    if role.Put? then s.notFull else s.notEmpty
  }

  function SetCond(s: State, role: Role, c: Condition): State {
    if role.Put? then s.(notFull := c) else s.(notEmpty := c)
  }

  function Other(role: Role): Role {
    if role.Put? then Take else Put
  }

  function SetStage(s: State, t: nat, stage: Stage): State
    requires ThreadOf(s, t).Busy?
  {
    s.(threads := s.threads[t := ThreadOf(s, t).(stage := stage)])
  }

  datatype Step =
    | Call(thread: nat, role: Role, item: Item)
    | Acquire(thread: nat)
    | Test(thread: nat)
    | Move(thread: nat)
    | Notify(thread: nat, waiter: Option<nat>)   // pthread_cond_signal picks the waiter
    | Unlock(thread: nat)
    | Spurious(thread: nat)

  predicate Enabled(s: State, step: Step) {
    match step
    case Call(t, _, _) => ThreadOf(s, t).Idle?
    case Acquire(t) => s.owner == None && (At(s, t, Locking) || At(s, t, Woken))
    case Test(t) => At(s, t, Testing)
    case Move(t) => At(s, t, Passed)
    case Notify(t, w) =>
      && At(s, t, Moved)
      && var waiting := CondOf(s, Other(ThreadOf(s, t).role)).waiting;
         if waiting == {} then w == None
         else w.Some? && w.value in waiting && ThreadOf(s, w.value).Busy? && w.value != t
    case Unlock(t) => At(s, t, Notified)
    case Spurious(t) => At(s, t, Waiting)
  }

  /** put: push_back, refusing to overwrite. take: pop_front. */
  function MoveItem(s: State, t: nat): State
    requires At(s, t, Passed)
  {
    var th := ThreadOf(s, t);
    if Blocked(s, th.role) then SetStage(s.(ok := false), t, Moved)
    else if th.role.Put? then
      SetStage(s.(items := s.items + [th.item], puts := s.puts + [th.item]), t, Moved)
    else
      s.(items := s.items[1..], takes := s.takes + [s.items[0]],
         threads := s.threads[t := Busy(Take, Moved, s.items[0])])
  }

  function Next(s: State, step: Step): State
    requires Enabled(s, step)
  {
    match step
    case Call(t, role, x) => s.(threads := s.threads[t := Busy(role, Locking, x)])
    case Acquire(t) =>
      var role := ThreadOf(s, t).role;
      var c := CondOf(s, role);
      SetStage(SetCond(s, role, c.(woken := c.woken - {t})).(owner := Some(t)), t, Testing)
    case Test(t) =>
      var role := ThreadOf(s, t).role;
      if Blocked(s, role) then
        var c := CondOf(s, role);
        SetStage(SetCond(s, role, c.(waiting := c.waiting + {t})).(owner := None), t, Waiting)
      else SetStage(s, t, Passed)
    case Move(t) => MoveItem(s, t)
    case Notify(t, None) => SetStage(s, t, Notified)
    case Notify(t, Some(w)) =>
      var role := Other(ThreadOf(s, t).role);
      var c := CondOf(s, role);
      SetStage(SetStage(SetCond(s, role, Condition(c.waiting - {w}, c.woken + {w})), w, Woken), t, Notified)
    case Unlock(t) => s.(owner := None, threads := s.threads[t := Idle])
    case Spurious(t) =>
      var role := ThreadOf(s, t).role;
      var c := CondOf(s, role);
      SetStage(SetCond(s, role, c.(waiting := c.waiting - {t})), t, Locking)
  }

  predicate Legal(s: State, steps: seq<Step>)
    decreases |steps|
  {
    steps == [] || (Enabled(s, steps[0]) && Legal(Next(s, steps[0]), steps[1..]))
  }

  function Run(s: State, steps: seq<Step>): State
    requires Legal(s, steps)
    decreases |steps|
  {
    if steps == [] then s else Run(Next(s, steps[0]), steps[1..])
  }
}
