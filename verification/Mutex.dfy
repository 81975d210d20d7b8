/**
 MutexLock's record of its holder, kept beside the pthread mutex by lock, unlock and
 Condition::wait. Locking and recording are separate steps, and other threads run
 in between.
 */
module HolderSpec {
  import opened Basics

  /** Where a thread stands with respect to the mutex. */
  datatype Place =
    | Out          // does not hold it
    | Entering     // pthread_mutex_lock has returned, holder_ not yet set
    | Inside       // in its critical section
    | Leaving      // holder_ cleared, pthread_mutex_unlock not yet called
    | Dozing       // in wait(), holder_ cleared, pthread_cond_wait not yet entered
    | Asleep       // in pthread_cond_wait, the mutex released
    | Returning    // pthread_cond_wait has returned with the mutex, holder_ not yet set

  /** Thread ids are positive; a holder of 0 means nobody. */
  type Tid = n: nat | n > 0 witness 1

  datatype State = State(owner: Option<Tid>, holder: nat, places: map<Tid, Place>, ok: bool)

  function Init(): State {
    State(None, 0, map[], true)
  }

  function PlaceOf(s: State, t: Tid): Place {
    if t in s.places then s.places[t] else Out
  }

  function Go(s: State, t: Tid, place: Place): State {
    s.(places := s.places[t := place])
  }

  /** assignHolder(): nobody's record may be overwritten. */
  function Assign(s: State, t: Tid): State {
    s.(holder := t, ok := s.ok && s.holder == 0)
  }

  /** unassignHolder(): only one's own record may be cleared. */
  function Unassign(s: State, t: Tid): State {
    s.(holder := 0, ok := s.ok && s.holder == t)
  }

  datatype Step =
    | MutexLocked(t: Tid) | HolderSet(t: Tid)
    | HolderCleared(t: Tid) | MutexUnlocked(t: Tid)
    | WaitBegins(t: Tid) | FallsAsleep(t: Tid) | WakesUp(t: Tid) | HolderRestored(t: Tid)

  predicate Enabled(s: State, step: Step) {
    match step
    case MutexLocked(t) => s.owner == None && PlaceOf(s, t) == Out
    case HolderSet(t) => PlaceOf(s, t) == Entering
    case HolderCleared(t) => PlaceOf(s, t) == Inside
    case MutexUnlocked(t) => PlaceOf(s, t) == Leaving
    case WaitBegins(t) => PlaceOf(s, t) == Inside
    case FallsAsleep(t) => PlaceOf(s, t) == Dozing
    case WakesUp(t) => s.owner == None && PlaceOf(s, t) == Asleep
    case HolderRestored(t) => PlaceOf(s, t) == Returning
  }

  function Next(s: State, step: Step): State
    requires Enabled(s, step)
  {
    match step
    case MutexLocked(t) => Go(s.(owner := Some(t)), t, Entering)
    case HolderSet(t) => Go(Assign(s, t), t, Inside)
    case HolderCleared(t) => Go(Unassign(s, t), t, Leaving)
    case MutexUnlocked(t) => Go(s.(owner := None), t, Out)
    case WaitBegins(t) => Go(Unassign(s, t), t, Dozing)
    case FallsAsleep(t) => Go(s.(owner := None), t, Asleep)
    case WakesUp(t) => Go(s.(owner := Some(t)), t, Returning)
    case HolderRestored(t) => Go(Assign(s, t), t, Inside)
  }

  predicate Legal(s: State, steps: seq<Step>)
    decreases |steps|
  {
    steps == [] || (Enabled(s, steps[0]) && Legal(Next(s, steps[0]), steps[1..]))
  }

  function Run(s: State, steps: seq<Step>): State
    requires Legal(s, steps)
    decreases |steps|
  {
    if steps == [] then s else Run(Next(s, steps[0]), steps[1..])
  }
}

module HolderProofs {
  import opened Basics
  import opened HolderSpec

  predicate Holds(place: Place) {
    place != Out && place != Asleep
  }

  ghost predicate Inv(s: State) {
    && s.ok
    && (forall t: Tid :: s.owner == Some(t) <==> Holds(PlaceOf(s, t)))
    && (s.holder != 0 ==> PlaceOf(s, s.holder) == Inside)
    && (forall t: Tid :: PlaceOf(s, t) == Inside ==> s.holder == t)
  }

  lemma KeepsNext(s: State, step: Step)
    requires Inv(s) && Enabled(s, step)
    ensures Inv(Next(s, step))
  {
    var v := Next(s, step);
    assert forall u: Tid :: u != step.t ==> PlaceOf(v, u) == PlaceOf(s, u);
  }

  lemma {:induction false} KeepsRun(s: State, steps: seq<Step>)
    requires Inv(s) && Legal(s, steps)
    ensures Inv(Run(s, steps))
    decreases |steps|
  {
    if steps != [] {
      KeepsNext(s, steps[0]);
      KeepsRun(Next(s, steps[0]), steps[1..]);
    }
  }

  /**
   In every interleaving: a recorded holder owns the mutex; a thread sees
   isLockedByThisThread() exactly in its critical section; two threads are never
   there together; and nobody overwrites or clears another's record.
   */
  lemma HolderAgrees(steps: seq<Step>, t: Tid, u: Tid)
    requires Legal(Init(), steps)
    ensures var s := Run(Init(), steps);
            && s.ok
            && (s.holder != 0 ==> s.owner == Some(s.holder))
            && (s.holder == t <==> PlaceOf(s, t) == Inside)
            && (PlaceOf(s, t) == Inside && PlaceOf(s, u) == Inside ==> t == u)
  {
    KeepsRun(Init(), steps);
  }

  /** Nobody in a call means nobody recorded: what the destructor asserts. */
  lemma FreeMeansUnheld(steps: seq<Step>)
    requires Legal(Init(), steps)
    requires forall t: Tid :: PlaceOf(Run(Init(), steps), t) != Inside
    ensures Run(Init(), steps).holder == 0
  {
    KeepsRun(Init(), steps);
  }
}

module Mutexes {
  import opened Basics
  import opened HolderSpec
  import opened HolderProofs

  class MutexLock {
    var mutex: Option<Tid>            // who owns the pthread mutex
    var holder: nat
    ghost var places: map<Tid, Place>

    ghost function View(): State
      reads this
    {
      State(mutex, holder, places, true)
    }

    constructor ()
      ensures View() == Init() && Inv(View())
    {
      mutex, holder, places := None, 0, map[];
    }

    predicate IsLockedByThisThread(tid: Tid)
      reads this
    {
      holder == tid
    }

    method AssignHolder(tid: Tid)
      modifies `holder
      ensures holder == tid
    {
      holder := tid;
    }

    method UnassignHolder()
      modifies `holder
      ensures holder == 0
    {
      holder := 0;
    }

    /** The call returns once the mutex is free. */
    method Lock(tid: Tid)
      requires Inv(View()) && mutex == None && PlaceOf(View(), tid) == Out
      modifies this
      ensures View() == Next(Next(old(View()), MutexLocked(tid)), HolderSet(tid))
      ensures Inv(View()) && IsLockedByThisThread(tid)
    {
      KeepsNext(View(), MutexLocked(tid));
      mutex, places := Some(tid), places[tid := Entering];
      KeepsNext(View(), HolderSet(tid));
      AssignHolder(tid);
      places := places[tid := Inside];
    }

    method Unlock(tid: Tid)
      requires Inv(View()) && PlaceOf(View(), tid) == Inside
      modifies this
      ensures View() == Next(Next(old(View()), HolderCleared(tid)), MutexUnlocked(tid))
      ensures Inv(View()) && mutex == None && holder == 0
    {
      KeepsNext(View(), HolderCleared(tid));
      UnassignHolder();
      places := places[tid := Leaving];
      KeepsNext(View(), MutexUnlocked(tid));
      mutex, places := None, places[tid := Out];
    }

    /** Condition::wait up to the point where the thread sleeps and the mutex is free. */
    method WaitBegin(tid: Tid)
      requires Inv(View()) && PlaceOf(View(), tid) == Inside
      modifies this
      ensures View() == Next(Next(old(View()), WaitBegins(tid)), FallsAsleep(tid))
      ensures Inv(View()) && mutex == None && holder == 0
    {
      KeepsNext(View(), WaitBegins(tid));
      UnassignHolder();               // UnassignGuard's constructor
      places := places[tid := Dozing];
      KeepsNext(View(), FallsAsleep(tid));
      mutex, places := None, places[tid := Asleep];
    }

    /** The rest of Condition::wait, when the thread gets the mutex back. */
    method WaitEnd(tid: Tid)
      requires Inv(View()) && mutex == None && PlaceOf(View(), tid) == Asleep
      modifies this
      ensures View() == Next(Next(old(View()), WakesUp(tid)), HolderRestored(tid))
      ensures Inv(View()) && IsLockedByThisThread(tid)
    {
      KeepsNext(View(), WakesUp(tid));
      mutex, places := Some(tid), places[tid := Returning];
      KeepsNext(View(), HolderRestored(tid));
      AssignHolder(tid);              // UnassignGuard's destructor
      places := places[tid := Inside];
    }
  }
}
