/** The stop-the-world handshake: any number of mutators join, leave, park, come back, reach
    safepoints and ask for collections.  What a thread does between two waits while it holds the heap
    lock is one step; a wait on a condition variable can end without a signal. */
module StopTheWorld {
  import opened Basics
  import opened Runs

  /** Why a mutator paused: at a safepoint, or on its way to a collection of its own. */
  datatype Why = Safepoint | Trigger

  datatype Phase =
    | Outside
    | AddWait(asleep: bool)
    | Running
    | Paused(asleep: bool, why: Why)
    | StopWait(asleep: bool)      // the collector, waiting for the others
    | Tracing                     // the collector, holding the heap lock
    | Inactive
    | BackWait(asleep: bool)      // inactive, waiting to become active again

  datatype State = State(threads: map<int, Phase>, collecting: bool, count: int, paused: int, inactive: int)

  /** Only a collector keeps the lock from one step to the next. */
  ghost predicate LockFree(s: State) {
    forall id | id in s.threads :: s.threads[id] != Tracing
  }

  predicate AllStopped(s: State) {
    s.count == s.paused + s.inactive
  }

  function To(s: State, id: int, p: Phase): State {
    s.(threads := s.threads[id := p])
  }

  function Woken(p: Phase): Phase {
    match p
    case AddWait(_) => AddWait(false)
    case Paused(_, why) => Paused(false, why)
    case BackWait(_) => BackWait(false)
    case _ => p
  }

  function SignalCollector(s: State): State {
    s.(threads := map id | id in s.threads :: if s.threads[id].StopWait? then StopWait(false) else s.threads[id])
  }

  function BroadcastMutators(s: State): State {
    s.(threads := map id | id in s.threads :: Woken(s.threads[id]))
  }

  // ----- the segments a thread runs with the lock held -------------------------------------

  /** Counts itself paused and waits, telling the collector if it was the last. */
  function Pause(s: State, id: int, why: Why): State {
    var s1 := To(s, id, Paused(true, why)).(paused := s.paused + 1);
    if AllStopped(s1) then SignalCollector(s1) else s1
  }

  /** Requests a stop, counts itself paused, and traces at once if nobody else is running. */
  function StartCollection(s: State, id: int): State {
    var s1 := s.(collecting := true, paused := s.paused + 1);
    To(s1, id, if AllStopped(s1) then Tracing else StopWait(true))
  }

  function Add(s: State, id: int): State {
    if s.collecting then To(s, id, AddWait(true)) else To(s, id, Running).(count := s.count + 1)
  }

  function Remove(s: State, id: int): State
    requires id in s.threads
  {
    var gone := if s.threads[id].Running? then s else s.(inactive := s.inactive - 1);
    var s1 := To(gone, id, Outside).(count := s.count - 1);
    if s1.collecting && AllStopped(s1) then SignalCollector(s1) else s1
  }

  function Deactivate(s: State, id: int): State {
    var s1 := To(s, id, Inactive).(inactive := s.inactive + 1);
    if AllStopped(s1) then SignalCollector(s1) else s1
  }

  function Reactivate(s: State, id: int): State {
    if s.collecting then To(s, id, BackWait(true)) else To(s, id, Running).(inactive := s.inactive - 1)
  }

  /** A paused mutator wakes: it waits again while a collection is on, even one it never saw begin. */
  ghost predicate Resume(s: State, s2: State, id: int, why: Why) {
    if s.collecting then s2 == To(s, id, Paused(true, why))
    else
      var s1 := To(s, id, Running).(paused := s.paused - 1);
      || s2 == s1
      || (why == Trigger && s2 == StartCollection(s1, id))   // the collection just done was of a lesser kind
  }

  function Finish(s: State, id: int): State {
    BroadcastMutators(To(s, id, Running).(paused := s.paused - 1, collecting := false))
  }

  /** A step of one thread.  All but the end of a trace and a spurious wake-up need the lock. */
  ghost predicate Step(s: State, s2: State, id: int) {
    id in s.threads &&
    match s.threads[id]
    case Outside => LockFree(s) && s2 == Add(s, id)
    case AddWait(asleep) =>
      if asleep then s2 == To(s, id, AddWait(false)) else LockFree(s) && s2 == Add(s, id)
    case Running =>
      LockFree(s) &&
      (s2 == s
       || s2 == Remove(s, id)
       || s2 == Deactivate(s, id)
       || (s.collecting && (s2 == Pause(s, id, Safepoint) || s2 == Pause(s, id, Trigger)))
       || (!s.collecting && s2 == StartCollection(s, id)))
    case Paused(asleep, why) =>
      if asleep then s2 == To(s, id, Paused(false, why)) else LockFree(s) && Resume(s, s2, id, why)
    case StopWait(asleep) =>
      if asleep then s2 == To(s, id, StopWait(false))
      else LockFree(s) && s2 == To(s, id, if AllStopped(s) then Tracing else StopWait(true))
    case Tracing => s2 == s || s2 == Finish(s, id)
    case Inactive => LockFree(s) && (s2 == Remove(s, id) || s2 == Reactivate(s, id))
    case BackWait(asleep) =>
      if asleep then s2 == To(s, id, BackWait(false)) else LockFree(s) && s2 == Reactivate(s, id)
  }

  ghost predicate Init(s: State) {
    && (forall id | id in s.threads :: s.threads[id] == Outside)
    && !s.collecting && s.count == s.paused == s.inactive == 0
  }

  // ----- the invariant ---------------------------------------------------------------------

  predicate IsMember(p: Phase) {
    !p.Outside? && !p.AddWait?
  }

  predicate IsPaused(p: Phase) {
    p.Paused? || IsCollector(p)
  }

  predicate IsInactive(p: Phase) {
    p.Inactive? || p.BackWait?
  }

  predicate IsWaiting(p: Phase) {
    p.AddWait? || p.Paused? || p.BackWait?
  }

  predicate IsCollector(p: Phase) {
    p.StopWait? || p.Tracing?
  }

  datatype Kind = Member | Stopped | Parked

  predicate Is(kind: Kind, p: Phase) {
    match kind
    case Member => IsMember(p)
    case Stopped => IsPaused(p)
    case Parked => IsInactive(p)
  }

  ghost function Those(threads: map<int, Phase>, kind: Kind): set<int> {
    set id | id in threads && Is(kind, threads[id])
  }

  /** The counters are the true numbers. */
  ghost predicate Counted(s: State) {
    && s.count == |Those(s.threads, Member)|
    && s.paused == |Those(s.threads, Stopped)|
    && s.inactive == |Those(s.threads, Parked)|
  }

  ghost predicate OneCollector(s: State) {
    && (s.collecting <==> exists id :: id in s.threads && IsCollector(s.threads[id]))
    && (forall i, j | i in s.threads && j in s.threads && IsCollector(s.threads[i]) && IsCollector(s.threads[j]) :: i == j)
  }

  /** Nobody sleeps through the event it waits for. */
  ghost predicate NoLostWakeup(s: State) {
    && (forall id | id in s.threads && s.threads[id] == StopWait(true) :: !AllStopped(s))
    && (forall id | id in s.threads && IsWaiting(s.threads[id]) ::
          s.threads[id].asleep ==> s.collecting)
  }

  ghost predicate Inv(s: State) {
    && Counted(s) && OneCollector(s) && NoLostWakeup(s)
    && (forall id | id in s.threads && s.threads[id] == Tracing :: AllStopped(s))
  }

  lemma Recount(threads: map<int, Phase>, id: int, p: Phase, kind: Kind)
    requires id in threads
    ensures |Those(threads[id := p], kind)| ==
      |Those(threads, kind)| - (if Is(kind, threads[id]) then 1 else 0) + (if Is(kind, p) then 1 else 0)
  {
    var old_, new_ := Those(threads, kind), Those(threads[id := p], kind);
    if Is(kind, p) {
      assert new_ == old_ + {id};
    } else {
      assert new_ == old_ - {id};
    }
  }

  /** One thread changes phase; the counters follow. */
  lemma CountedMoves(s: State, s2: State, id: int, p: Phase)
    requires Counted(s) && id in s.threads && s2.threads == s.threads[id := p]
    requires s2.count - s.count == (if IsMember(p) then 1 else 0) - (if IsMember(s.threads[id]) then 1 else 0)
    requires s2.paused - s.paused == (if IsPaused(p) then 1 else 0) - (if IsPaused(s.threads[id]) then 1 else 0)
    requires s2.inactive - s.inactive == (if IsInactive(p) then 1 else 0) - (if IsInactive(s.threads[id]) then 1 else 0)
    ensures Counted(s2)
  {
    Recount(s.threads, id, p, Member);
    Recount(s.threads, id, p, Stopped);
    Recount(s.threads, id, p, Parked);
  }

  lemma ThoseAre(threads: map<int, Phase>, kind: Kind)
    ensures forall id :: id in Those(threads, kind) <==> id in threads && Is(kind, threads[id])
  {
  }

  lemma SameThose(a: map<int, Phase>, b: map<int, Phase>, kind: Kind)
    requires a.Keys == b.Keys && forall id | id in a :: Is(kind, a[id]) == Is(kind, b[id])
    ensures Those(a, kind) == Those(b, kind)
  {
    forall id ensures id in Those(a, kind) <==> id in Those(b, kind) {
      assert id in a <==> id in b;
    }
  }

  lemma NoneThose(a: map<int, Phase>, kind: Kind)
    requires forall id | id in a :: !Is(kind, a[id])
    ensures Those(a, kind) == {}
  {
    assert forall id :: id !in Those(a, kind);
  }

  /** No more are stopped than there are; all are when the sums agree. */
  lemma StoppedAreMembers(s: State)
    requires Counted(s)
    ensures s.paused + s.inactive <= s.count
    ensures AllStopped(s) <==> forall id | id in s.threads && IsMember(s.threads[id]) ::
      IsPaused(s.threads[id]) || IsInactive(s.threads[id])
  {
    var m, p, i := Those(s.threads, Member), Those(s.threads, Stopped), Those(s.threads, Parked);
    ThoseAre(s.threads, Member);
    ThoseAre(s.threads, Stopped);
    ThoseAre(s.threads, Parked);
    assert p !! i && p + i <= m && |p + i| == |p| + |i|;
    SubsetSize(p + i, m);
    if AllStopped(s) { SubsetSame(p + i, m); }
    if forall id | id in s.threads && IsMember(s.threads[id]) :: IsPaused(s.threads[id]) || IsInactive(s.threads[id]) {
      assert m == p + i;
    }
  }

  lemma InitInv(s: State)
    requires Init(s)
    ensures Inv(s)
  {
    NoneThose(s.threads, Member);
    NoneThose(s.threads, Stopped);
    NoneThose(s.threads, Parked);
  }

  // ----- every step keeps the invariant ----------------------------------------------------

  /** One thread moves between phases neither of which is the collector's, or collects. */
  lemma MoveKeeps(s: State, s2: State, id: int, p: Phase)
    requires Inv(s) && id in s.threads && s2.threads == s.threads[id := p] && s2.collecting == s.collecting && Counted(s2)
    requires IsCollector(p) == IsCollector(s.threads[id]) && LockFree(s)
    requires s.collecting ==> forall i | i in s2.threads && s2.threads[i] == StopWait(true) :: !AllStopped(s2)
    requires IsWaiting(p) && p.asleep ==> s.collecting
    requires p == Tracing ==> AllStopped(s2)
    ensures Inv(s2)
  {
    hide Counted, AllStopped;
    assert s.collecting ==> exists i :: i in s.threads && IsCollector(s.threads[i]);
    if s.collecting {
      var i :| i in s.threads && IsCollector(s.threads[i]);
      assert i in s2.threads && IsCollector(s2.threads[i]);
    }
  }

  predicate Rouses(p: Phase, p2: Phase) {
    p2 == p || p2 == Woken(p) || (p.StopWait? && p2 == StopWait(false))
  }

  /** Waking the collector, or every waiting mutator. */
  ghost predicate Wakes(s: State, s2: State) {
    && s2 == s.(threads := s2.threads) && s2.threads.Keys == s.threads.Keys
    && (forall i | i in s.threads :: Rouses(s.threads[i], s2.threads[i]))
  }

  /** Waking threads up changes no count. */
  lemma CountedWakes(s: State, s2: State)
    requires Counted(s) && Wakes(s, s2)
    ensures Counted(s2)
  {
    forall i, kind | i in s.threads ensures Is(kind, s2.threads[i]) == Is(kind, s.threads[i]) {
      assert Rouses(s.threads[i], s2.threads[i]);
    }
    SameThose(s.threads, s2.threads, Member);
    SameThose(s.threads, s2.threads, Stopped);
    SameThose(s.threads, s2.threads, Parked);
  }

  lemma WakesCollector(s: State, s2: State)
    requires OneCollector(s) && Wakes(s, s2)
    ensures OneCollector(s2)
  {
    forall i | i in s.threads ensures IsCollector(s2.threads[i]) == IsCollector(s.threads[i]) {
      assert Rouses(s.threads[i], s2.threads[i]);
    }
    if s.collecting {
      var i :| i in s.threads && IsCollector(s.threads[i]);
      assert i in s2.threads && IsCollector(s2.threads[i]);
    }
    hide Rouses, IsCollector;
  }

  lemma WakeKeeps(s: State, s2: State)
    requires Inv(s) && Wakes(s, s2)
    ensures Inv(s2)
  {
    WakesCollector(s, s2);
    CountedWakes(s, s2);
    hide Counted, AllStopped, OneCollector;
    forall i | i in s2.threads ensures Rouses(s.threads[i], s2.threads[i]) {}
  }

  /** A signal is sent exactly when the state before it would leave the collector asleep for good. */
  lemma SignalKeeps(s: State, s2: State)
    requires Counted(s) && OneCollector(s) && s2 == SignalCollector(s)
    requires forall id | id in s.threads && IsWaiting(s.threads[id]) ::
      s.threads[id].asleep ==> s.collecting
    requires LockFree(s)
    ensures Inv(s2)
  {
    CountedWakes(s, s2);
    hide Counted, AllStopped;
    if s.collecting {
      var i :| i in s.threads && IsCollector(s.threads[i]);
      assert i in s2.threads && IsCollector(s2.threads[i]);
    }
  }

  /** A mutator that stops for good or for a while, and the signal it owes the collector. */
  lemma StopKeeps(s: State, s1: State, s2: State, id: int, p: Phase)
    requires Inv(s) && LockFree(s) && id in s.threads && s1.threads == s.threads[id := p] && s1.collecting == s.collecting
    requires Counted(s1) && !IsCollector(p) && !IsCollector(s.threads[id])
    requires IsWaiting(p) && p.asleep ==> s.collecting
    requires s2 == (if AllStopped(s1) then SignalCollector(s1) else s1) || (!s.collecting && s2 == s1)
    ensures Inv(s2)
  {
    hide Counted, AllStopped;
    if s.collecting {
      var i :| i in s.threads && IsCollector(s.threads[i]);
      assert i in s1.threads && IsCollector(s1.threads[i]);
    }
    if s2 == s1 {
      MoveKeeps(s, s1, id, p);
    } else {
      SignalKeeps(s1, s2);
    }
  }

  lemma PauseKeeps(s: State, s2: State, id: int, why: Why)
    requires Inv(s) && LockFree(s) && id in s.threads && s.threads[id].Running? && s.collecting && s2 == Pause(s, id, why)
    ensures Inv(s2)
  {
    var p := Paused(true, why);
    var s1 := To(s, id, p).(paused := s.paused + 1);
    CountedMoves(s, s1, id, p);
    hide Counted, AllStopped, OneCollector, NoLostWakeup;
    StopKeeps(s, s1, s2, id, p);
  }

  lemma RemoveKeeps(s: State, s2: State, id: int)
    requires Inv(s) && LockFree(s) && id in s.threads && (s.threads[id].Running? || s.threads[id].Inactive?)
    requires s2 == Remove(s, id)
    ensures Inv(s2)
  {
    var gone := if s.threads[id].Running? then s else s.(inactive := s.inactive - 1);
    var s1 := To(gone, id, Outside).(count := s.count - 1);
    CountedMoves(s, s1, id, Outside);
    hide Counted, AllStopped, OneCollector, NoLostWakeup;
    StopKeeps(s, s1, s2, id, Outside);
  }

  lemma DeactivateKeeps(s: State, s2: State, id: int)
    requires Inv(s) && LockFree(s) && id in s.threads && s.threads[id].Running? && s2 == Deactivate(s, id)
    ensures Inv(s2)
  {
    var s1 := To(s, id, Inactive).(inactive := s.inactive + 1);
    CountedMoves(s, s1, id, Inactive);
    hide Counted, AllStopped, OneCollector, NoLostWakeup;
    StopKeeps(s, s1, s2, id, Inactive);
  }

  lemma AddKeeps(s: State, s2: State, id: int)
    requires Inv(s) && LockFree(s) && id in s.threads && (s.threads[id].Outside? || s.threads[id].AddWait?) && s2 == Add(s, id)
    ensures Inv(s2)
  {
    CountedMoves(s, s2, id, s2.threads[id]);
    hide Counted;
    MoveKeeps(s, s2, id, s2.threads[id]);
  }

  lemma ReactivateKeeps(s: State, s2: State, id: int)
    requires Inv(s) && LockFree(s) && id in s.threads && IsInactive(s.threads[id]) && s2 == Reactivate(s, id)
    ensures Inv(s2)
  {
    CountedMoves(s, s2, id, s2.threads[id]);
    hide Counted;
    MoveKeeps(s, s2, id, s2.threads[id]);
  }

  /** At the request there is no collector; afterwards there is one. */
  lemma StartKeeps(s: State, s2: State, id: int)
    requires Inv(s) && LockFree(s) && !s.collecting && id in s.threads && s.threads[id].Running? && s2 == StartCollection(s, id)
    ensures Inv(s2)
  {
    CountedMoves(s, s2, id, s2.threads[id]);
    hide Counted;
    assert IsCollector(s2.threads[id]);
    assert forall i | i in s.threads :: !IsCollector(s.threads[i]);
  }

  lemma ResumeKeeps(s: State, s2: State, id: int, why: Why)
    requires Inv(s) && LockFree(s) && id in s.threads && s.threads[id].Paused? && Resume(s, s2, id, why)
    ensures Inv(s2)
  {
    if s.collecting {
      CountedMoves(s, s2, id, Paused(true, why));
      hide Counted;
      MoveKeeps(s, s2, id, Paused(true, why));
    } else {
      var s1 := To(s, id, Running).(paused := s.paused - 1);
      CountedMoves(s, s1, id, Running);
      MoveKeeps(s, s1, id, Running);
      hide Counted, OneCollector, NoLostWakeup;
      if s2 != s1 { StartKeeps(s1, s2, id); }
    }
  }

  lemma CollectorLooksKeeps(s: State, s2: State, id: int)
    requires Inv(s) && LockFree(s) && id in s.threads && s.threads[id].StopWait?
    requires s2 == To(s, id, if AllStopped(s) then Tracing else StopWait(true))
    ensures Inv(s2)
  {
    CountedMoves(s, s2, id, s2.threads[id]);
    hide Counted;
    MoveKeeps(s, s2, id, s2.threads[id]);
  }

  lemma FinishKeeps(s: State, s2: State, id: int)
    requires Inv(s) && id in s.threads && s.threads[id].Tracing? && s2 == Finish(s, id)
    ensures Inv(s2)
  {
    var s1 := To(s, id, Running).(paused := s.paused - 1, collecting := false);
    CountedMoves(s, s1, id, Running);
    CountedWakes(s1, s2);
    hide Counted;
    forall i | i in s2.threads ensures !IsCollector(s2.threads[i]) {
      assert i != id ==> !IsCollector(s.threads[i]);
    }
  }

  lemma SpuriousKeeps(s: State, s2: State, id: int)
    requires Inv(s) && id in s.threads && id in s2.threads && s2 == To(s, id, s2.threads[id])
    requires Rouses(s.threads[id], s2.threads[id])
    ensures Inv(s2)
  {
    hide Inv, Woken;
    WakeKeeps(s, s2);
  }

  lemma StepKeepsInv(s: State, s2: State, id: int)
    requires Inv(s) && Step(s, s2, id)
    ensures Inv(s2)
  {
    hide Inv, LockFree, AllStopped, Resume;
    match s.threads[id]
    case Outside => AddKeeps(s, s2, id);
    case AddWait(asleep) => if asleep { SpuriousKeeps(s, s2, id); } else { AddKeeps(s, s2, id); }
    case Running =>
      if s2 == s {
      } else if s2 == Remove(s, id) {
        RemoveKeeps(s, s2, id);
      } else if s2 == Deactivate(s, id) {
        DeactivateKeeps(s, s2, id);
      } else if s2 == Pause(s, id, Safepoint) && s.collecting {
        PauseKeeps(s, s2, id, Safepoint);
      } else if s.collecting {
        PauseKeeps(s, s2, id, Trigger);
      } else {
        StartKeeps(s, s2, id);
      }
    case Paused(asleep, why) => if asleep { SpuriousKeeps(s, s2, id); } else { ResumeKeeps(s, s2, id, why); }
    case StopWait(asleep) => if asleep { SpuriousKeeps(s, s2, id); } else { CollectorLooksKeeps(s, s2, id); }
    case Tracing => if s2 != s { FinishKeeps(s, s2, id); }
    case Inactive => if s2 == Remove(s, id) { RemoveKeeps(s, s2, id); } else { ReactivateKeeps(s, s2, id); }
    case BackWait(asleep) => if asleep { SpuriousKeeps(s, s2, id); } else { ReactivateKeeps(s, s2, id); }
  }

  // ----- what every run keeps --------------------------------------------------------------

  ghost predicate Next(s: State, s2: State) {
    exists id :: Step(s, s2, id)
  }

  ghost predicate Run(run: seq<State>) {
    && |run| > 0 && Init(run[0])
    && forall i | 0 <= i < |run| - 1 :: Next(run[i], run[i + 1])
  }

  lemma {:induction false} RunKeepsInv(run: seq<State>, i: nat)
    requires Run(run) && i < |run|
    ensures Inv(run[i])
  {
    hide Inv, Init, Step;
    if i == 0 {
      InitInv(run[0]);
    } else {
      RunKeepsInv(run, i - 1);
      var id :| Step(run[i - 1], run[i], id);
      StepKeepsInv(run[i - 1], run[i], id);
    }
  }

  /** While anyone traces, it is the only collector, and every other mutator is paused or inactive. */
  lemma TracingAlone(run: seq<State>, i: nat, id: int, other: int)
    requires Run(run) && i < |run| && id in run[i].threads && run[i].threads[id] == Tracing
    requires other in run[i].threads && other != id && IsMember(run[i].threads[other])
    ensures run[i].threads[other].Paused? || IsInactive(run[i].threads[other])
  {
    RunKeepsInv(run, i);
    StoppedAreMembers(run[i]);
    hide Counted, AllStopped, Run;
  }

  /** And it stays so until the collector finishes: until then other threads can do no more than wake up. */
  lemma FrozenWhileTracing(s: State, s2: State, id: int, mover: int)
    requires Inv(s) && id in s.threads && s.threads[id] == Tracing && Step(s, s2, mover) && mover != id
    ensures s2 == s.(threads := s2.threads) && s2.threads.Keys == s.threads.Keys
    ensures forall i | i in s.threads :: s2.threads[i] == s.threads[i] || s2.threads[i] == Woken(s.threads[i])
  {
    hide Counted, NoLostWakeup, AllStopped;
    assert !LockFree(s);
    assert !s.threads[mover].StopWait?;
  }

  /** The counters are the true numbers at every point of every run, sleepers of the last pause included. */
  lemma CountersExact(run: seq<State>, i: nat)
    requires Run(run) && i < |run|
    ensures Counted(run[i]) && OneCollector(run[i])
  {
    RunKeepsInv(run, i);
  }

  /** What the code asserts when it pauses, when it requests a stop, and when it lets mutators go. */
  lemma AssertionsHold(run: seq<State>, i: nat, id: int)
    requires Run(run) && i < |run| && id in run[i].threads
    ensures run[i].threads[id].Running? ==> !AllStopped(run[i])
    ensures run[i].threads[id].Tracing? ==> AllStopped(run[i]) && run[i].collecting
    ensures run[i].paused >= 0 && run[i].inactive >= 0 && run[i].count >= 0
  {
    RunKeepsInv(run, i);
    StoppedAreMembers(run[i]);
    hide AllStopped, Run;
  }

  /** No wake-up is lost: a collector asleep waits for a mutator that still runs, and a mutator asleep
      for a collector that has yet to finish. */
  lemma SleepersHaveCause(run: seq<State>, i: nat, id: int)
    requires Run(run) && i < |run| && id in run[i].threads
    ensures run[i].threads[id] == StopWait(true) ==>
      exists m :: m in run[i].threads && run[i].threads[m].Running?
    ensures IsWaiting(run[i].threads[id]) && run[i].threads[id].asleep ==>
      exists m :: m in run[i].threads && IsCollector(run[i].threads[m])
  {
    var s := run[i];
    RunKeepsInv(run, i);
    StoppedAreMembers(s);
    hide Counted, AllStopped, Run;
    if s.threads[id] == StopWait(true) {
      var m :| m in s.threads && IsMember(s.threads[m]) && !IsPaused(s.threads[m]) && !IsInactive(s.threads[m]);
      assert s.threads[m].Running?;
    }
  }

  /** A step of another thread at most wakes a thread. */
  lemma OthersRouse(s: State, s2: State, w: int, id: int)
    requires Step(s, s2, w) && id in s.threads && id != w
    ensures id in s2.threads && Rouses(s.threads[id], s2.threads[id])
  {
    hide AllStopped;
  }

  /** A mutator that has stopped stays so until no collection is on. */
  lemma StoppedStays(s: State, s2: State, w: int, id: int)
    requires Step(s, s2, w) && id in s.threads && IsPaused(s.threads[id])
    ensures id in s2.threads && (IsPaused(s2.threads[id]) || (s2.threads[id].Running? && !s2.collecting))
  {
    hide AllStopped;
    if w != id { OthersRouse(s, s2, w, id); }
  }

  lemma {:induction false} StoppedUntil(run: seq<State>, i: nat, j: nat, id: int)
    requires Run(run) && i <= j < |run| && id in run[i].threads && IsPaused(run[i].threads[id])
    requires forall k | i <= k < j :: id in run[k].threads && !run[k].threads[id].Running?
    ensures id in run[j].threads
    ensures IsPaused(run[j].threads[id]) || (run[j].threads[id].Running? && !run[j].collecting)
  {
    hide Init, Step, IsPaused;
    if i < j {
      StoppedUntil(run, i, j - 1, id);
      assert Next(run[j - 1], run[j]);
      var w :| Step(run[j - 1], run[j], w);
      StoppedStays(run[j - 1], run[j], w, id);
    }
  }

  /** A collection ends in the step from state `k`. */
  ghost predicate Ends(run: seq<State>, k: int) {
    0 <= k < |run| - 1 && run[k].collecting && !run[k + 1].collecting
  }

  lemma {:induction false} SomeEnd(run: seq<State>, i: nat, j: nat) returns (k: nat)
    requires i < j < |run| && run[i].collecting && !run[j].collecting
    ensures i <= k < j && Ends(run, k)
  {
    if run[j - 1].collecting { k := j - 1; } else { k := SomeEnd(run, i, j - 1); }
  }

  /** A mutator that stops, at a safepoint or for a collection of its own, runs again only after a
      collection has come to its end. */
  lemma RunsAfterCollection(run: seq<State>, i: nat, j: nat, id: int)
    requires Run(run) && i + 1 < j < |run| && (forall k | i <= k <= j :: id in run[k].threads)
    requires run[i].threads[id].Running? && IsPaused(run[i + 1].threads[id]) && run[j].threads[id].Running?
    requires forall k | i < k < j :: !run[k].threads[id].Running?
    ensures exists k :: i <= k < j && Ends(run, k)
  {
    hide Run, Counted, NoLostWakeup;
    StoppedUntil(run, i + 1, j, id);
    assert !IsPaused(run[j].threads[id]);
    StopsForOne(run, i, id);
    var k := SomeEnd(run, i + 1, j);
  }

  /** A mutator stops only when a collection has been asked for. */
  lemma StopsForOne(run: seq<State>, i: nat, id: int)
    requires Run(run) && i + 1 < |run| && id in run[i].threads && id in run[i + 1].threads
    requires run[i].threads[id].Running? && IsPaused(run[i + 1].threads[id])
    ensures run[i + 1].collecting
  {
    hide Init, AllStopped;
    assert Next(run[i], run[i + 1]);
    var w :| Step(run[i], run[i + 1], w);
    if w != id { OthersRouse(run[i], run[i + 1], w, id); }
  }

  // ----- every request is met, and everybody gets going again ------------------------------

  ghost function Ones(s: State, p: Phase -> bool): set<int> {
    set id | id in s.threads && p(s.threads[id])
  }

  lemma SomeOne(s: State, p: Phase -> bool) returns (id: int)
    requires Ones(s, p) != {}
    ensures id in s.threads && p(s.threads[id])
  {
    id := Pick(Ones(s, p));
  }

  lemma NoOne(s: State, p: Phase -> bool)
    requires Ones(s, p) == {}
    ensures forall id | id in s.threads :: !p(s.threads[id])
  {
    forall id | id in s.threads ensures !p(s.threads[id]) {
      assert id !in Ones(s, p);
    }
  }

  /** One thread changes, the others at most wake. */
  ghost predicate OneChanges(s: State, s2: State, id: int) {
    && s2.threads.Keys == s.threads.Keys && id in s.threads
    && forall i | i in s.threads && i != id :: Rouses(s.threads[i], s2.threads[i])
  }

  lemma OneLess(s: State, s2: State, id: int, p: Phase -> bool)
    requires OneChanges(s, s2, id) && p(s.threads[id]) && !p(s2.threads[id])
    requires forall i | i in s.threads && i != id :: p(s.threads[i]) == p(s2.threads[i])
    ensures |Ones(s2, p)| < |Ones(s, p)|
  {
    hide Rouses;
    var a, b := Ones(s, p), Ones(s2, p);
    forall i ensures i in b ==> i in a && i != id {}
    assert b <= a - {id};
    SubsetSize(b, a - {id});
  }

  predicate IsRunning(p: Phase) {
    p.Running?
  }

  predicate IsStopWait(p: Phase) {
    p.StopWait?
  }

  /** A running mutator can pause. */
  lemma CanPause(s: State, id: int) returns (s2: State)
    requires Inv(s) && LockFree(s) && s.collecting && id in s.threads && s.threads[id].Running?
    ensures Next(s, s2) && Inv(s2) && LockFree(s2) && s2.collecting && OneChanges(s, s2, id)
    ensures |Ones(s2, IsRunning)| < |Ones(s, IsRunning)|
  {
    s2 := Pause(s, id, Safepoint);
    assert Step(s, s2, id);
    StepKeepsInv(s, s2, id);
    hide Inv, Step, LockFree;
    PauseChanges(s, s2, id);
    OneLess(s, s2, id, IsRunning);
  }

  lemma PauseChanges(s: State, s2: State, id: int)
    requires id in s.threads && s2 == Pause(s, id, Safepoint) && LockFree(s)
    ensures OneChanges(s, s2, id) && s2.threads[id].Paused? && s2.collecting == s.collecting && LockFree(s2)
    ensures forall i | i in s.threads && i != id :: s2.threads[i].Running? == s.threads[i].Running?
  {
    hide AllStopped;
  }

  /** Every running mutator can pause, one after the other; then the collector can trace. */
  lemma CanTrace(s: State) returns (t: State)
    requires Inv(s) && LockFree(s) && s.collecting
    ensures CanReach(Next, s, t) && Inv(t) && !LockFree(t)
    decreases |Ones(s, IsRunning)|
  {
    hide Inv, LockFree, Next;
    if Ones(s, IsRunning) == {} {
      NoOne(s, IsRunning);
      t := CollectorCan(s);
      ReachesStep(Next, s, t);
    } else {
      var id := SomeOne(s, IsRunning);
      var s2 := CanPause(s, id);
      t := CanTrace(s2);
      ReachesNext(Next, s, s2, t);
    }
  }

  lemma CollectorCan(s: State) returns (t: State)
    requires Inv(s) && LockFree(s) && s.collecting && forall id | id in s.threads :: !s.threads[id].Running?
    ensures Next(s, t) && Inv(t) && !LockFree(t)
  {
    StoppedAreMembers(s);
    var id :| id in s.threads && IsCollector(s.threads[id]);
    hide Counted;
    assert AllStopped(s);
    assert s.threads[id] == StopWait(false);
    t := To(s, id, Tracing);
    assert Step(s, t, id);
    StepKeepsInv(s, t, id);
    assert t.threads[id] == Tracing;
  }

  /** The collector can finish. */
  lemma CanFinish(s: State) returns (t: State)
    requires Inv(s) && !LockFree(s)
    ensures Next(s, t) && Inv(t) && !t.collecting
  {
    hide Inv, Finish;
    var id :| id in s.threads && s.threads[id] == Tracing;
    t := Finish(s, id);
    assert Step(s, t, id);
    StepKeepsInv(s, t, id);
    FinishEnds(s, id);
  }

  lemma FinishEnds(s: State, id: int)
    ensures !Finish(s, id).collecting
  {
  }

  /** With no collection on, a mutator that waits can get going. */
  lemma CanGoOn(s: State, id: int) returns (s2: State)
    requires Inv(s) && !s.collecting && id in s.threads && IsWaiting(s.threads[id])
    ensures Next(s, s2) && Inv(s2) && !s2.collecting && |Ones(s2, IsWaiting)| < |Ones(s, IsWaiting)|
  {
    hide Counted, AllStopped;
    assert LockFree(s);
    match s.threads[id] {
      case AddWait(_) => s2 := To(s, id, Running).(count := s.count + 1);
      case Paused(_, _) => s2 := To(s, id, Running).(paused := s.paused - 1);
      case BackWait(_) => s2 := To(s, id, Running).(inactive := s.inactive - 1);
    }
    assert Step(s, s2, id);
    StepKeepsInv(s, s2, id);
    OneLess(s, s2, id, IsWaiting);
  }

  lemma AllCanGoOn(s: State) returns (t: State)
    requires Inv(s) && !s.collecting
    ensures CanReach(Next, s, t) && Inv(t) && !t.collecting && forall id | id in t.threads :: !IsWaiting(t.threads[id])
    decreases |Ones(s, IsWaiting)|
  {
    hide Inv, Next;
    if Ones(s, IsWaiting) == {} {
      NoOne(s, IsWaiting);
      ReachesSelf(Next, s);
      t := s;
    } else {
      var id := SomeOne(s, IsWaiting);
      var s2 := CanGoOn(s, id);
      t := AllCanGoOn(s2);
      ReachesNext(Next, s, s2, t);
    }
  }

  /** From every state of every run: a stop that was requested can still be reached, by the running
      mutators pausing. */
  lemma RequestCanBeMet(run: seq<State>, i: nat) returns (t: State)
    requires Run(run) && i < |run| && run[i].collecting
    ensures CanReach(Next, run[i], t) && exists id :: id in t.threads && t.threads[id] == Tracing
  {
    hide Inv, Next;
    RunKeepsInv(run, i);
    if LockFree(run[i]) {
      t := CanTrace(run[i]);
    } else {
      ReachesSelf(Next, run[i]);
      t := run[i];
    }
  }

  /** And after it every mutator that waits can get going again. */
  lemma EverybodyCanGoOn(run: seq<State>, i: nat) returns (t: State)
    requires Run(run) && i < |run|
    ensures CanReach(Next, run[i], t) && !t.collecting
    ensures forall id | id in t.threads :: t.threads[id].Outside? || t.threads[id].Running? || t.threads[id].Inactive?
  {
    hide Inv, Next, LockFree;
    RunKeepsInv(run, i);
    var s := run[i];
    ReachesSelf(Next, s);
    if s.collecting {
      if LockFree(s) { s := CanTrace(s); }
      var u := CanFinish(s);
      ReachesStep(Next, s, u);
      ReachesTrans(Next, run[i], s, u);
      s := u;
    }
    t := AllCanGoOn(s);
    ReachesTrans(Next, run[i], s, t);
    NoCollectors(t);
  }

  lemma NoCollectors(s: State)
    requires Inv(s) && !s.collecting
    ensures forall id | id in s.threads :: !IsCollector(s.threads[id])
  {
    hide Counted;
  }

  /** What a mutator may ask for when nothing is stopping it. */
  lemma MutatorCan(s: State, id: int)
    requires Inv(s) && id in s.threads && !s.collecting
    ensures s.threads[id].Running? ==> exists s2 :: Step(s, s2, id) && s2.collecting
    ensures s.threads[id].Running? || s.threads[id].Inactive? ==> exists s2 :: Step(s, s2, id) && s2.threads[id].Outside?
    ensures s.threads[id].Running? ==> exists s2 :: Step(s, s2, id) && s2.threads[id].Inactive?
    ensures s.threads[id].Inactive? || s.threads[id].Outside? ==> exists s2 :: Step(s, s2, id) && s2.threads[id].Running?
    ensures s.threads[id].Paused? && !s.threads[id].asleep ==> exists s2 :: Step(s, s2, id) && s2.threads[id].Running?
    ensures s.threads[id] == Paused(false, Trigger) ==> exists s2 :: Step(s, s2, id) && s2.collecting
  {
    hide Counted, NoLostWakeup, AllStopped;
    assert LockFree(s);
    var p := s.threads[id];
    if p.Running? {
      assert Step(s, StartCollection(s, id), id);
      assert Step(s, Deactivate(s, id), id);
      assert Step(s, Remove(s, id), id);
    } else if p.Inactive? {
      assert Step(s, Reactivate(s, id), id);
      assert Step(s, Remove(s, id), id);
    } else if p.Outside? {
      assert Step(s, Add(s, id), id);
    } else if p.Paused? && !p.asleep {
      var s1 := To(s, id, Running).(paused := s.paused - 1);
      assert Step(s, s1, id);
      if p.why == Trigger { assert Step(s, StartCollection(s1, id), id); }
    }
  }

  /** Only a mutator that runs, or was on its way to a collection of its own, asks for one. */
  lemma WhoAsks(s: State, s2: State, id: int)
    requires Inv(s) && Step(s, s2, id) && !s.collecting && s2.collecting
    ensures s.threads[id].Running? || s.threads[id] == Paused(false, Trigger)
    ensures id in s2.threads && IsCollector(s2.threads[id])
  {
    hide Counted, NoLostWakeup, OneCollector;
  }
}
