/** A dispatch of the pool can always come to its end, if the cursor has room: every thread can leave it, and
    then the caller can return. */
module PoolEnds {
  import opened Basics
  import opened Runs
  import opened PoolDispatch

  /** The thread alone moves, but for a caller that is woken. */
  ghost predicate OnlyMoves(s: State, s2: State, t: int) {
    && s2.threads.Keys == s.threads.Keys && t in s.threads && s2.gen == s.gen && s2.n == s.n && s2.chunk == s.chunk
    && (forall i | i != t :: SeenBy(s2, i) == SeenBy(s, i))
    && (forall i | i in s.threads && i != t :: s2.threads[i] == s.threads[i] || (s.threads[i].JoinWait? && s2.threads[i].JoinWait?))
  }

  /** The job is on and the cursor has room. */
  ghost predicate Roomy(s: State) {
    Inv(s) && s.gen > 0 && s.chunk > 0 && Fits(s.n, s.chunk, |s.threads|)
  }

  /** How much of the range is before the cursor. */
  function Rest(s: State, pc: Pc): int {
    if (pc.Parked? || pc.Work? || pc.InKernel?) && s.cursor < s.n then s.n - s.cursor else 0
  }

  function Rank(pc: Pc): int {
    match pc
    case Parked(asleep) => if asleep then 5 else 4
    case InKernel(_, _) => 3
    case Work => 2
    case Finish => 1
    case _ => 0
  }

  /** While the range lasts the cursor moves on without wrapping. */
  lemma CursorMoves(n: int, chunk: int, threads: int, cursor: int, handed: int, misses: int, calls: seq<(int, int)>)
    requires CursorOk(n, chunk, threads, cursor, handed, misses, calls) && Fits(n, chunk, threads) && cursor < n && threads > 0
    ensures cursor < Int32(cursor + chunk)
  {
    hide CallsOk, StrayCall, Rounded;
    MoreMisses(n, chunk, threads, 0);
    assert Sound(handed, misses, chunk);
    if misses == 0 { RoundedIs(n, chunk, handed); }
  }

  lemma ThreadSays(s: State, t: int)
    requires Inv(s) && t in s.threads
    ensures ThreadOk(t, s.threads[t], SeenBy(s, t), s.gen)
  {
    hide CursorOk, PendingOnes, Grabbers;
  }

  lemma StillRoomy(s: State, s2: State, t: int)
    requires Roomy(s) && Step(s, s2, t) && OnlyMoves(s, s2, t)
    ensures Roomy(s2)
  {
    hide Inv, Step, Fits;
    StepKeepsInv(s, s2, t);
    assert |s2.threads| == |s2.threads.Keys| && |s.threads| == |s.threads.Keys|;
  }

  lemma WorkCan(s: State, t: int) returns (s2: State)
    requires Roomy(s) && t in s.threads && s.threads[t].Work?
    ensures Step(s, s2, t) && OnlyMoves(s, s2, t)
    ensures 0 <= Rest(s2, s2.threads[t]) < Rest(s, s.threads[t]) || (s2.threads[t].Finish? && Rest(s2, s2.threads[t]) == 0)
  {
    hide Inv, Fits, Rounded;
    var lo := s.cursor;
    var past := Int32(lo + s.chunk);
    var hi := if past > s.n then s.n else past;
    if lo >= s.n {
      s2 := Go(s, t, Finish).(cursor := past, handed := s.handed + s.chunk, misses := s.misses + 1);
    } else {
      Cursor(s);
      CursorMoves(s.n, s.chunk, |s.threads|, s.cursor, s.handed, s.misses, s.calls);
      s2 := Go(s, t, InKernel(lo, hi)).(cursor := past, handed := s.handed + s.chunk, calls := s.calls + [(lo, hi)]);
    }
  }

  lemma Cursor(s: State)
    requires Inv(s) && s.gen > 0
    ensures CursorOk(s.n, s.chunk, |s.threads|, s.cursor, s.handed, s.misses, s.calls) && |s.threads| > 0
  {
    hide CursorOk, PendingOnes, Grabbers, ThreadOk;
  }

  /** A thread that has yet to leave can go on, and comes nearer to leaving. */
  lemma PendingCan(s: State, t: int) returns (s2: State)
    requires Roomy(s) && t in s.threads && Pending(s.threads[t], SeenBy(s, t), s.gen) && !s.threads[t].Finish?
    ensures Step(s, s2, t) && OnlyMoves(s, s2, t) && Pending(s2.threads[t], SeenBy(s2, t), s2.gen)
    ensures 0 <= Rest(s2, s2.threads[t]) <= Rest(s, s.threads[t]) && 0 <= Rank(s2.threads[t])
    ensures Rest(s2, s2.threads[t]) == Rest(s, s.threads[t]) ==> Rank(s2.threads[t]) < Rank(s.threads[t])
  {
    hide Inv, Fits;
    match s.threads[t]
    case Work => s2 := WorkCan(s, t);
    case InKernel(_, _) => s2 := Go(s, t, Work);
    case Parked(asleep) =>
      if asleep {
        s2 := Go(s, t, Parked(false));
      } else {
        s2 := Go(s, t, Work).(seen := s.seen[t := s.gen]);
        forall i | i != t ensures SeenBy(s2, i) == SeenBy(s, i) { SeenElsewhere(s, s2, t, s.gen, i); }
      }
    case _ =>
  }

  /** Left alone it comes to the end of its work. */
  lemma RunsAlone(s: State, t: int) returns (u: State)
    requires Roomy(s) && t in s.threads && Pending(s.threads[t], SeenBy(s, t), s.gen)
    ensures CanReach(Next, s, u) && Roomy(u) && OnlyMoves(s, u, t) && u.threads[t].Finish?
    decreases Rest(s, s.threads[t]), Rank(s.threads[t])
  {
    hide Inv, Fits, Step, Pending, Rest, Rank;
    if s.threads[t].Finish? {
      ReachesSelf(Next, s);
      u := s;
    } else {
      var s2 := PendingCan(s, t);
      StillRoomy(s, s2, t);
      u := RunsAlone(s2, t);
      assert Next(s, s2);
      ReachesNext(Next, s, s2, u);
    }
  }

  lemma LeaveCan(s: State, t: int) returns (s2: State)
    requires Roomy(s) && t in s.threads && s.threads[t].Finish?
    ensures Step(s, s2, t) && OnlyMoves(s, s2, t) && !Pending(s2.threads[t], SeenBy(s2, t), s2.gen)
  {
    ThreadSays(s, t);
    hide Inv, Fits;
    s2 := Done(s, t);
  }

  lemma OneLess(s: State, u: State, t: int)
    requires OnlyMoves(s, u, t) && Pending(s.threads[t], SeenBy(s, t), s.gen) && !Pending(u.threads[t], SeenBy(u, t), u.gen)
    ensures |PendingOnes(u)| < |PendingOnes(s)|
  {
    var a, b := PendingOnes(s), PendingOnes(u);
    forall i ensures i in b ==> i in a && i != t {}
    assert b <= a - {t};
    SubsetSize(b, a - {t});
  }

  /** All can leave. */
  lemma AllCanLeave(s: State) returns (u: State)
    requires Roomy(s)
    ensures CanReach(Next, s, u) && Roomy(u) && u.gen == s.gen && PendingOnes(u) == {}
    decreases |PendingOnes(s)|
  {
    hide Inv, Fits, Step, PendingOnes, Pending;
    if PendingOnes(s) == {} {
      ReachesSelf(Next, s);
      u := s;
    } else {
      var t := SomePending(s);
      var a := RunsAlone(s, t);
      var b := LeaveCan(a, t);
      StillRoomy(a, b, t);
      OnlyTrans(s, a, b, t);
      OneLess(s, b, t);
      u := AllCanLeave(b);
      assert Next(a, b);
      ReachesNext(Next, a, b, u);
      ReachesTrans(Next, s, a, u);
    }
  }

  lemma OnlyTrans(s: State, a: State, b: State, t: int)
    requires OnlyMoves(s, a, t) && OnlyMoves(a, b, t)
    ensures OnlyMoves(s, b, t)
  {
  }

  lemma SomePending(s: State) returns (t: int)
    requires PendingOnes(s) != {}
    ensures t in s.threads && Pending(s.threads[t], SeenBy(s, t), s.gen)
  {
    t := Pick(PendingOnes(s));
  }

  /** From every state of a dispatch that fits, the caller can come back. */
  lemma CanReturn(run: seq<State>, i: nat) returns (u: State)
    requires Run(run) && i < |run| && run[i].gen > 0 && run[i].chunk > 0 && Fits(run[i].n, run[i].chunk, |run[i].threads|)
    ensures CanReach(Next, run[i], u) && u.gen == run[i].gen && 0 in u.threads && u.threads[0] == Out
  {
    RunKeepsInv(run, i);
    hide Inv, Fits, Run, Next;
    var s := AllCanLeave(run[i]);
    u := CallerCan(s);
    if u != s {
      NextStep(s, u, 0);
      ReachesStep(Next, s, u);
      ReachesTrans(Next, run[i], s, u);
    }
  }

  lemma NextStep(s: State, s2: State, t: int)
    requires Step(s, s2, t)
    ensures Next(s, s2)
  {
    hide Step;
  }

  lemma KeepsThread(s: State, s2: State, t: int)
    requires OnlyMoves(s, s2, t)
    ensures t in s2.threads
  {
  }

  lemma CallerCan(s: State) returns (u: State)
    requires Roomy(s) && PendingOnes(s) == {}
    ensures u == s || (Step(s, u, 0) && s.threads[0] != Out)
    ensures u.gen == s.gen && 0 in u.threads && u.threads[0] == Out
  {
    hide CursorOk, Fits, Grabbers;
    ThreadSays(s, 0);
    assert 0 !in PendingOnes(s);
    assert s.active == 0;
    if s.threads[0] == Out {
      u := s;
    } else {
      u := Go(s, 0, Out);
      assert Step(s, u, 0);
    }
  }

  /** A caller that is back can begin any dispatch. */
  lemma CanDispatch(s: State, n: int, chunk: int)
    requires 0 in s.threads && s.threads[0] == Out && 0 < n < TWO31 && -TWO31 <= chunk < TWO31
    ensures exists s2 :: Step(s, s2, 0) && DispatchJob(s, s2, n, chunk)
  {
    var s2 := s.(n := n, chunk := if chunk <= 0 then 1 else chunk, cursor := 0, active := |s.threads|, gen := s.gen + 1,
                 threads := WakeAll(s.threads)[0 := Work], calls := [], handed := 0, misses := 0);
    assert DispatchJob(s, s2, n, chunk);
    assert Dispatch(s, s2);
  }
}
