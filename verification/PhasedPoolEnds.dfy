/** A phased dispatch on the pool can always come to its end, if there is room for every chunk. */
module PhasedPoolEnds {
  import opened Basics
  import opened Runs
  import opened PhasedPool
  import Pool = PoolDispatch
  import PoolEnds
  import Phased = PhasedRun
  import PhasedEnds

  // ----- what a run keeps ------------------------------------------------------------------

  ghost predicate Called(s: Pool.State, w: int) {
    exists t, hi :: InCall(s, t, w, hi)
  }

  predicate AtRest(pc: Phased.Pc) {
    pc.Idle? || pc.Left?
  }

  /** A worker that has begun and has not been told that all is finished is in some thread's call; and a
      call has the number of a worker. */
  ghost predicate CallsMatch(s: State) {
    && (forall w | w in s.phased.workers && !AtRest(s.phased.workers[w]) :: Called(s.pool, w))
    && (forall t | t in s.pool.threads && s.pool.threads[t].InKernel? :: s.pool.threads[t].lo in s.phased.workers)
  }

  lemma StillCalled(s: State, s2: State, t: int, u: int, w: int, hi: int)
    requires PoolStep(s, s2, t) && InCall(s.pool, u, w, hi) && !IsLeft(s.phased, w)
    ensures InCall(s2.pool, u, w, hi)
  {
    CallStays(s.pool, s2.pool, t, u, w, hi);
  }

  lemma PoolStepMatches(s: State, s2: State, t: int, threads: nat)
    requires CallsMatch(s) && PoolStep(s, s2, t) && s.pool.n == threads
    requires forall w :: w in s.phased.workers <==> 0 <= w < threads
    requires t in s.pool.threads && s.pool.threads[t].Work? ==> s.pool.cursor >= 0
    ensures CallsMatch(s2)
  {
    forall w | w in s2.phased.workers && !AtRest(s2.phased.workers[w]) ensures Called(s2.pool, w) {
      assert Called(s.pool, w);
      var u, hi :| InCall(s.pool, u, w, hi);
      StillCalled(s, s2, t, u, w, hi);
    }
  }

  lemma WorkerStepMatches(s: State, s2: State, w: int)
    requires CallsMatch(s) && WorkerStep(s, s2, w)
    ensures CallsMatch(s2)
  {
    OneWorker(s.phased, s2.phased, w);
    forall v | v in s2.phased.workers && !AtRest(s2.phased.workers[v]) ensures Called(s2.pool, v) {
      if v != w { assert Called(s.pool, v); }
    }
  }

  lemma OneWorker(s: Phased.State, s2: Phased.State, w: int)
    requires Phased.Step(s, s2, w)
    ensures w in s.workers && s2.workers.Keys == s.workers.Keys
    ensures forall v | v in s.workers && v != w :: s2.workers[v] == s.workers[v]
  {
  }

  /** With room the cursor never goes below the range while a thread can still read it. */
  lemma CursorStays(s: Pool.State, t: int)
    requires PoolEnds.Roomy(s) && t in s.threads && s.threads[t].Work?
    ensures s.cursor >= 0
  {
    hide Pool.Fits;
    PoolEnds.Cursor(s);
    Pool.SomeGrabber(s, t);
    hide Pool.Grabbers, Pool.PendingOnes;
    CursorSound(s.n, s.chunk, |s.threads|, s.cursor, s.handed, s.misses, s.calls);
  }

  lemma CursorSound(n: int, chunk: int, threads: int, cursor: int, handed: int, misses: int, calls: seq<(int, int)>)
    requires Pool.CursorOk(n, chunk, threads, cursor, handed, misses, calls) && Pool.Fits(n, chunk, threads) && misses < threads
    ensures cursor >= 0
  {
    hide Pool.CallsOk, Pool.StrayCall, Rounded;
    Pool.MoreMisses(n, chunk, threads, misses);
    if misses == 0 {
      Pool.MoreMisses(n, chunk, threads, 0);
      RoundedIs(n, chunk, handed - chunk) by { MultipleLess(handed, chunk); }
    }
  }

  lemma MultipleLess(x: int, chunk: int)
    requires chunk > 0 && x % chunk == 0
    ensures (x - chunk) % chunk == 0
  {
    var q := x / chunk;
    assert x == chunk * q;
    assert chunk * (q - 1) == chunk * q - chunk;
    RemainderIs(x - chunk, chunk, q - 1, 0);
  }

  /** Everything a state of a run has that the way to its end needs. */
  ghost predicate Roomy(s: State, n: int) {
    && PoolEnds.Roomy(s.pool) && PhasedEnds.Roomy(s.phased, n) && CallsMatch(s)
    && s.pool.n == |s.pool.threads| && 0 in s.pool.threads
    && forall w :: w in s.phased.workers <==> 0 <= w < |s.pool.threads|
  }

  lemma StartMatches(s: State, history: seq<Pool.State>, n: int)
    requires Starts(s, history, n)
    ensures CallsMatch(s)
  {
    var last := history[|history| - 1];
    hide Pool.Run;
    Pool.RunKeepsInv(history, |history| - 1);
    forall t | t in s.pool.threads ensures !s.pool.threads[t].InKernel? {
      PoolEnds.ThreadSays(last, t);
      NotAtWork(last, t);
    }
  }

  /** Between dispatches no thread is at work. */
  lemma NotAtWork(s: Pool.State, t: int)
    requires Pool.Inv(s) && s.threads[0] == Pool.Out && t in s.threads
    ensures !s.threads[t].InKernel?
  {
    hide Pool.CursorOk, Pool.Grabbers;
    assert t !in Pool.PendingOnes(s);
  }

  lemma {:induction false} RunRoomy(run: seq<State>, history: seq<Pool.State>, n: int, i: nat)
    requires Run(run, history, n) && i < |run| && Phased.Fits(run[0].phased.plan)
    ensures Roomy(run[i], n)
  {
    hide Pool.Run, Pool.Step, Phased.Step, Phased.Init, Phased.Fits, CallsMatch, Pool.Inv, Phased.Inv;
    PartsRoomy(run, history, n, i);
    if i == 0 {
      StartMatches(run[0], history, n);
    } else {
      RunRoomy(run, history, n, i - 1);
      var s, s2 := run[i - 1], run[i];
      if PoolMoves(s, s2) {
        var t :| PoolStep(s, s2, t);
        if s.pool.threads[t].Work? { CursorStays(s.pool, t); }
        PoolStepMatches(s, s2, t, |s.pool.threads|);
      } else {
        var w :| WorkerStep(s, s2, w);
        WorkerStepMatches(s, s2, w);
      }
    }
  }

  lemma PartsRoomy(run: seq<State>, history: seq<Pool.State>, n: int, i: nat)
    requires Run(run, history, n) && i < |run| && Phased.Fits(run[0].phased.plan)
    ensures var s := run[i]; PoolEnds.Roomy(s.pool) && PhasedEnds.Roomy(s.phased, n)
    ensures var s := run[i]; s.pool.n == |s.pool.threads| && 0 in s.pool.threads
    ensures forall w :: w in run[i].phased.workers <==> 0 <= w < |run[i].pool.threads|
  {
    hide Pool.Run, Pool.Step, Phased.Step, Phased.Init, Phased.Fits, Pool.Inv, Phased.Inv, Pool.Fits, Kernels;
    RunKeeps(run, history, n, i);
    StartKeeps(run[0], history, n);
    var pools := PoolPart(run, history, n, i);
    NotEmpty(pools);
    Pool.RunKeepsInv(pools, |pools| - 1);
    Pool.EnoughRoom(run[i].pool.n, 1, |run[i].pool.threads|);
    var states := PhasedPart(run, history, n, i);
    Phased.RunKeepsInv(states, n, |states| - 1);
  }

  // ----- workers in calls can come to their end --------------------------------------------

  ghost function CalledOnes(s: State): set<int> {
    set w | w in s.phased.workers && Called(s.pool, w)
  }

  /** Steps of workers that are in calls are steps of the whole. */
  lemma {:induction false} Lift(run: seq<Phased.State>, may: set<int>, pool: Pool.State, a: Phased.State, b: Phased.State)
    requires Leads(PhasedEnds.Steps(may), run, a, b) && forall w | w in may :: Called(pool, w)
    ensures CanReach(Next, State(pool, a), State(pool, b))
    ensures b.workers.Keys == a.workers.Keys && forall v | v in a.workers && v !in may :: b.workers[v] == a.workers[v]
    decreases |run|
  {
    hide Phased.Step, Next, Called;
    if |run| == 1 {
      ReachesSelf(Next, State(pool, a));
    } else {
      var m := run[|run| - 2];
      assert PhasedEnds.Steps(may)(run[|run| - 2], run[|run| - 1]);
      var w :| w in may && Phased.Step(m, b, w);
      assert Leads(PhasedEnds.Steps(may), run[..|run| - 1], a, m);
      Lift(run[..|run| - 1], may, pool, a, m);
      OneWorker(m, b, w);
      LiftStep(pool, m, b, w);
      ReachesStep(Next, State(pool, m), State(pool, b));
      ReachesTrans(Next, State(pool, a), State(pool, m), State(pool, b));
    }
  }

  lemma LiftStep(pool: Pool.State, a: Phased.State, b: Phased.State, w: int)
    requires Phased.Step(a, b, w) && Called(pool, w)
    ensures Next(State(pool, a), State(pool, b))
  {
    hide Phased.Step;
    assert WorkerStep(State(pool, a), State(pool, b), w);
  }

  lemma LiftReach(may: set<int>, pool: Pool.State, a: Phased.State, b: Phased.State)
    requires CanReach(PhasedEnds.Steps(may), a, b) && forall w | w in may :: Called(pool, w)
    ensures CanReach(Next, State(pool, a), State(pool, b))
    ensures b.workers.Keys == a.workers.Keys && forall v | v in a.workers && v !in may :: b.workers[v] == a.workers[v]
  {
    hide PhasedEnds.Steps, Called, Next;
    var run :| Leads(PhasedEnds.Steps(may), run, a, b);
    Lift(run, may, pool, a, b);
  }

  lemma BusyCalled(s: State)
    requires CallsMatch(s)
    ensures PhasedEnds.BusyOnes(s.phased) <= CalledOnes(s)
    ensures forall w | w in CalledOnes(s) :: Called(s.pool, w)
  {
    hide Called;
  }

  /** The worker a thread is in a call for can be told that all is finished. */
  lemma CanFinishWorker(s: State, n: int, w: int) returns (t: State)
    requires Roomy(s, n) && w in s.phased.workers && Called(s.pool, w)
    ensures CanReach(Next, s, t) && Roomy(t, n) && t.pool == s.pool && IsLeft(t.phased, w)
  {
    hide PoolEnds.Roomy, PhasedEnds.Roomy, CallsMatch, PhasedEnds.Steps, Next, Called, PhasedEnds.BusyOnes;
    var may := CalledOnes(s);
    BusyCalled(s);
    var a := PhasedEnds.AllCanComeBack(s.phased, n, may);
    var b := a;
    if a.workers[w] != Phased.Left {
      b := PhasedEnds.CanLeaveFrom(a, n, may, w);
      ReachesTrans(PhasedEnds.Steps(may), s.phased, a, b);
    }
    LiftReach(may, s.pool, s.phased, b);
    t := State(s.pool, b);
    assert s == State(s.pool, s.phased);
    StillMatch(s, t);
  }

  lemma StillMatch(s: State, t: State)
    requires CallsMatch(s) && t.pool == s.pool && t.phased.workers.Keys == s.phased.workers.Keys
    requires forall v | v in s.phased.workers && v !in CalledOnes(s) :: t.phased.workers[v] == s.phased.workers[v]
    ensures CallsMatch(t)
  {
    hide Called;
    forall v | v in t.phased.workers && !AtRest(t.phased.workers[v]) ensures Called(t.pool, v) {
      if v !in CalledOnes(s) { assert Called(s.pool, v); }
    }
  }

  // ----- threads ---------------------------------------------------------------------------

  lemma PoolStepRoomy(s: State, s2: State, n: int, t: int)
    requires Roomy(s, n) && PoolStep(s, s2, t) && PoolEnds.OnlyMoves(s.pool, s2.pool, t)
    ensures Roomy(s2, n) && Next(s, s2)
  {
    hide Pool.Step, PoolEnds.Roomy, PhasedEnds.Roomy, CallsMatch;
    if s.pool.threads[t].Work? { CursorStays(s.pool, t); }
    PoolEnds.StillRoomy(s.pool, s2.pool, t);
    PoolStepMatches(s, s2, t, |s.pool.threads|);
    assert |s2.pool.threads| == |s2.pool.threads.Keys| && |s.pool.threads| == |s.pool.threads.Keys|;
  }

  /** A thread that has yet to leave the dispatch can go on. */
  lemma ThreadCan(s: State, n: int, t: int) returns (s2: State)
    requires Roomy(s, n) && t in s.pool.threads && Pool.Pending(s.pool.threads[t], Pool.SeenBy(s.pool, t), s.pool.gen)
    requires !s.pool.threads[t].Finish?
    ensures CanReach(Next, s, s2) && Roomy(s2, n) && PoolEnds.OnlyMoves(s.pool, s2.pool, t)
    ensures Pool.Pending(s2.pool.threads[t], Pool.SeenBy(s2.pool, t), s2.pool.gen)
    ensures 0 <= PoolEnds.Rest(s2.pool, s2.pool.threads[t]) <= PoolEnds.Rest(s.pool, s.pool.threads[t])
    ensures 0 <= PoolEnds.Rank(s2.pool.threads[t])
    ensures PoolEnds.Rest(s2.pool, s2.pool.threads[t]) == PoolEnds.Rest(s.pool, s.pool.threads[t]) ==>
      PoolEnds.Rank(s2.pool.threads[t]) < PoolEnds.Rank(s.pool.threads[t])
  {
    hide Next, PoolEnds.Roomy, PhasedEnds.Roomy, PoolEnds.Rest, PoolEnds.Rank, Pool.Step, PoolEnds.OnlyMoves;
    var a := s;
    ReachesSelf(Next, s);
    if s.pool.threads[t].InKernel? {
      CallHasWorker(s, n, t);
      a := CanFinishWorker(s, n, s.pool.threads[t].lo);
    }
    var p := PoolEnds.PendingCan(a.pool, t);
    s2 := State(p, a.phased);
    assert PoolStep(a, s2, t);
    PoolStepRoomy(a, s2, n, t);
    ReachesStep(Next, a, s2);
    ReachesTrans(Next, s, a, s2);
  }

  lemma CallHasWorker(s: State, n: int, t: int)
    requires Roomy(s, n) && t in s.pool.threads && s.pool.threads[t].InKernel?
    ensures s.pool.threads[t].lo in s.phased.workers && Called(s.pool, s.pool.threads[t].lo)
  {
    hide PoolEnds.Roomy, PhasedEnds.Roomy;
    var c := s.pool.threads[t];
    assert InCall(s.pool, t, c.lo, c.hi);
  }

  lemma RunsAlone(s: State, n: int, t: int) returns (u: State)
    requires Roomy(s, n) && t in s.pool.threads && Pool.Pending(s.pool.threads[t], Pool.SeenBy(s.pool, t), s.pool.gen)
    ensures CanReach(Next, s, u) && Roomy(u, n) && PoolEnds.OnlyMoves(s.pool, u.pool, t) && u.pool.threads[t].Finish?
    decreases PoolEnds.Rest(s.pool, s.pool.threads[t]), PoolEnds.Rank(s.pool.threads[t])
  {
    hide Next, PoolEnds.Rest, PoolEnds.Rank, Pool.Pending, Roomy;
    if s.pool.threads[t].Finish? {
      ReachesSelf(Next, s);
      u := s;
    } else {
      var a := ThreadCan(s, n, t);
      u := RunsAlone(a, n, t);
      ReachesTrans(Next, s, a, u);
      PoolEnds.OnlyTrans(s.pool, a.pool, u.pool, t);
    }
  }

  lemma LeaveCan(s: State, n: int, t: int) returns (u: State)
    requires Roomy(s, n) && t in s.pool.threads && s.pool.threads[t].Finish?
    ensures CanReach(Next, s, u) && Roomy(u, n) && PoolEnds.OnlyMoves(s.pool, u.pool, t)
    ensures !Pool.Pending(u.pool.threads[t], Pool.SeenBy(u.pool, t), u.pool.gen)
  {
    hide Next, PoolEnds.Roomy, PhasedEnds.Roomy, Pool.Step, PoolEnds.OnlyMoves, Pool.Pending;
    var p := PoolEnds.LeaveCan(s.pool, t);
    u := State(p, s.phased);
    assert PoolStep(s, u, t);
    PoolStepRoomy(s, u, n, t);
    ReachesStep(Next, s, u);
  }

  lemma AllCanLeave(s: State, n: int) returns (u: State)
    requires Roomy(s, n)
    ensures CanReach(Next, s, u) && Roomy(u, n) && Pool.PendingOnes(u.pool) == {}
    decreases |Pool.PendingOnes(s.pool)|
  {
    hide Next, Roomy, Pool.PendingOnes, Pool.Pending, PoolEnds.OnlyMoves;
    if Pool.PendingOnes(s.pool) == {} {
      ReachesSelf(Next, s);
      u := s;
    } else {
      var t := PoolEnds.SomePending(s.pool);
      var a := RunsAlone(s, n, t);
      PoolEnds.KeepsThread(s.pool, a.pool, t);
      var b := LeaveCan(a, n, t);
      PoolEnds.OnlyTrans(s.pool, a.pool, b.pool, t);
      PoolEnds.OneLess(s.pool, b.pool, t);
      u := AllCanLeave(b, n);
      ReachesTrans(Next, s, a, b);
      ReachesTrans(Next, s, b, u);
    }
  }

  /** With room for every chunk: from every state of a phased dispatch its caller can come back. */
  lemma CanReturn(run: seq<State>, history: seq<Pool.State>, n: int, i: nat) returns (u: State)
    requires Run(run, history, n) && i < |run| && Phased.Fits(run[0].phased.plan)
    ensures CanReach(Next, run[i], u) && 0 in u.pool.threads && u.pool.threads[0] == Pool.Out
  {
    RunRoomy(run, history, n, i);
    hide Run, Next, Phased.Fits, PoolEnds.Roomy, PhasedEnds.Roomy, CallsMatch;
    var a := AllCanLeave(run[i], n);
    var p := PoolEnds.CallerCan(a.pool);
    u := a;
    if p != a.pool {
      u := State(p, a.phased);
      CallerReturns(a, p, n);
      ReachesStep(Next, a, u);
      ReachesTrans(Next, run[i], a, u);
    }
  }

  lemma CallerReturns(s: State, p: Pool.State, n: int)
    requires Roomy(s, n) && Pool.PendingOnes(s.pool) == {} && Pool.Step(s.pool, p, 0) && s.pool.threads[0] != Pool.Out
    ensures Next(s, State(p, s.phased))
  {
    hide Pool.Step, PoolEnds.Roomy, PhasedEnds.Roomy;
    NotInKernel(s.pool, 0);
    assert PoolStep(s, State(p, s.phased), 0);
  }

  lemma NotInKernel(s: Pool.State, t: int)
    requires t in s.threads && Pool.PendingOnes(s) == {}
    ensures !s.threads[t].InKernel?
  {
    assert t !in Pool.PendingOnes(s);
  }
}
