/** A phased dispatch on the pool: the pool is given the numbers of its own threads one at a time, and what a
    thread does with the number it gets is to work on the phased dispatch, as the worker of that number,
    until it is told that all is finished. */
module PhasedPool {
  import opened Basics
  import Pool = PoolDispatch
  import Phased = PhasedRun

  const POOL_MAX := 16

  datatype State = State(pool: Pool.State, phased: Phased.State)

  /** The pool, whatever it has been used for before, is given as many indices as it has threads. */
  ghost predicate Starts(s: State, history: seq<Pool.State>, n: int) {
    && Pool.Run(history) && Phased.Init(s.phased, n)
    && var last := history[|history| - 1];
    && 0 in last.threads && last.threads[0] == Pool.Out && |last.threads| <= POOL_MAX + 1
    && Pool.DispatchJob(last, s.pool, |last.threads|, 1)
    && (forall w :: w in s.phased.workers <==> 0 <= w < |last.threads|)
  }

  /** A thread comes back from its kernel call when the worker it was has been told that all is finished. */
  ghost predicate PoolStep(s: State, s2: State, t: int) {
    && s2.phased == s.phased && t in s.pool.threads && s.pool.threads[t] != Pool.Out && Pool.Step(s.pool, s2.pool, t)
    && (s.pool.threads[t].InKernel? ==> IsLeft(s.phased, s.pool.threads[t].lo))
  }

  ghost predicate IsLeft(s: Phased.State, w: int) {
    w in s.workers && s.workers[w] == Phased.Left
  }

  ghost predicate InCall(s: Pool.State, t: int, lo: int, hi: int) {
    t in s.threads && s.threads[t] == Pool.InKernel(lo, hi)
  }

  /** A worker moves while some thread is in the call with its number. */
  ghost predicate WorkerStep(s: State, s2: State, w: int) {
    && s2.pool == s.pool && Phased.Step(s.phased, s2.phased, w)
    && exists t, hi :: InCall(s.pool, t, w, hi)
  }

  ghost predicate PoolMoves(s: State, s2: State) {
    exists t :: PoolStep(s, s2, t)
  }

  ghost predicate WorkerMoves(s: State, s2: State) {
    exists w :: WorkerStep(s, s2, w)
  }

  ghost predicate Next(s: State, s2: State) {
    PoolMoves(s, s2) || WorkerMoves(s, s2)
  }

  ghost predicate Run(run: seq<State>, history: seq<Pool.State>, n: int) {
    && |run| > 0 && Starts(run[0], history, n)
    && forall i | 0 <= i < |run| - 1 :: Next(run[i], run[i + 1])
  }

  /** A number handed out is that of one thread, still in its call or told that all is finished. */
  ghost predicate CallOk(s: State, c: (int, int)) {
    c.1 <= c.0 + 1 && (IsLeft(s.phased, c.0) || exists t :: InCall(s.pool, t, c.0, c.1))
  }

  ghost predicate Kernels(s: State) {
    forall k | 0 <= k < |s.pool.calls| :: CallOk(s, s.pool.calls[k])
  }

  /** The job does not change. */
  ghost predicate SameJob(s: State, gen: int, threads: nat) {
    && s.pool.gen == gen && s.pool.n == threads && s.pool.chunk == 1 && |s.pool.threads| == threads
    && -TWO31 <= s.pool.cursor < TWO31
    && (forall w :: w in s.phased.workers <==> 0 <= w < threads)
  }

  lemma PoolStepKeeps(s: State, s2: State, t: int, gen: int, threads: nat)
    requires PoolStep(s, s2, t) && Kernels(s) && SameJob(s, gen, threads) && 0 in s.pool.threads
    ensures Kernels(s2) && SameJob(s2, gen, threads) && 0 in s2.pool.threads
  {
    PoolJob(s.pool, s2.pool, t);
    forall k | 0 <= k < |s2.pool.calls| ensures CallOk(s2, s2.pool.calls[k]) {
      var c := s2.pool.calls[k];
      if k < |s.pool.calls| {
        assert s.pool.calls[k] == c && CallOk(s, c);
        if !IsLeft(s.phased, c.0) {
          var u :| InCall(s.pool, u, c.0, c.1);
          CallStays(s.pool, s2.pool, t, u, c.0, c.1);
        }
      } else {
        assert InCall(s2.pool, t, c.0, c.1);
      }
    }
  }

  ghost predicate OneNumber(s: Pool.State, t: int, c: (int, int)) {
    c.1 <= c.0 + 1 && InCall(s, t, c.0, c.1)
  }

  /** What a step of the pool does not change, and what it adds to the calls. */
  lemma PoolJob(s: Pool.State, s2: Pool.State, t: int)
    requires t in s.threads && s.threads[t] != Pool.Out && Pool.Step(s, s2, t) && 0 in s.threads && s.chunk == 1
    requires -TWO31 <= s.cursor < TWO31
    ensures -TWO31 <= s2.cursor < TWO31
    ensures s2.gen == s.gen && s2.n == s.n && s2.chunk == s.chunk && s2.threads.Keys == s.threads.Keys
    ensures |s2.threads| == |s.threads| && s.calls <= s2.calls && |s2.calls| <= |s.calls| + 1
    ensures |s2.calls| > |s.calls| ==> OneNumber(s2, t, s2.calls[|s.calls|])
  {
    assert |s2.threads| == |s2.threads.Keys| && |s.threads| == |s.threads.Keys|;
  }

  /** A thread stays in its call until it makes a step itself. */
  lemma CallStays(s: Pool.State, s2: Pool.State, t: int, u: int, lo: int, hi: int)
    requires t in s.threads && s.threads[t] != Pool.Out && Pool.Step(s, s2, t) && InCall(s, u, lo, hi)
    ensures u != t ==> InCall(s2, u, lo, hi)
  {
  }

  lemma WorkerStepKeeps(s: State, s2: State, w: int, gen: int, threads: nat)
    requires WorkerStep(s, s2, w) && Kernels(s) && SameJob(s, gen, threads)
    ensures Kernels(s2) && SameJob(s2, gen, threads)
  {
    WorkersStay(s.phased, s2.phased, w);
    forall k | 0 <= k < |s2.pool.calls| ensures CallOk(s2, s2.pool.calls[k]) {
      var c := s.pool.calls[k];
      assert CallOk(s, c);
      if !IsLeft(s.phased, c.0) {
        var u :| InCall(s.pool, u, c.0, c.1);
        assert InCall(s2.pool, u, c.0, c.1);
      }
    }
  }

  lemma WorkersStay(s: Phased.State, s2: Phased.State, w: int)
    requires Phased.Step(s, s2, w)
    ensures s2.workers.Keys == s.workers.Keys && forall v | IsLeft(s, v) :: IsLeft(s2, v)
  {
  }

  lemma {:induction false} RunKeeps(run: seq<State>, history: seq<Pool.State>, n: int, i: nat)
    requires Run(run, history, n) && i < |run|
    ensures Kernels(run[i]) && SameJob(run[i], run[0].pool.gen, |run[0].pool.threads|) && 0 in run[i].pool.threads
  {
    hide Kernels, SameJob, PoolStep, WorkerStep, Starts;
    if i == 0 {
      StartKeeps(run[0], history, n);
    } else {
      RunKeeps(run, history, n, i - 1);
      var s, s2 := run[i - 1], run[i];
      if PoolMoves(s, s2) {
        var t :| PoolStep(s, s2, t);
        PoolStepKeeps(s, s2, t, run[0].pool.gen, |run[0].pool.threads|);
      } else {
        var w :| WorkerStep(s, s2, w);
        WorkerStepKeeps(s, s2, w, run[0].pool.gen, |run[0].pool.threads|);
        SamePool(s, s2, w);
      }
    }
  }

  lemma SamePool(s: State, s2: State, w: int)
    requires WorkerStep(s, s2, w)
    ensures s2.pool == s.pool
  {
  }

  lemma StartKeeps(s: State, history: seq<Pool.State>, n: int)
    requires Starts(s, history, n)
    ensures Kernels(s) && SameJob(s, s.pool.gen, |s.pool.threads|) && 0 in s.pool.threads
    ensures s.pool.gen > 0 && |s.pool.threads| <= POOL_MAX + 1
  {
    Pool.RunKeepsInv(history, |history| - 1);
    hide Phased.Init;
    var last := history[|history| - 1];
    assert s.pool.threads.Keys == last.threads.Keys;
    assert |s.pool.threads| == |s.pool.threads.Keys| && |last.threads| == |last.threads.Keys|;
  }

  /** The pool's part of a run is a run of the pool. */
  lemma {:induction false} PoolPart(run: seq<State>, history: seq<Pool.State>, n: int, i: nat) returns (pools: seq<Pool.State>)
    requires Run(run, history, n) && i < |run|
    ensures Pool.Run(pools) && pools[|pools| - 1] == run[i].pool
  {
    hide Pool.Run, Pool.Step, Phased.Step, Phased.Init;
    if i == 0 {
      NotEmpty(history);
      StartIsStep(history[|history| - 1], run[0].pool);
      Pool.RunMore(history, run[0].pool, 0);
      pools := history + [run[0].pool];
    } else {
      pools := PoolPart(run, history, n, i - 1);
      NotEmpty(pools);
      var s, s2 := run[i - 1], run[i];
      if PoolMoves(s, s2) {
        var t :| PoolStep(s, s2, t);
        Pool.RunMore(pools, s2.pool, t);
        pools := pools + [s2.pool];
      }
    }
  }

  lemma NotEmpty(run: seq<Pool.State>)
    requires Pool.Run(run)
    ensures |run| > 0
  {
  }

  lemma StartIsStep(last: Pool.State, s: Pool.State)
    requires 0 in last.threads && last.threads[0] == Pool.Out && Pool.DispatchJob(last, s, |last.threads|, 1)
    ensures Pool.Step(last, s, 0)
  {
    hide Pool.DispatchJob;
    assert Pool.Dispatch(last, s);
  }

  /** The workers' part of a run is a run of the phased dispatch. */
  lemma {:induction false} PhasedPart(run: seq<State>, history: seq<Pool.State>, n: int, i: nat) returns (states: seq<Phased.State>)
    requires Run(run, history, n) && i < |run|
    ensures Phased.Run(states, n) && states[0] == run[0].phased && states[|states| - 1] == run[i].phased
  {
    hide Pool.Run, Pool.Step, Phased.Step, Phased.Init;
    if i == 0 {
      states := [run[0].phased];
    } else {
      states := PhasedPart(run, history, n, i - 1);
      var s, s2 := run[i - 1], run[i];
      if WorkerMoves(s, s2) {
        var w :| WorkerStep(s, s2, w);
        Phased.RunMore(states, n, s2.phased, w);
        states := states + [s2.phased];
      }
    }
  }

  lemma {:induction false} TimesSome(calls: seq<(int, int)>, x: int) returns (k: nat)
    requires Pool.Times(calls, x) > 0
    ensures k < |calls| && calls[k].0 <= x < calls[k].1
  {
    var c := calls[|calls| - 1];
    if c.0 <= x < c.1 {
      k := |calls| - 1;
    } else {
      k := TimesSome(calls[..|calls| - 1], x);
    }
  }

  /** When the caller is back every worker has been told that all is finished. */
  lemma AllLeft(run: seq<State>, history: seq<Pool.State>, n: int, i: nat, w: int)
    requires Run(run, history, n) && i < |run| && 0 in run[i].pool.threads && run[i].pool.threads[0] == Pool.Out
    requires w in run[i].phased.workers
    ensures IsLeft(run[i].phased, w)
  {
    hide Pool.Run, Phased.Init, Pool.Times, Pool.Step, Phased.Step, Pool.Fits;
    var s := run[i];
    RunKeeps(run, history, n, i);
    StartKeeps(run[0], history, n);
    var pools := PoolPart(run, history, n, i);
    NotEmpty(pools);
    Pool.EnoughRoom(s.pool.n, 1, |s.pool.threads|);
    Pool.DispatchIsOver(pools, |pools| - 1);
    assert Pool.Times(s.pool.calls, w) == 1;
    var k := TimesSome(s.pool.calls, w);
    assert CallOk(s, s.pool.calls[k]);
    assert forall t | t in s.pool.threads :: !s.pool.threads[t].InKernel?;
  }

  /** When the caller of a phased dispatch is back, every phase of every index has been given to the kernel
      exactly once, and nothing else has, if and only if there was room for every chunk; and no count of
      chunks has wrapped. */
  lemma PhasedIsOver(run: seq<State>, history: seq<Pool.State>, n: int, i: nat)
    requires Run(run, history, n) && i < |run| && 0 in run[i].pool.threads && run[i].pool.threads[0] == Pool.Out
    ensures Phased.Fits(run[0].phased.plan) <==> Phased.Exact(run[i].phased.calls, run[0].phased.plan.phases, n)
    ensures Phased.CountsFit(run[0].phased.plan)
    ensures forall w | w in run[i].phased.workers :: run[i].phased.workers[w] == Phased.Left
  {
    hide Pool.Run, Pool.Step, Phased.Step, Phased.Fits, Phased.Exact, Phased.CountsFit;
    forall w | w in run[i].phased.workers ensures run[i].phased.workers[w] == Phased.Left {
      AllLeft(run, history, n, i, w);
    }
    RunKeeps(run, history, n, i);
    var states := PhasedPart(run, history, n, i);
    Phased.FinishedFits(states, n, |states| - 1, 0);
    Phased.FinishedCounts(states, n, |states| - 1, 0);
  }
}
