/** The worker pool under every dispatch: a caller (thread 0) and any number of pool threads take
    chunks off one cursor, and the caller returns when the last of them is done.  What a thread does
    under the pool's lock is one step; waits can end without a signal.  The cursor and the end of a
    chunk have 32 bits and wrap. */
module PoolDispatch {
  import opened Basics

  datatype Pc =
    | Out                          // the caller, between dispatches
    | Parked(asleep: bool)         // a pool thread, waiting for a new generation
    | Work
    | InKernel(lo: int, hi: int)
    | Finish
    | JoinWait(asleep: bool)       // the caller, waiting for the others

  /** `calls` records the kernel calls of the present dispatch, `handed` what the cursor would be if it
      never wrapped, and `misses` how often it was found past the end. */
  datatype State = State(
    threads: map<int, Pc>, seen: map<int, int>, n: int, chunk: int, gen: int, cursor: int, active: int,
    calls: seq<(int, int)>, handed: int, misses: int)

  function SeenBy(s: State, t: int): int {
    if t in s.seen then s.seen[t] else 0
  }

  function Go(s: State, t: int, pc: Pc): State {
    s.(threads := s.threads[t := pc])
  }

  function WakeAll(threads: map<int, Pc>): map<int, Pc> {
    map t | t in threads :: if threads[t].Parked? then Parked(false) else threads[t]
  }

  /** The caller and every pool thread join the dispatch of [0, n) in chunks. */
  ghost predicate DispatchJob(s: State, s2: State, n: int, chunk: int) {
    && 0 < n < TWO31 && -TWO31 <= chunk < TWO31
    && s2 == s.(n := n, chunk := if chunk <= 0 then 1 else chunk, cursor := 0, active := |s.threads|, gen := s.gen + 1,
                threads := WakeAll(s.threads)[0 := Work], calls := [], handed := 0, misses := 0)
  }

  ghost predicate Dispatch(s: State, s2: State) {
    exists n, chunk :: DispatchJob(s, s2, n, chunk)
  }

  /** A thread leaves the dispatch; the last one tells the caller. */
  function Done(s: State, t: int): State {
    var left := s.active - 1;
    var s1 := if left == 0 && 0 in s.threads && s.threads[0].JoinWait? then Go(s, 0, JoinWait(false)) else s;
    Go(s1, t, if t != 0 then Parked(false) else if left == 0 then Out else JoinWait(true)).(active := left)
  }

  ghost predicate Step(s: State, s2: State, t: int) {
    t in s.threads &&
    match s.threads[t]
    case Out => Dispatch(s, s2)
    case Parked(asleep) =>
      if asleep then s2 == Go(s, t, Parked(false))
      else if SeenBy(s, t) == s.gen then s2 == Go(s, t, Parked(true))
      else s2 == Go(s, t, Work).(seen := s.seen[t := s.gen])
    case Work =>
      var lo := s.cursor;
      var past := Int32(lo + s.chunk);
      var hi := if past > s.n then s.n else past;
      if lo >= s.n then s2 == Go(s, t, Finish).(cursor := past, handed := s.handed + s.chunk, misses := s.misses + 1)
      else s2 == Go(s, t, InKernel(lo, hi)).(cursor := past, handed := s.handed + s.chunk, calls := s.calls + [(lo, hi)])
    case InKernel(_, _) => s2 == Go(s, t, Work)
    case Finish => s2 == Done(s, t)
    case JoinWait(asleep) =>
      if asleep then s2 == Go(s, t, JoinWait(false))
      else s2 == Go(s, t, if s.active == 0 then Out else JoinWait(true))
  }

  ghost predicate Init(s: State) {
    && 0 in s.threads && s.threads[0] == Out && s.seen == map[] && s.gen == 0 && s.active == 0
    && (forall t | t in s.threads && t != 0 :: s.threads[t] == Parked(false))
  }

  // ----- the invariant ---------------------------------------------------------------------

  predicate AtWork(pc: Pc) {
    pc.Work? || pc.InKernel? || pc.Finish?
  }

  /** The thread has yet to leave the present dispatch. */
  predicate Pending(pc: Pc, seen: int, gen: int) {
    AtWork(pc) || (pc.Parked? && seen != gen)
  }

  ghost function PendingOnes(s: State): set<int> {
    set t | t in s.threads && Pending(s.threads[t], SeenBy(s, t), s.gen)
  }

  /** The thread has yet to find the cursor past the end. */
  predicate Grabbing(pc: Pc, seen: int, gen: int) {
    Pending(pc, seen, gen) && !pc.Finish?
  }

  ghost function Grabbers(s: State): set<int> {
    set t | t in s.threads && Grabbing(s.threads[t], SeenBy(s, t), s.gen)
  }

  function Times(calls: seq<(int, int)>, i: int): nat {
    if calls == [] then 0
    else
      var c := calls[|calls| - 1];
      Times(calls[..|calls| - 1], i) + if c.0 <= i < c.1 then 1 else 0
  }

  ghost predicate CallsOk(calls: seq<(int, int)>, cursor: int, n: int) {
    forall i :: Times(calls, i) == if 0 <= i < cursor && i < n then 1 else 0
  }

  ghost predicate ThreadOk(t: int, pc: Pc, seen: int, gen: int) {
    && seen <= gen
    && (t == 0 <==> pc.Out? || pc.JoinWait? || (AtWork(pc) && t == 0))
    && (t != 0 ==> pc.Parked? || AtWork(pc))
    && (AtWork(pc) && t != 0 ==> seen == gen)
  }

  /** The cursor stays within 32 bits while every thread in turn finds it past the end. */
  predicate Fits(n: int, chunk: int, threads: int)
    requires chunk > 0
  {
    Rounded(n, chunk) + (threads - 1) * chunk < TWO31
  }

  /** A call that starts below the range. */
  ghost predicate StrayCall(calls: seq<(int, int)>) {
    exists k :: 0 <= k < |calls| && calls[k].0 < 0 && calls[k].0 < calls[k].1
  }

  /** The cursor has not been read after wrapping, nor has the end of a chunk. */
  predicate Sound(handed: int, misses: int, chunk: int) {
    if misses == 0 then handed < TWO31 else handed - chunk < TWO31
  }

  /** What the cursor has handed out. */
  ghost predicate CursorOk(n: int, chunk: int, threads: int, cursor: int, handed: int, misses: int, calls: seq<(int, int)>) {
    && 0 < n < TWO31 && 0 < chunk < TWO31 && 0 <= misses <= threads && -TWO31 <= cursor < TWO31
    && if Sound(handed, misses, chunk) then
         && cursor == Int32(handed) && handed >= 0 && CallsOk(calls, handed, n)
         && if misses == 0 then handed % chunk == 0 && handed < n + chunk
            else handed == Rounded(n, chunk) + misses * chunk && handed >= n
       else
         && !Fits(n, chunk, threads)
         && (StrayCall(calls) || (misses == 0 && cursor < 0))
  }

  ghost predicate Inv(s: State) {
    && 0 in s.threads && (forall t | t in s.threads :: ThreadOk(t, s.threads[t], SeenBy(s, t), s.gen))
    && s.active == |PendingOnes(s)| && s.gen >= 0
    && (s.threads[0] == Out ==> s.active == 0)
    && (s.threads[0] == JoinWait(true) ==> s.active > 0)
    && (s.gen > 0 ==> s.misses == |s.threads| - |Grabbers(s)|)
    && (s.gen > 0 ==> CursorOk(s.n, s.chunk, |s.threads|, s.cursor, s.handed, s.misses, s.calls))
    && (forall t | t in s.threads && AtWork(s.threads[t]) :: s.gen > 0)
    && (s.threads[0].JoinWait? ==> s.gen > 0)
  }

  lemma InitInv(s: State)
    requires Init(s)
    ensures Inv(s)
  {
    assert forall t :: t !in PendingOnes(s);
    assert PendingOnes(s) == {};
  }

  lemma PendingMoves(s: State, s2: State, t: int)
    requires t in s.threads && t in s2.threads && s2.threads == s.threads[t := s2.threads[t]] && s2.gen == s.gen
    requires forall i | i != t :: SeenBy(s2, i) == SeenBy(s, i)
    ensures |PendingOnes(s2)| == |PendingOnes(s)|
      - (if Pending(s.threads[t], SeenBy(s, t), s.gen) then 1 else 0)
      + (if Pending(s2.threads[t], SeenBy(s2, t), s2.gen) then 1 else 0)
  {
    hide Pending;
    var a, b := PendingOnes(s), PendingOnes(s2);
    forall i | i != t ensures i in a <==> i in b {
      assert SeenBy(s2, i) == SeenBy(s, i);
    }
    OneApart(a, b, t);
  }

  lemma GrabbersMove(s: State, s2: State, t: int)
    requires t in s.threads && t in s2.threads && s2.threads == s.threads[t := s2.threads[t]] && s2.gen == s.gen
    requires forall i | i != t :: SeenBy(s2, i) == SeenBy(s, i)
    ensures |Grabbers(s2)| == |Grabbers(s)|
      - (if Grabbing(s.threads[t], SeenBy(s, t), s.gen) then 1 else 0)
      + (if Grabbing(s2.threads[t], SeenBy(s2, t), s2.gen) then 1 else 0)
  {
    hide Grabbing;
    var a, b := Grabbers(s), Grabbers(s2);
    forall i | i != t ensures i in a <==> i in b {
      assert SeenBy(s2, i) == SeenBy(s, i);
    }
    OneApart(a, b, t);
  }

  lemma SameSize(s: State, t: int, pc: Pc)
    requires t in s.threads
    ensures |s.threads[t := pc]| == |s.threads|
  {
    assert s.threads[t := pc].Keys == s.threads.Keys;
  }

  lemma DropOne(a: set<int>, t: int)
    ensures |a - {t}| == |a| - if t in a then 1 else 0
  {
    if t in a {
      assert a == (a - {t}) + {t};
    } else {
      assert a == a - {t};
    }
  }

  lemma OneApart(a: set<int>, b: set<int>, t: int)
    requires forall i | i != t :: i in a <==> i in b
    ensures |b| == |a| - (if t in a then 1 else 0) + (if t in b then 1 else 0)
  {
    var r, q := a - {t}, b - {t};
    forall i ensures i in r <==> i in q {
      if i != t { assert i in a <==> i in b; }
    }
    assert r == q;
    DropOne(a, t);
    DropOne(b, t);
  }

  /** A thread moves on without leaving or joining the dispatch. */
  lemma QuietKeeps(s: State, s2: State, t: int, pc: Pc)
    requires Inv(s) && t in s.threads && s2.threads == s.threads[t := pc]
    requires s2 == s.(threads := s2.threads, seen := s2.seen)
    requires forall i | i != t :: SeenBy(s2, i) == SeenBy(s, i)
    requires ThreadOk(t, pc, SeenBy(s2, t), s.gen)
    requires Pending(pc, SeenBy(s2, t), s.gen) == Pending(s.threads[t], SeenBy(s, t), s.gen)
    requires Grabbing(pc, SeenBy(s2, t), s.gen) == Grabbing(s.threads[t], SeenBy(s, t), s.gen)
    requires AtWork(pc) ==> s.gen > 0
    requires t == 0 ==> (pc == Out ==> s.active == 0) && (pc == JoinWait(true) ==> s.active > 0)
    requires t == 0 ==> (pc.Out? || pc.JoinWait? ==> s.gen > 0)
    ensures Inv(s2)
  {
    hide CursorOk, ThreadOk, Pending, PendingOnes, AtWork, Grabbing, Grabbers;
    PendingMoves(s, s2, t);
    GrabbersMove(s, s2, t);
    SameSize(s, t, pc);
    forall i | i in s2.threads ensures ThreadOk(i, s2.threads[i], SeenBy(s2, i), s2.gen) {
      assert i != t ==> ThreadOk(i, s.threads[i], SeenBy(s, i), s.gen);
    }
  }

  lemma SeenElsewhere(s: State, s2: State, t: int, v: int, i: int)
    requires s2.seen == s.seen[t := v]
    ensures SeenBy(s2, i) == if i == t then v else SeenBy(s, i)
  {
  }

  lemma TakeChunk(calls: seq<(int, int)>, cursor: int, n: int, chunk: int)
    requires CallsOk(calls, cursor, n) && chunk > 0 && 0 <= cursor < n
    ensures CallsOk(calls + [(cursor, if cursor + chunk > n then n else cursor + chunk)], cursor + chunk, n)
  {
    var c := (cursor, if cursor + chunk > n then n else cursor + chunk);
    forall i ensures Times(calls + [c], i) == if 0 <= i < cursor + chunk && i < n then 1 else 0 {
      assert (calls + [c])[..|calls|] == calls;
      assert Times(calls, i) == if 0 <= i < cursor && i < n then 1 else 0;
    }
  }

  lemma StrayMore(calls: seq<(int, int)>, c: (int, int))
    requires StrayCall(calls) || (c.0 < 0 && c.0 < c.1)
    ensures StrayCall(calls + [c])
  {
    var more := calls + [c];
    if StrayCall(calls) {
      var k :| 0 <= k < |calls| && calls[k].0 < 0 && calls[k].0 < calls[k].1;
      assert more[k] == calls[k];
    } else {
      assert more[|calls|] == c;
    }
  }

  lemma MoreMisses(n: int, chunk: int, threads: int, misses: int)
    requires chunk > 0 && misses < threads
    ensures (misses + 1) * chunk == misses * chunk + chunk
    ensures Rounded(n, chunk) + misses * chunk >= TWO31 ==> !Fits(n, chunk, threads)
  {
    hide Rounded;
    assert (threads - 1) * chunk == misses * chunk + (threads - 1 - misses) * chunk;
    assert (threads - 1 - misses) * chunk >= 0;
  }

  /** A thread finds the cursor past the end. */
  lemma MissOk(n: int, chunk: int, threads: int, cursor: int, handed: int, misses: int, calls: seq<(int, int)>)
    requires CursorOk(n, chunk, threads, cursor, handed, misses, calls) && misses < threads && cursor >= n
    ensures CursorOk(n, chunk, threads, Int32(cursor + chunk), handed + chunk, misses + 1, calls)
  {
    hide Rounded, Fits;
    MoreMisses(n, chunk, threads, misses);
    if Sound(handed, misses, chunk) {
      if misses == 0 { RoundedIs(n, chunk, handed); }
      MoreCursor(calls, handed, n, chunk);
    }
    hide CallsOk;
  }

  /** A thread gets a chunk. */
  lemma HitOk(n: int, chunk: int, threads: int, cursor: int, handed: int, misses: int, calls: seq<(int, int)>)
    requires CursorOk(n, chunk, threads, cursor, handed, misses, calls) && misses < threads && cursor < n
    ensures var past := Int32(cursor + chunk);
      CursorOk(n, chunk, threads, past, handed + chunk, misses, calls + [(cursor, if past > n then n else past)])
  {
    hide Rounded, Fits, CallsOk, StrayCall;
    var past := Int32(cursor + chunk);
    var c := (cursor, if past > n then n else past);
    MoreMisses(n, chunk, threads, misses);
    MoreMisses(n, chunk, threads, 0);
    if StrayCall(calls) || cursor < 0 { StrayMore(calls, c); }
    if Sound(handed, misses, chunk) && misses == 0 {
      RoundedIs(n, chunk, handed);
      if handed + chunk < TWO31 { TakeChunk(calls, handed, n, chunk); }
    }
  }

  lemma WorkKeeps(s: State, s2: State, t: int)
    requires Inv(s) && t in s.threads && s.threads[t].Work? && Step(s, s2, t)
    ensures Inv(s2)
  {
    hide PendingOnes, CursorOk, Grabbers;
    assert ThreadOk(t, s.threads[t], SeenBy(s, t), s.gen);
    PendingMoves(s, s2, t);
    GrabbersMove(s, s2, t);
    SameSize(s, t, s2.threads[t]);
    SomeGrabber(s, t);
    if s.cursor >= s.n {
      MissOk(s.n, s.chunk, |s.threads|, s.cursor, s.handed, s.misses, s.calls);
    } else {
      HitOk(s.n, s.chunk, |s.threads|, s.cursor, s.handed, s.misses, s.calls);
    }
  }

  lemma SomeGrabber(s: State, t: int)
    requires t in s.threads && s.threads[t].Work?
    ensures |Grabbers(s)| > 0
  {
    assert t in Grabbers(s);
  }

  lemma MoreCursor(calls: seq<(int, int)>, cursor: int, n: int, chunk: int)
    requires CallsOk(calls, cursor, n) && chunk > 0
    ensures cursor >= n ==> CallsOk(calls, cursor + chunk, n)
  {
  }

  lemma ParkedKeeps(s: State, s2: State, t: int)
    requires Inv(s) && t in s.threads && s.threads[t].Parked? && Step(s, s2, t)
    ensures Inv(s2)
  {
    hide PendingOnes, CursorOk, Grabbers;
    assert ThreadOk(t, s.threads[t], SeenBy(s, t), s.gen);
    if s.threads[t].asleep {
      QuietKeeps(s, s2, t, Parked(false));
    } else if SeenBy(s, t) == s.gen {
      QuietKeeps(s, s2, t, Parked(true));
    } else {
      forall i ensures SeenBy(s2, i) == if i == t then s.gen else SeenBy(s, i) { SeenElsewhere(s, s2, t, s.gen, i); }
      SomeGen(s, t);
      QuietKeeps(s, s2, t, Work);
    }
  }

  /** A thread that has not seen the present generation means there is one. */
  lemma SomeGen(s: State, t: int)
    requires Inv(s) && t in s.threads && SeenBy(s, t) != s.gen && s.threads[t].Parked?
    ensures s.gen > 0
  {
    hide CursorOk;
    assert t in PendingOnes(s);
  }

  /** Thread `t` leaves the dispatch. */
  lemma LeaveKeeps(s: State, s2: State, t: int, pc: Pc)
    requires Inv(s) && t in s.threads && s.threads[t].Finish? && s2 == Go(s, t, pc).(active := s.active - 1)
    requires t != 0 ==> pc == Parked(false)
    requires t == 0 ==> pc == if s.active == 1 then Out else JoinWait(true)
    requires s.active == 1 && t != 0 ==> s.threads[0] != JoinWait(true)
    ensures Inv(s2)
  {
    hide CursorOk, PendingOnes, Grabbers;
    assert ThreadOk(t, s.threads[t], SeenBy(s, t), s.gen);
    PendingMoves(s, s2, t);
    GrabbersMove(s, s2, t);
    SameSize(s, t, pc);
    forall i | i in s2.threads ensures ThreadOk(i, s2.threads[i], SeenBy(s2, i), s2.gen) {
      assert ThreadOk(i, s.threads[i], SeenBy(s, i), s.gen);
    }
  }

  lemma FinishKeeps(s: State, s2: State, t: int)
    requires Inv(s) && t in s.threads && s.threads[t].Finish? && s2 == Done(s, t)
    ensures Inv(s2)
  {
    hide CursorOk, PendingOnes, Grabbers;
    var left := s.active - 1;
    if left == 0 && s.threads[0].JoinWait? {
      var s1 := Go(s, 0, JoinWait(false));
      QuietKeeps(s, s1, 0, JoinWait(false));
      LeaveKeeps(s1, s2, t, Parked(false));
    } else {
      LeaveKeeps(s, s2, t, if t != 0 then Parked(false) else if left == 0 then Out else JoinWait(true));
    }
  }

  /** With nobody left in the last dispatch, all pool threads have seen its generation. */
  lemma DispatchKeeps(s: State, s2: State, n: int, chunk: int)
    requires Inv(s) && s.threads[0] == Out && DispatchJob(s, s2, n, chunk)
    ensures Inv(s2)
  {
    hide CursorOk;
    assert s2.threads.Keys == s.threads.Keys;
    forall t | t in s.threads ensures t in PendingOnes(s2) && t in Grabbers(s2) && (t != 0 ==> s.threads[t].Parked?) {
      assert ThreadOk(t, s.threads[t], SeenBy(s, t), s.gen);
      assert t != 0 ==> t !in PendingOnes(s);
    }
    forall t ensures (t in PendingOnes(s2) <==> t in s.threads) && (t in Grabbers(s2) <==> t in s.threads) {}
    assert PendingOnes(s2) == s.threads.Keys && Grabbers(s2) == s.threads.Keys;
    FreshCursor(n, s2.chunk, |s2.threads|);
    hide PendingOnes, Grabbers;
    forall t | t in s2.threads ensures ThreadOk(t, s2.threads[t], SeenBy(s2, t), s2.gen) {
      assert ThreadOk(t, s.threads[t], SeenBy(s, t), s.gen);
    }
  }

  lemma FreshCursor(n: int, chunk: int, threads: int)
    requires 0 < n < TWO31 && 0 < chunk < TWO31 && threads >= 0
    ensures CursorOk(n, chunk, threads, 0, 0, 0, [])
  {
    CallsNone(n);
    RemainderIs(0, chunk, 0, 0);
  }

  lemma CallsNone(n: int)
    ensures CallsOk([], 0, n)
  {
  }

  lemma StepKeepsInv(s: State, s2: State, t: int)
    requires Inv(s) && Step(s, s2, t)
    ensures Inv(s2)
  {
    hide CursorOk, PendingOnes, Grabbers, Done, DispatchJob, Pending;
    assert ThreadOk(t, s.threads[t], SeenBy(s, t), s.gen);
    match s.threads[t]
    case Out =>
      var n, chunk :| DispatchJob(s, s2, n, chunk);
      DispatchKeeps(s, s2, n, chunk);
    case Parked(_) => ParkedKeeps(s, s2, t);
    case Work => WorkKeeps(s, s2, t);
    case InKernel(_, _) => KernelKeeps(s, s2, t);
    case Finish => FinishKeeps(s, s2, t);
    case JoinWait(_) => JoinKeeps(s, s2, t);
  }

  lemma KernelKeeps(s: State, s2: State, t: int)
    requires Inv(s) && t in s.threads && s.threads[t].InKernel? && s2 == Go(s, t, Work)
    ensures Inv(s2)
  {
    hide CursorOk, PendingOnes, Grabbers;
    assert ThreadOk(t, s.threads[t], SeenBy(s, t), s.gen);
    QuietKeeps(s, s2, t, Work);
  }

  lemma JoinKeeps(s: State, s2: State, t: int)
    requires Inv(s) && t in s.threads && s.threads[t].JoinWait? && Step(s, s2, t)
    ensures Inv(s2)
  {
    hide CursorOk, PendingOnes, Grabbers;
    assert ThreadOk(t, s.threads[t], SeenBy(s, t), s.gen);
    QuietKeeps(s, s2, t, s2.threads[t]);
  }

  // ----- what every run keeps --------------------------------------------------------------

  ghost predicate Next(s: State, s2: State) {
    exists t :: Step(s, s2, t)
  }

  ghost predicate Run(run: seq<State>) {
    && |run| > 0 && Init(run[0])
    && forall i | 0 <= i < |run| - 1 :: Next(run[i], run[i + 1])
  }

  lemma {:induction false} RunKeepsInv(run: seq<State>, i: nat)
    requires Run(run) && i < |run|
    ensures Inv(run[i])
  {
    hide Inv, Init, Step;
    if i == 0 {
      InitInv(run[0]);
    } else {
      RunKeepsInv(run, i - 1);
      var t :| Step(run[i - 1], run[i], t);
      StepKeepsInv(run[i - 1], run[i], t);
    }
  }

  /** When the caller is back from a dispatch, every call has returned and every pool thread is parked
      and will not join this generation again.  Every index was in exactly one call, and nothing else
      in any, if and only if the range in whole chunks and one chunk more for every thread but one
      stay within 32 bits; if not, the kernel has been called below the range. */
  lemma DispatchIsOver(run: seq<State>, i: nat)
    requires Run(run) && i < |run| && 0 in run[i].threads && run[i].threads[0] == Out && run[i].gen > 0
    ensures run[i].chunk > 0
    ensures (forall x :: Times(run[i].calls, x) == if 0 <= x < run[i].n then 1 else 0)
      <==> Fits(run[i].n, run[i].chunk, |run[i].threads|)
    ensures !Fits(run[i].n, run[i].chunk, |run[i].threads|) ==> StrayCall(run[i].calls)
    ensures forall t | t in run[i].threads && t != 0 :: run[i].threads[t].Parked? && SeenBy(run[i], t) == run[i].gen
  {
    var s := run[i];
    RunKeepsInv(run, i);
    hide Times, CursorOk;
    forall t | t in s.threads && t != 0 ensures s.threads[t].Parked? && SeenBy(s, t) == s.gen {
      assert ThreadOk(t, s.threads[t], SeenBy(s, t), s.gen);
      assert t !in PendingOnes(s);
    }
    assert forall t :: t in Grabbers(s) ==> t in PendingOnes(s);
    assert Grabbers(s) == {};
    assert |s.threads| > 0;
    CursorDone(s.n, s.chunk, |s.threads|, s.cursor, s.handed, s.calls);
  }

  /** A range and one chunk for every thread that together make at most 2 to the 31 are enough. */
  lemma EnoughRoom(n: int, chunk: int, threads: int)
    requires chunk > 0 && n + threads * chunk <= TWO31
    ensures Fits(n, chunk, threads)
  {
    RoundedBelow(n, chunk);
    assert (threads - 1) * chunk == threads * chunk - chunk;
    hide Rounded;
  }

  lemma CursorDone(n: int, chunk: int, threads: int, cursor: int, handed: int, calls: seq<(int, int)>)
    requires threads > 0 && CursorOk(n, chunk, threads, cursor, handed, threads, calls)
    ensures (forall x :: Times(calls, x) == if 0 <= x < n then 1 else 0) <==> Fits(n, chunk, threads)
    ensures !Fits(n, chunk, threads) ==> StrayCall(calls)
  {
    hide Times, Rounded;
    if Sound(handed, threads, chunk) {
      MoreMisses(n, chunk, threads, threads - 1);
    } else {
      var k :| 0 <= k < |calls| && calls[k].0 < 0 && calls[k].0 < calls[k].1;
      InSome(calls, k);
    }
  }

  lemma {:induction false} InSome(calls: seq<(int, int)>, k: nat)
    requires k < |calls| && calls[k].0 < calls[k].1
    ensures Times(calls, calls[k].0) > 0
  {
    if k < |calls| - 1 { InSome(calls[..|calls| - 1], k); }
  }

  lemma RunMore(run: seq<State>, s: State, t: int)
    requires Run(run) && Step(run[|run| - 1], s, t)
    ensures Run(run + [s])
  {
    hide Init, Step;
    assert Next(run[|run| - 1], s);
  }

  function Three(a: Pc, b: Pc, c: Pc): map<int, Pc> {
    map[0 := a, 1 := b, 2 := c]
  }

  lemma ThreeThreads(a: Pc, b: Pc, c: Pc)
    ensures |Three(a, b, c)| == 3
  {
    assert Three(a, b, c).Keys == {0, 1, 2};
  }

  lemma ThreeWoken()
    ensures WakeAll(Three(Out, Parked(false), Parked(false))) == Three(Out, Parked(false), Parked(false))
  {
  }

  lemma OneOfThree(a: Pc, b: Pc, c: Pc, t: int, pc: Pc)
    requires 0 <= t < 3
    ensures Three(a, b, c)[t := pc] == Three(if t == 0 then pc else a, if t == 1 then pc else b, if t == 2 then pc else c)
  {
  }

  /** A dispatch of one index in chunks of the largest size, with all three threads at work. */
  function HugeChunk(): State {
    State(Three(Work, Work, Work), map[1 := 1, 2 := 1], 1, TWO31 - 1, 1, 0, 3, [], 0, 0)
  }

  lemma HugeChunkStarts() returns (run: seq<State>)
    ensures Run(run) && |run| == 4 && run[3] == HugeChunk()
  {
    var s0 := State(Three(Out, Parked(false), Parked(false)), map[], 0, 0, 0, 0, 0, [], 0, 0);
    var s1 := State(Three(Work, Parked(false), Parked(false)), map[], 1, TWO31 - 1, 1, 0, 3, [], 0, 0);
    var s2 := s1.(threads := Three(Work, Work, Parked(false)), seen := map[1 := 1]);
    var s3 := HugeChunk();
    ThreeThreads(Out, Parked(false), Parked(false));
    ThreeWoken();
    OneOfThree(Out, Parked(false), Parked(false), 0, Work);
    OneOfThree(Work, Parked(false), Parked(false), 1, Work);
    OneOfThree(Work, Work, Parked(false), 2, Work);
    run := [s0];
    assert Init(s0);
    assert DispatchJob(s0, s1, 1, TWO31 - 1);
    assert s2.seen == s1.seen[1 := 1] && s3.seen == s2.seen[2 := 1];
    assert Run(run);
    hide WakeAll, Int32, Init, Run;
    assert Dispatch(s0, s1);
    hide DispatchJob;
    assert Step(s0, s1, 0) && Step(s1, s2, 1) && Step(s2, s3, 2);
    RunMore(run, s1, 0);
    RunMore(run + [s1], s2, 1);
    RunMore(run + [s1] + [s2], s3, 2);
    run := run + [s1] + [s2] + [s3];
  }

  /** One index, the largest chunk and three threads: the second finds the cursor past the end and
      wraps it, and the third runs index 0 again. */
  lemma HugeChunkRunsTwice() returns (run: seq<State>)
    ensures Run(run) && |run| == 7 && run[6].n == 1 && run[6].chunk == TWO31 - 1 && |run[6].threads| == 3
    ensures run[6].calls == [(0, 1), (-2, 1)] && Times(run[6].calls, 0) == 2
  {
    run := HugeChunkStarts();
    var s3 := HugeChunk();
    var s4 := s3.(threads := Three(InKernel(0, 1), Work, Work), cursor := TWO31 - 1, handed := TWO31 - 1, calls := [(0, 1)]);
    var s5 := s4.(threads := Three(InKernel(0, 1), Finish, Work), cursor := -2, handed := 2 * TWO31 - 2, misses := 1);
    var s6 := s5.(threads := Three(InKernel(0, 1), Finish, InKernel(-2, 1)), cursor := TWO31 - 3, handed := 3 * TWO31 - 3,
      calls := [(0, 1), (-2, 1)]);
    OneOfThree(Work, Work, Work, 0, InKernel(0, 1));
    OneOfThree(InKernel(0, 1), Work, Work, 1, Finish);
    OneOfThree(InKernel(0, 1), Finish, Work, 2, InKernel(-2, 1));
    ThreeThreads(InKernel(0, 1), Finish, InKernel(-2, 1));
    assert s6.calls == s5.calls + [(-2, 1)] && s4.calls == s3.calls + [(0, 1)];
    TwiceOver();
    hide WakeAll, Run, Times;
    assert Step(s3, s4, 0) && Step(s4, s5, 1) && Step(s5, s6, 2);
    RunMore(run, s4, 0);
    RunMore(run + [s4], s5, 1);
    RunMore(run + [s4] + [s5], s6, 2);
    run := run + [s4] + [s5] + [s6];
  }

  lemma TwiceOver()
    ensures Times([(0, 1), (-2, 1)], 0) == 2
  {
    assert [(0, 1), (-2, 1)][..1] == [(0, 1)];
    assert Times([(0, 1)], 0) == 1;
  }

  /** A caller asleep in the join waits for a thread that has yet to leave the dispatch. */
  lemma JoinHasCause(run: seq<State>, i: nat)
    requires Run(run) && i < |run| && 0 in run[i].threads && run[i].threads[0] == JoinWait(true)
    ensures exists t :: t in run[i].threads && t != 0 && Pending(run[i].threads[t], SeenBy(run[i], t), run[i].gen)
  {
    var s := run[i];
    RunKeepsInv(run, i);
    hide CursorOk;
    assert ThreadOk(0, s.threads[0], SeenBy(s, 0), s.gen);
    if forall t | t in s.threads :: !Pending(s.threads[t], SeenBy(s, t), s.gen) { NonePending(s); }
  }

  lemma NonePending(s: State)
    requires forall t | t in s.threads :: !Pending(s.threads[t], SeenBy(s, t), s.gen)
    ensures |PendingOnes(s)| == 0
  {
    hide Pending;
    assert forall t :: t !in PendingOnes(s);
  }
}
