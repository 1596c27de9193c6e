/** Any number of workers grab chunks of a phased dispatch, run them and retire them; the pool's lock
    makes each grab and each retirement one step. */
module PhasedRun {
  import opened Basics
  import opened PhasedDispatch

  datatype Pc =
    | Idle
    | Grabbing(home: nat)
    | Running(home: nat, c: Grabbed)
    | Returned(home: nat, c: Grabbed)
    | Left

  /** `calls` records every chunk handed to the kernel, in order. */
  datatype State = State(workers: map<int, Pc>, plan: Plan, calls: seq<Grabbed>)

  ghost predicate Init(s: State, n: int) {
    && Fresh(s.plan, n) && s.calls == []
    && (forall w | w in s.workers :: s.workers[w] == Idle)
  }

  function Go(s: State, w: int, pc: Pc): State {
    s.(workers := s.workers[w := pc])
  }

  ghost predicate Step(s: State, s2: State, w: int) {
    w in s.workers && s.plan.chunk > 0 &&
    match s.workers[w]
    case Idle => exists home :: s2 == Go(s, w, Grabbing(home))
    case Grabbing(home) =>
      var r := Grab(s.plan, home);
      match r {
        case Finished => s2 == Go(s, w, Left)
        case Nothing => s2 == s
        case Chunk(_, _, _, _) =>
          s2 == Go(s, w, Running(home, r)).(plan := AfterGrab(s.plan, r), calls := s.calls + [r])
      }
    case Running(home, c) => s2 == Go(s, w, Returned(home, c))   // the kernel call comes back
    case Returned(home, c) =>
      c.Chunk? &&
      var gi := GroupOf(s.plan.groups, c.lo, 0);
      s2 == Go(s, w, Grabbing(home)).(plan := if gi == |s.plan.groups| then s.plan else Retire(s.plan, gi))
    case Left => s2 == s
  }

  // ----- the invariant ---------------------------------------------------------------------

  predicate InFlight(pc: Pc, gi: int) {
    (pc.Running? || pc.Returned?) && pc.c.Chunk? && pc.c.g == gi
  }

  ghost function Flight(workers: map<int, Pc>, gi: int): set<int> {
    set w | w in workers && InFlight(workers[w], gi)
  }

  /** Chunks of the group's present phase that nobody has grabbed yet. */
  function Waiting(g: Group, phases: int, chunk: int): int
    requires chunk > 0
  {
    if g.phase < phases then ChunksIn(g.hi - g.cursor, chunk) else 0
  }

  ghost predicate GroupOk(g: Group, phases: int) {
    && g.lo < g.hi && 0 <= g.phase <= phases && g.lo <= g.cursor <= g.hi
    && (g.phase == phases ==> g.cursor == g.hi && g.live == 0)
    && (g.phase < phases ==> g.live >= 1)
  }

  /** The cursor stands at the start of a chunk or at the end; a group that has come to its end once
      has done so without wrapping. */
  ghost predicate CursorOk(g: Group, chunk: int)
    requires chunk > 0
  {
    && 0 <= g.lo && g.hi < TWO31
    && (g.cursor == g.hi || (g.cursor - g.lo) % chunk == 0)
    && (g.phase > 0 || g.cursor == g.hi ==> g.lo + Rounded(g.hi - g.lo, chunk) < TWO31)
  }

  ghost predicate CursorsOk(groups: seq<Group>, chunk: int)
    requires chunk > 0
  {
    forall gi | 0 <= gi < |groups| :: CursorOk(groups[gi], chunk)
  }

  /** No group's count of chunks wraps. */
  ghost predicate CountsFit(p: Plan) {
    forall gi | 0 <= gi < |p.groups| :: p.groups[gi].hi - p.groups[gi].lo + p.chunk - 1 < TWO31
  }

  /** Nor does the end of any chunk. */
  ghost predicate Fits(p: Plan)
    requires p.chunk > 0
  {
    CountsFit(p) && forall gi | 0 <= gi < |p.groups| :: p.groups[gi].lo + Rounded(p.groups[gi].hi - p.groups[gi].lo, p.chunk) < TWO31
  }

  /** The kernel has been called with a range that ends below its start. */
  ghost predicate BackwardCall(calls: seq<Grabbed>) {
    exists k :: 0 <= k < |calls| && calls[k].Chunk? && calls[k].hi < calls[k].lo
  }

  ghost predicate GroupsOk(groups: seq<Group>, phases: int) {
    forall gi | 0 <= gi < |groups| :: GroupOk(groups[gi], phases)
  }

  /** `live` is exact: chunks in flight plus chunks not yet grabbed. */
  ghost predicate LiveOk(workers: map<int, Pc>, p: Plan)
    requires p.chunk > 0
  {
    forall gi | 0 <= gi < |p.groups| ::
      p.groups[gi].live == |Flight(workers, gi)| + Waiting(p.groups[gi], p.phases, p.chunk)
  }

  /** A chunk in flight belongs to its group's present phase, and was handed out. */
  ghost predicate FlightOk(pc: Pc, groups: seq<Group>, phases: int) {
    pc.Running? || pc.Returned? ==>
      && pc.c.Chunk? && 0 <= pc.c.g < |groups|
      && pc.c.phase == groups[pc.c.g].phase < phases
      && groups[pc.c.g].lo <= pc.c.lo < pc.c.hi <= groups[pc.c.g].cursor
  }

  ghost predicate FlightsOk(workers: map<int, Pc>, p: Plan) {
    forall w | w in workers :: FlightOk(workers[w], p.groups, p.phases)
  }

  function CountDone(groups: seq<Group>, phases: int): nat {
    if groups == [] then 0
    else CountDone(groups[..|groups| - 1], phases) + if groups[|groups| - 1].phase >= phases then 1 else 0
  }

  /** Phase `q` of index `i` has been handed to some worker. */
  predicate Handed(p: Plan, q: int, i: int) {
    var gi := GroupOf(p.groups, i, 0);
    gi < |p.groups| && 0 <= q < p.phases && (q < p.groups[gi].phase || (q == p.groups[gi].phase && i < p.groups[gi].cursor))
  }

  /** How many of the calls cover phase `q` of index `i`. */
  function Times(calls: seq<Grabbed>, q: int, i: int): nat {
    if calls == [] then 0
    else
      var c := calls[|calls| - 1];
      Times(calls[..|calls| - 1], q, i) + if c.Chunk? && c.phase == q && c.lo <= i < c.hi then 1 else 0
  }

  ghost predicate CallsOk(p: Plan, calls: seq<Grabbed>) {
    forall q, i :: Times(calls, q, i) == if Handed(p, q, i) then 1 else 0
  }

  ghost predicate Inv(s: State, n: int) {
    && 0 < n < TWO31 && 0 < s.plan.chunk < TWO31 && s.plan.phases > 0 && Tiles(s.plan.groups, n)
    && CountsFit(s.plan) && CursorsOk(s.plan.groups, s.plan.chunk)
    && GroupsOk(s.plan.groups, s.plan.phases)
    && LiveOk(s.workers, s.plan) && FlightsOk(s.workers, s.plan)
    && s.plan.done == CountDone(s.plan.groups, s.plan.phases)
    && CallsOk(s.plan, s.calls)
    && (forall w | w in s.workers && s.workers[w] == Left :: s.plan.done == |s.plan.groups|)
  }

  // ----- arithmetic of chunks --------------------------------------------------------------

  lemma ChunksOfNone(c: int)
    requires c > 0
    ensures ChunksIn(0, c) == 0
  {
    QuotientIs(c - 1, c, 0);
  }

  lemma ChunksPositive(len: int, c: int)
    requires c > 0 && len > 0
    ensures ChunksIn(len, c) >= 1
  {
    var x := len + c - 1;
    assert x == c * (x / c) + x % c;
    MulBounds(c, x / c);
  }

  lemma ChunksOfIs(len: int, c: int)
    requires c > 0 && len >= 0 && len + c - 1 < TWO31
    ensures ChunksOf(len, c) == ChunksIn(len, c)
  {
  }

  lemma ChunksNext(len: int, c: int)
    requires c > 0 && len > 0
    ensures ChunksIn(len, c) == 1 + ChunksIn(len - Min(c, len), c)
  {
    if len <= c {
      ChunksOfNone(c);
      QuotientIs(len + c - 1, c, 1);
    } else {
      var x := len - 1;
      assert x == c * (x / c) + x % c;
      assert c * (x / c + 1) == c * (x / c) + c;
      QuotientIs(x + c, c, x / c + 1);
    }
  }

  // ----- the ring ---------------------------------------------------------------------------

  lemma RingReaches(home: nat, n: nat, i: nat) returns (k: nat)
    requires i < n
    ensures k < n && Ring(home, n, k) == i
  {
    var d := i - home;
    k := d % n;
    assert d == n * (d / n) + k;
    assert n * -(d / n) == -(n * (d / n));
    RemainderIs(home + k, n, -(d / n), i);
  }

  lemma {:induction false} NoneRunnable(groups: seq<Group>, phases: int, home: nat, k: nat, j: nat)
    requires k <= j < |groups| && FirstRunnable(groups, phases, home, k) == -1
    ensures !Runnable(groups[Ring(home, |groups|, j)], phases)
    decreases |groups| - k
  {
    hide Ring, Runnable;
    if k < j { NoneRunnable(groups, phases, home, k + 1, j); }
  }

  /** A worker finds nothing only if no group anywhere has a chunk to give. */
  lemma NothingIsNone(groups: seq<Group>, phases: int, home: nat, gi: nat)
    requires gi < |groups| && FirstRunnable(groups, phases, home, 0) == -1
    ensures !Runnable(groups[gi], phases)
  {
    hide Ring, Runnable;
    var j := RingReaches(home, |groups|, gi);
    NoneRunnable(groups, phases, home, 0, j);
  }

  /** From the home group on, one place further each time, and round at the end. */
  lemma RingGoesRound(home: nat, n: nat, k: nat)
    requires n > 0
    ensures home < n ==> Ring(home, n, 0) == home
    ensures Ring(home, n, k + 1) == if Ring(home, n, k) + 1 == n then 0 else Ring(home, n, k) + 1
  {
    var x, q := home + k, (home + k) / n;
    assert x == n * q + x % n;
    assert n * (q + 1) == n * q + n;
    if x % n + 1 == n { RemainderIs(x + 1, n, q + 1, 0); } else { RemainderIs(x + 1, n, q, x % n + 1); }
    if home < n { RemainderIs(home, n, 0, home); }
  }

  predicate HasChunk(g: Group, phases: int) {
    g.phase < phases && g.cursor < g.hi
  }

  lemma {:induction false} FirstIs(groups: seq<Group>, phases: int, home: nat, k: nat) returns (d: nat)
    requires k <= |groups| && FirstRunnable(groups, phases, home, k) >= 0
    ensures k <= d < |groups| && FirstRunnable(groups, phases, home, k) == Ring(home, |groups|, d)
    ensures HasChunk(groups[Ring(home, |groups|, d)], phases)
    ensures forall j | k <= j < d :: !HasChunk(groups[Ring(home, |groups|, j)], phases)
    decreases |groups| - k
  {
    hide Ring;
    if Runnable(groups[Ring(home, |groups|, k)], phases) {
      d := k;
    } else {
      d := FirstIs(groups, phases, home, k + 1);
    }
  }

  /** What a worker grabs is the next chunk of the first group round the ring from its home that has
      phases left and a chunk to give. */
  lemma GrabsNearest(p: Plan, home: nat) returns (d: nat)
    requires Grab(p, home).Chunk?
    ensures d < |p.groups| && Grab(p, home).g == Ring(home, |p.groups|, d)
    ensures var g := p.groups[Ring(home, |p.groups|, d)];
      HasChunk(g, p.phases) && Grab(p, home).phase == g.phase && Grab(p, home).lo == g.cursor
    ensures forall j | 0 <= j < d :: !HasChunk(p.groups[Ring(home, |p.groups|, j)], p.phases)
  {
    hide Ring, Runnable, HasChunk;
    d := FirstIs(p.groups, p.phases, home, 0);
  }

  // ----- slices ----------------------------------------------------------------------------

  lemma {:induction false} SlicesInOrder(groups: seq<Group>, n: int, i: nat, j: nat)
    requires Tiles(groups, n) && i < j < |groups|
    ensures groups[i].hi <= groups[j].lo
  {
    if i + 1 < j { SlicesInOrder(groups, n, i, j - 1); }
  }

  /** The search from `lo` finds the one slice that holds it. */
  lemma GroupOfIs(groups: seq<Group>, n: int, gi: nat, lo: int)
    requires Tiles(groups, n) && gi < |groups| && groups[gi].lo <= lo < groups[gi].hi
    ensures GroupOf(groups, lo, 0) == gi
  {
    var i := GroupOf(groups, lo, 0);
    if i < gi { SlicesInOrder(groups, n, i, gi); }
  }

  lemma {:induction false} SomeGroup(groups: seq<Group>, n: int, i: int, k: nat)
    requires Tiles(groups, n) && k < |groups| && groups[k].lo <= i < n
    ensures GroupOf(groups, i, k) < |groups|
    decreases |groups| - k
  {
    if groups[k].hi <= i {
      SomeGroup(groups, n, i, k + 1);
    }
  }

  lemma OutsideSlices(groups: seq<Group>, n: int, i: int)
    requires Tiles(groups, n) && GroupOf(groups, i, 0) < |groups|
    ensures 0 <= i < n
  {
    var gi := GroupOf(groups, i, 0);
    if gi > 0 { SlicesInOrder(groups, n, 0, gi); }
    if gi < |groups| - 1 { SlicesInOrder(groups, n, gi, |groups| - 1); }
  }

  /** A change of cursor, phase or live count moves no slice. */
  lemma {:induction false} GroupOfSame(groups: seq<Group>, gi: nat, g: Group, i: int, k: nat)
    requires gi < |groups| && k <= |groups| && g.lo == groups[gi].lo && g.hi == groups[gi].hi
    ensures GroupOf(groups[gi := g], i, k) == GroupOf(groups, i, k)
    decreases |groups| - k
  {
    if k < |groups| { GroupOfSame(groups, gi, g, i, k + 1); }
  }

  lemma {:induction false} CountSet(groups: seq<Group>, phases: int, gi: nat, g: Group)
    requires gi < |groups|
    ensures CountDone(groups[gi := g], phases) == CountDone(groups, phases)
      - (if groups[gi].phase >= phases then 1 else 0) + (if g.phase >= phases then 1 else 0)
  {
    var last := |groups| - 1;
    if gi == last {
      assert groups[gi := g][..last] == groups[..last];
    } else {
      CountSet(groups[..last], phases, gi, g);
      assert groups[gi := g][..last] == groups[..last][gi := g];
    }
  }

  lemma {:induction false} CountAll(groups: seq<Group>, phases: int)
    ensures CountDone(groups, phases) <= |groups|
    ensures CountDone(groups, phases) == |groups| <==> forall gi | 0 <= gi < |groups| :: groups[gi].phase >= phases
  {
    if groups != [] {
      var last := |groups| - 1;
      CountAll(groups[..last], phases);
      assert forall gi | 0 <= gi < last :: groups[..last][gi] == groups[gi];
    }
  }

  lemma {:induction false} CountNone(groups: seq<Group>, phases: int)
    requires forall gi | 0 <= gi < |groups| :: groups[gi].phase < phases
    ensures CountDone(groups, phases) == 0
  {
    if groups != [] { CountNone(groups[..|groups| - 1], phases); }
  }

  // ----- counting what is in flight --------------------------------------------------------

  lemma FlightMoves(workers: map<int, Pc>, w: int, pc: Pc, gi: int)
    requires w in workers
    ensures |Flight(workers[w := pc], gi)| ==
      |Flight(workers, gi)| - (if InFlight(workers[w], gi) then 1 else 0) + (if InFlight(pc, gi) then 1 else 0)
  {
    if InFlight(pc, gi) {
      assert Flight(workers[w := pc], gi) == Flight(workers, gi) + {w};
    } else {
      assert Flight(workers[w := pc], gi) == Flight(workers, gi) - {w};
    }
  }

  lemma EmptyFlight(workers: map<int, Pc>, gi: int)
    requires forall w | w in workers :: !InFlight(workers[w], gi)
    ensures |Flight(workers, gi)| == 0
  {
    assert forall w :: w !in Flight(workers, gi);
  }

  lemma SomeFlight(workers: map<int, Pc>, gi: int)
    requires |Flight(workers, gi)| > 0
    ensures exists w :: w in workers && InFlight(workers[w], gi)
  {
    if forall w | w in workers :: !InFlight(workers[w], gi) { EmptyFlight(workers, gi); }
  }

  lemma OnlyFlight(workers: map<int, Pc>, gi: int, w: int)
    requires |Flight(workers, gi)| == 1 && w in workers && InFlight(workers[w], gi)
    ensures forall v | v in workers && v != w :: !InFlight(workers[v], gi)
  {
    forall v | v in workers && v != w ensures !InFlight(workers[v], gi) {
      if InFlight(workers[v], gi) {
        assert {v, w} <= Flight(workers, gi);
        SubsetSize({v, w}, Flight(workers, gi));
      }
    }
  }

  // ----- every step keeps the invariant ----------------------------------------------------

  lemma InitInv(s: State, n: int)
    requires Init(s, n) && CountsFit(s.plan)
    ensures Inv(s, n)
  {
    hide Waiting, GroupOk, CursorOk, Tiles, Flight, FreshGroup, CountsFit;
    var p := s.plan;
    forall gi | 0 <= gi < |p.groups|
      ensures GroupOk(p.groups[gi], p.phases) && CursorOk(p.groups[gi], p.chunk)
      ensures p.groups[gi].live == |Flight(s.workers, gi)| + Waiting(p.groups[gi], p.phases, p.chunk)
      ensures p.groups[gi].phase == 0 && p.groups[gi].cursor == p.groups[gi].lo
    {
      InitGroup(p, n, gi);
      EmptyFlight(s.workers, gi);
    }
    CountNone(p.groups, p.phases);
    forall q, i ensures Times(s.calls, q, i) == if Handed(p, q, i) then 1 else 0 {
      var gi := GroupOf(p.groups, i, 0);
    }
  }

  /** A group as it is set up: at the start of its first phase, with every chunk waiting. */
  lemma InitGroup(p: Plan, n: int, gi: nat)
    requires Fresh(p, n) && CountsFit(p) && gi < |p.groups|
    ensures var g := p.groups[gi]; GroupOk(g, p.phases) && CursorOk(g, p.chunk)
    ensures var g := p.groups[gi]; g.phase == 0 && g.cursor == g.lo && g.live == Waiting(g, p.phases, p.chunk)
  {
    var g := p.groups[gi];
    assert g == FreshGroup(g.lo, g.hi, p.chunk);
    ChunksOfIs(g.hi - g.lo, p.chunk);
    ChunksPositive(g.hi - g.lo, p.chunk);
    SliceInside(p.groups, n, gi);
    RemainderIs(0, p.chunk, 0, 0);
    hide ChunksOf, ChunksIn, Rounded, Tiles;
  }

  lemma SliceInside(groups: seq<Group>, n: int, gi: nat)
    requires Tiles(groups, n) && gi < |groups|
    ensures 0 <= groups[gi].lo && groups[gi].hi <= n
  {
    if gi > 0 { SlicesInOrder(groups, n, 0, gi); }
    if gi < |groups| - 1 { SlicesInOrder(groups, n, gi, |groups| - 1); }
  }

  /** A worker moves between places with no chunk in hand, or keeps the one it has. */
  lemma QuietKeeps(s: State, s2: State, n: int, w: int, pc: Pc)
    requires Inv(s, n) && w in s.workers && s2 == Go(s, w, pc)
    requires forall gi :: InFlight(pc, gi) == InFlight(s.workers[w], gi)
    requires FlightOk(pc, s.plan.groups, s.plan.phases)
    requires pc == Left ==> s.plan.done == |s.plan.groups|
    ensures Inv(s2, n)
  {
    hide FlightOk, CallsOk, GroupsOk, CursorsOk, CountsFit, Tiles, Waiting, InFlight;
    forall gi | 0 <= gi < |s.plan.groups|
      ensures s.plan.groups[gi].live == |Flight(s2.workers, gi)| + Waiting(s.plan.groups[gi], s.plan.phases, s.plan.chunk)
    {
      FlightMoves(s.workers, w, pc, gi);
    }
  }

  /** The chunk a worker grabs is the one part of its group's present phase that is handed out now. */
  lemma GrabHands(p: Plan, n: int, r: Grabbed, calls: seq<Grabbed>)
    requires p.chunk > 0 && Tiles(p.groups, n) && GroupsOk(p.groups, p.phases) && CallsOk(p, calls)
    requires r.Chunk? && 0 <= r.g < |p.groups| && Runnable(p.groups[r.g], p.phases) && r == ChunkAt(p.groups[r.g], r.g, p.chunk)
    requires 0 <= p.groups[r.g].cursor + p.chunk < TWO31
    ensures CallsOk(AfterGrab(p, r), calls + [r])
  {
    hide GroupsOk;
    var p2 := AfterGrab(p, r);
    var g := p.groups[r.g];
    assert GroupOk(g, p.phases) by { GroupsAt(p.groups, p.phases, r.g); }
    forall q, i ensures Times(calls + [r], q, i) == if Handed(p2, q, i) then 1 else 0 {
      assert (calls + [r])[..|calls|] == calls;
      GroupOfSame(p.groups, r.g, p2.groups[r.g], i, 0);
      if g.lo <= i < g.hi { GroupOfIs(p.groups, n, r.g, i); }
      assert Times(calls, q, i) == if Handed(p, q, i) then 1 else 0;
    }
  }

  lemma GroupsAt(groups: seq<Group>, phases: int, gi: nat)
    requires GroupsOk(groups, phases) && gi < |groups|
    ensures GroupOk(groups[gi], phases)
  {
  }

  lemma TilesSame(groups: seq<Group>, n: int, gi: nat, g: Group)
    requires Tiles(groups, n) && gi < |groups| && g.lo == groups[gi].lo && g.hi == groups[gi].hi
    ensures Tiles(groups[gi := g], n)
  {
  }

  lemma GrabLive(workers: map<int, Pc>, p: Plan, w: int, home: nat, r: Grabbed)
    requires p.chunk > 0 && LiveOk(workers, p) && w in workers && workers[w] == Grabbing(home)
    requires r.Chunk? && 0 <= r.g < |p.groups| && Runnable(p.groups[r.g], p.phases) && r == ChunkAt(p.groups[r.g], r.g, p.chunk)
    requires 0 <= p.groups[r.g].cursor + p.chunk < TWO31
    ensures LiveOk(workers[w := Running(home, r)], AfterGrab(p, r))
  {
    hide ChunksIn, Flight;
    var p2 := AfterGrab(p, r);
    ChunksNext(p.groups[r.g].hi - p.groups[r.g].cursor, p.chunk);
    forall gi | 0 <= gi < |p.groups|
      ensures p2.groups[gi].live == |Flight(workers[w := Running(home, r)], gi)| + Waiting(p2.groups[gi], p.phases, p.chunk)
    {
      FlightMoves(workers, w, Running(home, r), gi);
    }
  }

  lemma GrabFlights(workers: map<int, Pc>, p: Plan, w: int, home: nat, r: Grabbed)
    requires p.chunk > 0 && FlightsOk(workers, p) && GroupsOk(p.groups, p.phases) && w in workers
    requires r.Chunk? && 0 <= r.g < |p.groups| && Runnable(p.groups[r.g], p.phases) && r == ChunkAt(p.groups[r.g], r.g, p.chunk)
    requires 0 <= p.groups[r.g].cursor + p.chunk < TWO31
    ensures FlightsOk(workers[w := Running(home, r)], AfterGrab(p, r))
    ensures GroupsOk(AfterGrab(p, r).groups, p.phases)
  {
    GroupsAt(p.groups, p.phases, r.g);
    forall v | v in workers && v != w ensures FlightOk(workers[v], AfterGrab(p, r).groups, p.phases) {
      assert FlightOk(workers[v], p.groups, p.phases);
    }
  }

  /** The cursor after a grab that does not wrap. */
  lemma GrabCursors(p: Plan, r: Grabbed)
    requires p.chunk > 0 && CursorsOk(p.groups, p.chunk) && GroupsOk(p.groups, p.phases)
    requires r.Chunk? && 0 <= r.g < |p.groups| && Runnable(p.groups[r.g], p.phases) && r == ChunkAt(p.groups[r.g], r.g, p.chunk)
    requires 0 <= p.groups[r.g].cursor + p.chunk < TWO31
    ensures CursorsOk(AfterGrab(p, r).groups, p.chunk)
  {
    var g := p.groups[r.g];
    GroupsAt(p.groups, p.phases, r.g);
    assert CursorOk(g, p.chunk);
    RoundedIs(g.hi - g.lo, p.chunk, g.cursor - g.lo);
    RoundedIs(g.hi - g.lo, p.chunk, g.cursor - g.lo + p.chunk);
    hide Rounded;
    forall gi | 0 <= gi < |p.groups| ensures CursorOk(AfterGrab(p, r).groups[gi], p.chunk) {
      assert CursorOk(p.groups[gi], p.chunk);
    }
  }

  /** With room for every chunk no grab wraps. */
  lemma GrabFits(p: Plan, gi: nat)
    requires p.chunk > 0 && Fits(p) && CursorsOk(p.groups, p.chunk) && gi < |p.groups| && p.groups[gi].cursor < p.groups[gi].hi
    ensures p.groups[gi].cursor + p.chunk < TWO31
  {
    var g := p.groups[gi];
    assert CursorOk(g, p.chunk);
    RoundedIs(g.hi - g.lo, p.chunk, g.cursor - g.lo);
  }

  lemma CursorInside(p: Plan, gi: nat)
    requires p.chunk > 0 && CursorsOk(p.groups, p.chunk) && GroupsOk(p.groups, p.phases) && gi < |p.groups|
    ensures 0 <= p.groups[gi].cursor < TWO31
  {
    assert CursorOk(p.groups[gi], p.chunk) && GroupOk(p.groups[gi], p.phases);
  }

  lemma CountsSame(p: Plan, p2: Plan)
    requires CountsFit(p) && SameSlices(p, p2)
    ensures CountsFit(p2)
  {
  }

  /** Only phases, cursors and counts differ. */
  ghost predicate SameSlices(p: Plan, p2: Plan) {
    && p2.chunk == p.chunk && p2.phases == p.phases && |p2.groups| == |p.groups|
    && forall gi | 0 <= gi < |p.groups| :: p2.groups[gi].lo == p.groups[gi].lo && p2.groups[gi].hi == p.groups[gi].hi
  }

  lemma GrabKeeps(s: State, s2: State, n: int, w: int, home: nat, r: Grabbed)
    requires Inv(s, n) && w in s.workers && s.workers[w] == Grabbing(home) && r == Grab(s.plan, home) && r.Chunk?
    requires s2 == Go(s, w, Running(home, r)).(plan := AfterGrab(s.plan, r), calls := s.calls + [r])
    requires s.plan.groups[r.g].cursor + s.plan.chunk < TWO31
    ensures Inv(s2, n)
  {
    var p, p2 := s.plan, s2.plan;
    CursorInside(p, r.g);
    CountsSame(p, p2);
    hide Tiles, CallsOk, LiveOk, FlightsOk, GroupsOk, CursorsOk, CountsFit, Runnable;
    GrabHands(p, n, r, s.calls);
    GrabLive(s.workers, p, w, home, r);
    GrabFlights(s.workers, p, w, home, r);
    GrabCursors(p, r);
    TilesSame(p.groups, n, r.g, p2.groups[r.g]);
    CountSet(p.groups, p.phases, r.g, p2.groups[r.g]);
  }

  /** A grab whose end wraps hands out a range that ends below its start. */
  lemma GrabWraps(p: Plan, r: Grabbed, calls: seq<Grabbed>)
    requires 0 < p.chunk < TWO31 && CursorsOk(p.groups, p.chunk) && GroupsOk(p.groups, p.phases)
    requires r.Chunk? && 0 <= r.g < |p.groups| && r == ChunkAt(p.groups[r.g], r.g, p.chunk)
    requires p.groups[r.g].cursor + p.chunk >= TWO31
    ensures BackwardCall(calls + [r])
  {
    CursorInside(p, r.g);
    assert (calls + [r])[|calls|] == r;
  }

  // ----- retiring --------------------------------------------------------------------------

  /** The last chunk of a phase to retire leaves nothing waiting and nothing in flight. */
  lemma LastOfPhase(s: State, n: int, w: int, gi: nat)
    requires Inv(s, n) && w in s.workers && gi < |s.plan.groups| && InFlight(s.workers[w], gi) && s.plan.groups[gi].live == 1
    ensures s.plan.groups[gi].cursor == s.plan.groups[gi].hi
    ensures forall v | v in s.workers && v != w :: !InFlight(s.workers[v], gi)
  {
    hide CallsOk, Tiles, ChunksIn, CursorsOk, CountsFit;
    var g := s.plan.groups[gi];
    GroupsAt(s.plan.groups, s.plan.phases, gi);
    assert FlightOk(s.workers[w], s.plan.groups, s.plan.phases);
    assert w in Flight(s.workers, gi);
    SubsetSize({w}, Flight(s.workers, gi));
    if g.cursor < g.hi { ChunksPositive(g.hi - g.cursor, s.plan.chunk); } else { ChunksOfNone(s.plan.chunk); }
    OnlyFlight(s.workers, gi, w);
  }

  /** Opening the next phase hands out nothing. */
  lemma RetireHands(p: Plan, n: int, gi: nat, calls: seq<Grabbed>)
    requires p.chunk > 0 && Tiles(p.groups, n) && CallsOk(p, calls) && gi < |p.groups|
    requires p.groups[gi].phase < p.phases && (p.groups[gi].live == 1 ==> p.groups[gi].cursor == p.groups[gi].hi)
    ensures CallsOk(Retire(p, gi), calls)
  {
    hide ChunksOf;
    var p2 := Retire(p, gi);
    var g := p.groups[gi];
    forall q, i ensures Times(calls, q, i) == if Handed(p2, q, i) then 1 else 0 {
      assert Times(calls, q, i) == if Handed(p, q, i) then 1 else 0;
      GroupOfSame(p.groups, gi, p2.groups[gi], i, 0);
      if g.lo <= i < g.hi { GroupOfIs(p.groups, n, gi, i); }
    }
  }

  lemma RetireLive(workers: map<int, Pc>, p: Plan, w: int, home: nat, gi: nat)
    requires p.chunk > 0 && LiveOk(workers, p) && w in workers && gi < |p.groups| && InFlight(workers[w], gi)
    requires p.groups[gi].phase < p.phases
    requires p.groups[gi].live == 1 ==>
      p.groups[gi].cursor == p.groups[gi].hi && forall v | v in workers && v != w :: !InFlight(workers[v], gi)
    requires CountsFit(p) && p.groups[gi].lo <= p.groups[gi].hi
    ensures LiveOk(workers[w := Grabbing(home)], Retire(p, gi))
  {
    ChunksOfIs(p.groups[gi].hi - p.groups[gi].lo, p.chunk);
    hide ChunksIn, ChunksOf, Flight;
    var p2 := Retire(p, gi);
    ChunksOfNone(p.chunk);
    forall j | 0 <= j < |p.groups|
      ensures p2.groups[j].live == |Flight(workers[w := Grabbing(home)], j)| + Waiting(p2.groups[j], p.phases, p.chunk)
    {
      FlightMoves(workers, w, Grabbing(home), j);
    }
  }

  lemma RetireFlights(workers: map<int, Pc>, p: Plan, w: int, home: nat, gi: nat)
    requires p.chunk > 0 && FlightsOk(workers, p) && GroupsOk(p.groups, p.phases) && w in workers && gi < |p.groups|
    requires InFlight(workers[w], gi) && p.groups[gi].phase < p.phases
    requires p.groups[gi].live == 1 ==>
      p.groups[gi].cursor == p.groups[gi].hi && forall v | v in workers && v != w :: !InFlight(workers[v], gi)
    requires CountsFit(p)
    ensures FlightsOk(workers[w := Grabbing(home)], Retire(p, gi))
    ensures GroupsOk(Retire(p, gi).groups, p.phases)
  {
    var g := p.groups[gi];
    GroupsAt(p.groups, p.phases, gi);
    ChunksOfIs(g.hi - g.lo, p.chunk);
    ChunksPositive(g.hi - g.lo, p.chunk);
    hide ChunksIn, ChunksOf;
    forall v | v in workers && v != w ensures FlightOk(workers[v], Retire(p, gi).groups, p.phases) {
      assert FlightOk(workers[v], p.groups, p.phases);
    }
  }

  lemma RetireCursors(p: Plan, gi: nat)
    requires p.chunk > 0 && CursorsOk(p.groups, p.chunk) && gi < |p.groups|
    requires p.groups[gi].live == 1 ==> p.groups[gi].cursor == p.groups[gi].hi
    ensures CursorsOk(Retire(p, gi).groups, p.chunk)
  {
    hide ChunksOf, Rounded;
    RemainderIs(0, p.chunk, 0, 0);
    forall j | 0 <= j < |p.groups| ensures CursorOk(Retire(p, gi).groups[j], p.chunk) {
      assert CursorOk(p.groups[j], p.chunk);
    }
  }

  /** A chunk that has come back retires in the group it was grabbed from. */
  lemma ReturnedGroup(s: State, n: int, w: int)
    requires Inv(s, n) && w in s.workers && s.workers[w].Returned?
    ensures s.workers[w].c.Chunk? && 0 <= s.workers[w].c.g < |s.plan.groups|
    ensures var c := s.workers[w].c; GroupOf(s.plan.groups, c.lo, 0) == c.g
    ensures var g := s.plan.groups[s.workers[w].c.g]; g.phase < s.plan.phases && g.lo <= g.hi
  {
    hide CallsOk, LiveOk, CursorsOk, CountsFit, CountDone, Flight, ChunksOf;
    var c := s.workers[w].c;
    assert FlightOk(s.workers[w], s.plan.groups, s.plan.phases);
    GroupsAt(s.plan.groups, s.plan.phases, c.g);
    GroupOfIs(s.plan.groups, n, c.g, c.lo);
  }

  lemma RetireKeepsAt(s: State, s2: State, n: int, w: int, home: nat, gi: nat)
    requires Inv(s, n) && w in s.workers && InFlight(s.workers[w], gi)
    requires gi < |s.plan.groups| && s.plan.groups[gi].phase < s.plan.phases && s.plan.groups[gi].lo <= s.plan.groups[gi].hi
    requires s.plan.chunk > 0 && s2 == Go(s, w, Grabbing(home)).(plan := Retire(s.plan, gi))
    requires s.plan.groups[gi].live == 1 ==>
      s.plan.groups[gi].cursor == s.plan.groups[gi].hi && forall v | v in s.workers && v != w :: !InFlight(s.workers[v], gi)
    ensures Inv(s2, n)
  {
    hide Tiles, CallsOk, LiveOk, FlightsOk, GroupsOk, CursorsOk, CountsFit, CountDone, Flight, ChunksOf, InFlight;
    var p := s.plan;
    NotAllDone(p.groups, p.phases, gi);
    CountsSame(p, s2.plan);
    RetireCursors(p, gi);
    RetireHands(p, n, gi, s.calls);
    RetireLive(s.workers, p, w, home, gi);
    RetireFlights(s.workers, p, w, home, gi);
    TilesSame(p.groups, n, gi, s2.plan.groups[gi]);
    CountSet(p.groups, p.phases, gi, s2.plan.groups[gi]);
  }

  lemma RetireKeeps(s: State, s2: State, n: int, w: int)
    requires Inv(s, n) && w in s.workers && s.workers[w].Returned? && Step(s, s2, w)
    ensures Inv(s2, n)
  {
    hide Inv, Retire, GroupOf;
    var Returned(home, c) := s.workers[w];
    ReturnedGroup(s, n, w);
    if s.plan.groups[c.g].live == 1 { LastOfPhase(s, n, w, c.g); }
    RetireKeepsAt(s, s2, n, w, home, c.g);
  }

  lemma NotAllDone(groups: seq<Group>, phases: int, gi: nat)
    requires gi < |groups| && groups[gi].phase < phases
    ensures CountDone(groups, phases) < |groups|
  {
    CountAll(groups, phases);
  }

  lemma EmptyGrabKeeps(s: State, s2: State, n: int, w: int)
    requires Inv(s, n) && Step(s, s2, w) && s.workers[w].Grabbing? && !Grab(s.plan, s.workers[w].home).Chunk?
    ensures Inv(s2, n)
  {
    hide CallsOk, Tiles, LiveOk, GroupsOk, CursorsOk, CountsFit, AfterGrab, Retire, Grab, CountDone;
    if Grab(s.plan, s.workers[w].home) == Finished {
      FinishedMeansDone(s.plan, s.workers[w].home);
      QuietKeeps(s, s2, n, w, Left);
    }
  }

  lemma OtherKeeps(s: State, s2: State, n: int, w: int)
    requires Inv(s, n) && Step(s, s2, w) && !s.workers[w].Grabbing?
    ensures Inv(s2, n)
  {
    hide CallsOk, Tiles, LiveOk, GroupsOk, CursorsOk, CountsFit, AfterGrab, Retire, Grab, CountDone;
    match s.workers[w]
    case Idle =>
      var home :| s2 == Go(s, w, Grabbing(home));
      QuietKeeps(s, s2, n, w, Grabbing(home));
    case Running(home, c) =>
      assert FlightOk(s.workers[w], s.plan.groups, s.plan.phases);
      QuietKeeps(s, s2, n, w, Returned(home, c));
    case Returned(_, _) => RetireKeeps(s, s2, n, w);
    case _ =>
  }

  /** A step keeps the invariant, or hands the kernel a range that ends below its start; with room for
      every chunk it keeps the invariant. */
  lemma StepKeepsInv(s: State, s2: State, n: int, w: int)
    requires Inv(s, n) && Step(s, s2, w)
    ensures Inv(s2, n) || BackwardCall(s2.calls)
    ensures Fits(s.plan) ==> Inv(s2, n)
  {
    hide CallsOk, Tiles, LiveOk, GroupsOk, CursorsOk, CountsFit, Fits, AfterGrab, Retire, Grab, CountDone, BackwardCall;
    if s.workers[w].Grabbing? {
      var home := s.workers[w].home;
      var r := Grab(s.plan, home);
      if r.Chunk? {
        GrabSays(s.plan, home);
        if Fits(s.plan) { GrabFits(s.plan, r.g); }
        if s.plan.groups[r.g].cursor + s.plan.chunk < TWO31 {
          GrabKeeps(s, s2, n, w, home, r);
        } else {
          GrabWraps(s.plan, r, s.calls);
        }
      } else {
        EmptyGrabKeeps(s, s2, n, w);
      }
    } else {
      OtherKeeps(s, s2, n, w);
    }
  }

  lemma GrabSays(p: Plan, home: nat)
    requires Grab(p, home).Chunk?
    ensures var r := Grab(p, home);
      0 <= r.g < |p.groups| && r == ChunkAt(p.groups[r.g], r.g, p.chunk) && Runnable(p.groups[r.g], p.phases)
  {
  }

  lemma FinishedMeansDone(p: Plan, home: nat)
    requires Grab(p, home) == Finished
    ensures p.done == |p.groups|
  {
  }

  // ----- what every run keeps --------------------------------------------------------------

  ghost predicate Next(s: State, s2: State) {
    exists w :: Step(s, s2, w)
  }

  ghost predicate Run(run: seq<State>, n: int) {
    && |run| > 0 && Init(run[0], n)
    && forall i | 0 <= i < |run| - 1 :: Next(run[i], run[i + 1])
  }

  lemma RunMore(run: seq<State>, n: int, s: State, w: int)
    requires Run(run, n) && Step(run[|run| - 1], s, w)
    ensures Run(run + [s], n)
  {
    hide Init, Step;
    assert Next(run[|run| - 1], s);
  }

  lemma StepSlices(s: State, s2: State, w: int)
    requires Step(s, s2, w)
    ensures SameSlices(s.plan, s2.plan) && s.calls <= s2.calls
  {
    hide ChunksOf, Grab;
    if s.workers[w].Grabbing? {
      var r := Grab(s.plan, s.workers[w].home);
      if r.Chunk? { GrabSays(s.plan, s.workers[w].home); }
    }
  }

  lemma FitsSame(p: Plan, p2: Plan)
    requires p.chunk > 0 && Fits(p) && SameSlices(p, p2)
    ensures Fits(p2)
  {
    hide Rounded;
  }

  lemma SlicesKept(p: Plan, p2: Plan)
    requires SameSlices(p, p2)
    ensures p2.chunk == p.chunk && SameSlices(p2, p)
  {
  }

  lemma InitFits(s: State, n: int)
    requires Init(s, n) && Fits(s.plan)
    ensures Inv(s, n) && s.plan.chunk > 0 && !BackwardCall(s.calls)
  {
    hide Inv, Tiles, CountsFit;
    InitInv(s, n);
  }

  /** With room for every chunk no call ends below its start. */
  lemma StepForward(s: State, s2: State, n: int, w: int)
    requires Inv(s, n) && Step(s, s2, w) && Fits(s.plan) && !BackwardCall(s.calls)
    ensures !BackwardCall(s2.calls)
  {
    hide CallsOk, Tiles, LiveOk, GroupsOk, FlightsOk, CursorsOk, CountsFit, Fits, AfterGrab, Retire, CountDone;
    if s.workers[w].Grabbing? {
      var r := Grab(s.plan, s.workers[w].home);
      if r.Chunk? {
        GrabSays(s.plan, s.workers[w].home);
        GrabFits(s.plan, r.g);
        CursorInside(s.plan, r.g);
      }
    }
  }

  /** With room for every chunk the invariant holds along every run, and every call is of a proper range. */
  lemma {:induction false} RunKeepsInv(run: seq<State>, n: int, i: nat)
    requires Run(run, n) && i < |run| && Fits(run[0].plan)
    ensures Inv(run[i], n) && 0 < run[i].plan.chunk && Fits(run[i].plan)
    ensures !BackwardCall(run[i].calls)
  {
    hide Inv, Init, Step, Fits, CountsFit;
    if i == 0 {
      InitFits(run[0], n);
    } else {
      RunKeepsInv(run, n, i - 1);
      var w :| Step(run[i - 1], run[i], w);
      StepKeepsInv(run[i - 1], run[i], n, w);
      StepSlices(run[i - 1], run[i], w);
      SlicesKept(run[i - 1].plan, run[i].plan);
      StepForward(run[i - 1], run[i], n, w);
      FitsSame(run[i - 1].plan, run[i].plan);
    }
  }

  /** A range and a chunk that together make at most 2 to the 31 leave room for every chunk. */
  lemma EnoughRoom(p: Plan, n: int)
    requires p.chunk > 0 && Tiles(p.groups, n) && n + p.chunk <= TWO31
    ensures Fits(p)
  {
    forall gi | 0 <= gi < |p.groups|
      ensures p.groups[gi].hi - p.groups[gi].lo + p.chunk - 1 < TWO31
      ensures p.groups[gi].lo + Rounded(p.groups[gi].hi - p.groups[gi].lo, p.chunk) < TWO31
    {
      SliceInside(p.groups, n, gi);
      RoundedBelow(p.groups[gi].hi - p.groups[gi].lo, p.chunk);
      hide Rounded;
    }
  }

  /** With every count in range a run keeps the invariant until the kernel gets a range that ends below
      its start. */
  lemma {:induction false} RunUntilBackward(run: seq<State>, n: int, i: nat)
    requires Run(run, n) && i < |run| && CountsFit(run[0].plan)
    ensures Inv(run[i], n) || BackwardCall(run[i].calls)
  {
    hide Inv, Init, Step, CountsFit, BackwardCall;
    if i == 0 {
      InitInv(run[0], n);
    } else {
      RunUntilBackward(run, n, i - 1);
      var w :| Step(run[i - 1], run[i], w);
      StepSlices(run[i - 1], run[i], w);
      if BackwardCall(run[i - 1].calls) {
        BackwardStays(run[i - 1].calls, run[i].calls);
      } else {
        StepKeepsInv(run[i - 1], run[i], n, w);
      }
    }
  }

  lemma BackwardStays(calls: seq<Grabbed>, more: seq<Grabbed>)
    requires BackwardCall(calls) && calls <= more
    ensures BackwardCall(more)
  {
    var k :| 0 <= k < |calls| && calls[k].Chunk? && calls[k].hi < calls[k].lo;
    assert more[k] == calls[k];
  }

  // ----- a count of chunks that wraps ------------------------------------------------------

  /** A group whose count of chunks has wrapped stays in its first phase, and the dispatch unfinished. */
  ghost predicate Stuck(s: State, gi: int) {
    && s.plan.phases > 0 && 0 <= gi < |s.plan.groups| && s.plan.groups[gi].phase == 0 && s.plan.groups[gi].live <= 0
    && (forall j | 0 <= j < |s.plan.groups| && s.plan.groups[j].phase >= s.plan.phases :: s.plan.groups[j].live <= 0)
    && s.plan.done == CountDone(s.plan.groups, s.plan.phases)
    && (forall w | w in s.workers :: s.workers[w] != Left)
  }

  lemma WrappedCount(len: int, chunk: int)
    requires 0 < len < TWO31 && 0 < chunk < TWO31 && len + chunk - 1 >= TWO31
    ensures ChunksOf(len, chunk) <= 0
  {
    var x := 2 * TWO31 - (len + chunk - 1);
    assert x == chunk * (x / chunk) + x % chunk;
    MulBounds(chunk, x / chunk);
  }

  lemma InitStuck(s: State, n: int, gi: nat)
    requires Init(s, n) && gi < |s.plan.groups|
    requires s.plan.groups[gi].hi - s.plan.groups[gi].lo + s.plan.chunk - 1 >= TWO31
    ensures Stuck(s, gi)
  {
    hide ChunksOf;
    var p := s.plan;
    assert p.groups[gi] == FreshGroup(p.groups[gi].lo, p.groups[gi].hi, p.chunk);
    SliceInside(p.groups, n, gi);
    WrappedCount(p.groups[gi].hi - p.groups[gi].lo, p.chunk);
    CountNone(p.groups, p.phases);
  }

  lemma StepStuck(s: State, s2: State, w: int, gi: nat)
    requires Stuck(s, gi) && Step(s, s2, w)
    ensures Stuck(s2, gi)
  {
    hide CountDone, ChunksOf, FirstRunnable;
    var p := s.plan;
    NotAllDone(p.groups, p.phases, gi);
    match s.workers[w]
    case Idle =>
    case Grabbing(home) =>
      var r := Grab(p, home);
      if r.Chunk? {
        GrabSays(p, home);
        CountSet(p.groups, p.phases, r.g, s2.plan.groups[r.g]);
      }
    case Running(_, _) =>
    case Returned(_, c) =>
      var j := GroupOf(p.groups, c.lo, 0);
      if j < |p.groups| { CountSet(p.groups, p.phases, j, s2.plan.groups[j]); }
    case Left =>
  }

  /** If the count of any group wraps, the dispatch never finishes. */
  lemma {:induction false} NeverFinishes(run: seq<State>, n: int, i: nat, gi: nat)
    requires Run(run, n) && i < |run| && gi < |run[0].plan.groups|
    requires run[0].plan.groups[gi].hi - run[0].plan.groups[gi].lo + run[0].plan.chunk - 1 >= TWO31
    ensures Stuck(run[i], gi)
  {
    hide Stuck, Init, Step;
    if i == 0 {
      InitStuck(run[0], n, gi);
    } else {
      NeverFinishes(run, n, i - 1, gi);
      var w :| Step(run[i - 1], run[i], w);
      StepStuck(run[i - 1], run[i], w, gi);
    }
  }

  lemma FinishedCounts(run: seq<State>, n: int, i: nat, w: int)
    requires Run(run, n) && i < |run| && w in run[i].workers && run[i].workers[w] == Left
    ensures CountsFit(run[0].plan)
  {
    hide Init, Step;
    forall gi | 0 <= gi < |run[0].plan.groups|
      ensures run[0].plan.groups[gi].hi - run[0].plan.groups[gi].lo + run[0].plan.chunk - 1 < TWO31
    {
      if run[0].plan.groups[gi].hi - run[0].plan.groups[gi].lo + run[0].plan.chunk - 1 >= TWO31 {
        NeverFinishes(run, n, i, gi);
      }
    }
  }

  // ----- what the dispatch promises --------------------------------------------------------

  /** No phase of any index is ever given to the kernel twice, nor anything outside the range. */
  lemma AtMostOnce(run: seq<State>, n: int, i: nat, q: int, x: int)
    requires Run(run, n) && i < |run| && Fits(run[0].plan)
    ensures Times(run[i].calls, q, x) <= 1
    ensures Times(run[i].calls, q, x) == 1 ==> 0 <= q < run[i].plan.phases && 0 <= x < n
  {
    RunKeepsInv(run, n, i);
    hide LiveOk, FlightsOk, GroupsOk;
    if Handed(run[i].plan, q, x) { OutsideSlices(run[i].plan.groups, n, x); }
  }

  lemma SlicesSame(run: seq<State>, n: int, i: nat)
    requires Run(run, n) && i < |run|
    ensures SameSlices(run[0].plan, run[i].plan)
    decreases i
  {
    hide Init, Step;
    if i > 0 {
      SlicesSame(run, n, i - 1);
      var w :| Step(run[i - 1], run[i], w);
      StepSlices(run[i - 1], run[i], w);
    }
  }

  /** When every group has been through its phases, no cursor can have wrapped. */
  lemma DoneFits(p: Plan)
    requires p.chunk > 0 && p.phases > 0 && CountsFit(p) && CursorsOk(p.groups, p.chunk)
    requires forall gi | 0 <= gi < |p.groups| :: p.groups[gi].phase >= p.phases
    ensures Fits(p)
  {
    hide Rounded, CountsFit;
    forall gi | 0 <= gi < |p.groups|
      ensures p.groups[gi].lo + Rounded(p.groups[gi].hi - p.groups[gi].lo, p.chunk) < TWO31
    {
      assert CursorOk(p.groups[gi], p.chunk);
    }
  }

  lemma DoneNow(s: State, n: int, w: int)
    requires Inv(s, n) && w in s.workers && s.workers[w] == Left
    ensures s.plan.chunk > 0 && Fits(s.plan)
  {
    hide Tiles, CallsOk, LiveOk, FlightsOk, GroupsOk, CursorsOk, CountsFit, Fits;
    CountAll(s.plan.groups, s.plan.phases);
    DoneFits(s.plan);
  }

  // ----- what a wrapped end spoils -----------------------------------------------------------

  /** Every phase of every index has been given to the kernel once, and nothing else has. */
  ghost predicate Exact(calls: seq<Grabbed>, phases: int, n: int) {
    forall q, x :: Times(calls, q, x) == if 0 <= q < phases && 0 <= x < n then 1 else 0
  }

  /** The kernel has been called below the range. */
  ghost predicate StrayCall(calls: seq<Grabbed>) {
    exists k :: 0 <= k < |calls| && calls[k].Chunk? && calls[k].lo < 0 && calls[k].lo < calls[k].hi
  }

  /** A cursor stands in its slice, or has wrapped below the range. */
  ghost predicate Placed(g: Group) {
    g.lo <= g.cursor <= g.hi || g.cursor < 0
  }

  ghost predicate AllPlaced(p: Plan, n: int) {
    && 0 < n < TWO31 && 0 < p.chunk < TWO31 && Tiles(p.groups, n)
    && forall gi | 0 <= gi < |p.groups| :: Placed(p.groups[gi])
  }

  /** Phase `q` of index `x` has been passed over: its group has wrapped in that phase, or is past it. */
  ghost predicate PassedOver(p: Plan, calls: seq<Grabbed>, gi: int, q: int, x: int) {
    && 0 <= gi < |p.groups| && p.groups[gi].lo <= x < p.groups[gi].hi && 0 <= q < p.phases
    && Times(calls, q, x) == 0
    && (p.groups[gi].phase > q || (p.groups[gi].phase == q && p.groups[gi].cursor < 0))
  }

  ghost predicate Spoilt(s: State, n: int) {
    StrayCall(s.calls) || (AllPlaced(s.plan, n) && exists gi, q, x :: PassedOver(s.plan, s.calls, gi, q, x))
  }

  lemma {:induction false} InSome(calls: seq<Grabbed>, k: nat)
    requires k < |calls| && calls[k].Chunk? && calls[k].lo < calls[k].hi
    ensures Times(calls, calls[k].phase, calls[k].lo) > 0
  {
    if k < |calls| - 1 { InSome(calls[..|calls| - 1], k); }
  }

  lemma SpoiltNotExact(s: State, n: int)
    requires Spoilt(s, n)
    ensures !Exact(s.calls, s.plan.phases, n)
  {
    hide Times;
    if StrayCall(s.calls) {
      var k :| 0 <= k < |s.calls| && s.calls[k].Chunk? && s.calls[k].lo < 0 && s.calls[k].lo < s.calls[k].hi;
      InSome(s.calls, k);
    } else {
      var gi, q, x :| PassedOver(s.plan, s.calls, gi, q, x);
      SliceInside(s.plan.groups, n, gi);
    }
  }

  lemma StrayStays(calls: seq<Grabbed>, more: seq<Grabbed>)
    requires StrayCall(calls) && calls <= more
    ensures StrayCall(more)
  {
    var k :| 0 <= k < |calls| && calls[k].Chunk? && calls[k].lo < 0 && calls[k].lo < calls[k].hi;
    assert more[k] == calls[k];
  }

  /** A grab by a cursor that has wrapped is a call below the range; any other leaves every cursor placed. */
  lemma GrabPlaced(p: Plan, n: int, r: Grabbed, calls: seq<Grabbed>)
    requires AllPlaced(p, n) && r.Chunk? && 0 <= r.g < |p.groups| && r == ChunkAt(p.groups[r.g], r.g, p.chunk)
    requires p.groups[r.g].cursor < p.groups[r.g].hi
    ensures if p.groups[r.g].cursor < 0 then StrayCall(calls + [r]) else AllPlaced(AfterGrab(p, r), n)
  {
    SliceInside(p.groups, n, r.g);
    assert Placed(p.groups[r.g]);
    assert (calls + [r])[|calls|] == r;
    TilesSame(p.groups, n, r.g, AfterGrab(p, r).groups[r.g]);
    hide Tiles;
  }

  /** What has been passed over is not run by a later grab. */
  lemma GrabPassesOver(p: Plan, n: int, r: Grabbed, calls: seq<Grabbed>, gi: int, q: int, x: int)
    requires AllPlaced(p, n) && PassedOver(p, calls, gi, q, x) && r.Chunk? && 0 <= r.g < |p.groups|
    requires r == ChunkAt(p.groups[r.g], r.g, p.chunk) && 0 <= p.groups[r.g].cursor < p.groups[r.g].hi
    ensures PassedOver(AfterGrab(p, r), calls + [r], gi, q, x)
  {
    assert (calls + [r])[..|calls|] == calls;
    assert Placed(p.groups[r.g]);
    if r.g < gi { SlicesInOrder(p.groups, n, r.g, gi); }
    if gi < r.g { SlicesInOrder(p.groups, n, gi, r.g); }
    hide Tiles;
  }

  lemma RetirePlaced(p: Plan, n: int, calls: seq<Grabbed>, j: nat, gi: int, q: int, x: int)
    requires AllPlaced(p, n) && PassedOver(p, calls, gi, q, x) && j < |p.groups|
    ensures AllPlaced(Retire(p, j), n) && PassedOver(Retire(p, j), calls, gi, q, x)
  {
    hide ChunksOf, Times;
    TilesSame(p.groups, n, j, Retire(p, j).groups[j]);
    assert Placed(p.groups[j]) && p.groups[j].lo < p.groups[j].hi;
    hide Tiles;
  }

  lemma StepSpoilt(s: State, s2: State, n: int, w: int)
    requires Spoilt(s, n) && Step(s, s2, w)
    ensures Spoilt(s2, n)
  {
    hide ChunksOf, Times, AllPlaced, PassedOver, StrayCall, FirstRunnable;
    StepSlices(s, s2, w);
    if StrayCall(s.calls) {
      StrayStays(s.calls, s2.calls);
    } else {
      var gi, q, x :| PassedOver(s.plan, s.calls, gi, q, x);
      match s.workers[w]
      case Grabbing(home) =>
        var r := Grab(s.plan, home);
        if r.Chunk? {
          GrabSays(s.plan, home);
          GrabPlaced(s.plan, n, r, s.calls);
          if s.plan.groups[r.g].cursor >= 0 { GrabPassesOver(s.plan, n, r, s.calls, gi, q, x); }
        }
      case Returned(_, c) =>
        var j := GroupOf(s.plan.groups, c.lo, 0);
        if j < |s.plan.groups| { RetirePlaced(s.plan, n, s.calls, j, gi, q, x); }
      case _ =>
    }
  }

  /** The grab that wraps passes over the index where its chunk starts. */
  lemma GrabSpoils(s: State, s2: State, n: int, w: int, home: nat, r: Grabbed)
    requires Inv(s, n) && w in s.workers && s.workers[w] == Grabbing(home) && r == Grab(s.plan, home) && r.Chunk?
    requires s2 == Go(s, w, Running(home, r)).(plan := AfterGrab(s.plan, r), calls := s.calls + [r])
    requires s.plan.groups[r.g].cursor + s.plan.chunk >= TWO31
    ensures Spoilt(s2, n)
  {
    var p, calls := s.plan, s.calls;
    GrabSays(p, home);
    GroupsAt(p.groups, p.phases, r.g);
    SliceInside(p.groups, n, r.g);
    forall gi | 0 <= gi < |p.groups| ensures Placed(p.groups[gi]) { GroupsAt(p.groups, p.phases, gi); }
    GrabPlaced(p, n, r, calls);
    GroupOfIs(p.groups, n, r.g, r.lo);
    assert !Handed(p, r.phase, r.lo);
    assert Times(calls, r.phase, r.lo) == 0;
    assert (calls + [r])[..|calls|] == calls;
    assert PassedOver(s2.plan, s2.calls, r.g, r.phase, r.lo);
  }

  lemma StepKeepsOrSpoils(s: State, s2: State, n: int, w: int)
    requires Inv(s, n) && Step(s, s2, w)
    ensures Inv(s2, n) || Spoilt(s2, n)
  {
    hide Inv, CallsOk, Tiles, LiveOk, GroupsOk, CursorsOk, CountsFit, AfterGrab, Retire, Grab, Spoilt;
    if s.workers[w].Grabbing? {
      var home := s.workers[w].home;
      var r := Grab(s.plan, home);
      if r.Chunk? {
        GrabSays(s.plan, home);
        if s.plan.groups[r.g].cursor + s.plan.chunk < TWO31 {
          GrabKeeps(s, s2, n, w, home, r);
        } else {
          GrabSpoils(s, s2, n, w, home, r);
        }
      } else {
        EmptyGrabKeeps(s, s2, n, w);
      }
    } else {
      OtherKeeps(s, s2, n, w);
    }
  }

  lemma {:induction false} RunUntilSpoilt(run: seq<State>, n: int, i: nat)
    requires Run(run, n) && i < |run| && CountsFit(run[0].plan)
    ensures Inv(run[i], n) || Spoilt(run[i], n)
  {
    hide Inv, Init, Step, CountsFit, Spoilt;
    if i == 0 {
      InitInv(run[0], n);
    } else {
      RunUntilSpoilt(run, n, i - 1);
      var w :| Step(run[i - 1], run[i], w);
      if Inv(run[i - 1], n) {
        StepKeepsOrSpoils(run[i - 1], run[i], n, w);
      } else {
        StepSpoilt(run[i - 1], run[i], n, w);
      }
    }
  }

  lemma PlanSame(run: seq<State>, n: int, i: nat)
    requires Run(run, n) && i < |run|
    ensures run[i].plan.phases == run[0].plan.phases
  {
    hide Init, Step;
    SlicesSame(run, n, i);
  }

  lemma InvFits(run: seq<State>, n: int, i: nat, w: int)
    requires Run(run, n) && i < |run| && w in run[i].workers && run[i].workers[w] == Left && Inv(run[i], n)
    ensures Fits(run[0].plan)
  {
    hide Inv, Step, Fits, CountsFit;
    DoneNow(run[i], n, w);
    SlicesSame(run, n, i);
    SlicesKept(run[0].plan, run[i].plan);
    FitsSame(run[i].plan, run[0].plan);
  }

  /** Once any worker has been told that the dispatch is finished, every phase of every index has been given
      to the kernel once, and nothing else has, if and only if there was room for every chunk; and if and
      only if no range ended below its start. */
  lemma FinishedFits(run: seq<State>, n: int, i: nat, w: int)
    requires Run(run, n) && i < |run| && w in run[i].workers && run[i].workers[w] == Left
    ensures Fits(run[0].plan) <==> Exact(run[i].calls, run[0].plan.phases, n)
    ensures Fits(run[0].plan) <==> !BackwardCall(run[i].calls)
  {
    hide Inv, Step, Fits, CountsFit, BackwardCall, Exact, Spoilt;
    FinishedCounts(run, n, i, w);
    RunUntilBackward(run, n, i);
    RunUntilSpoilt(run, n, i);
    PlanSame(run, n, i);
    if Inv(run[i], n) { InvFits(run, n, i, w); }
    if Fits(run[0].plan) {
      RunKeepsInv(run, n, i);
      FinishedExact(run, n, i, w);
    } else {
      SpoiltNotExact(run[i], n);
    }
  }

  lemma FinishedExact(run: seq<State>, n: int, i: nat, w: int)
    requires Run(run, n) && i < |run| && Fits(run[0].plan) && w in run[i].workers && run[i].workers[w] == Left
    ensures Exact(run[i].calls, run[0].plan.phases, n)
  {
    hide Step, Fits, Times, Init;
    PlanSame(run, n, i);
    FinishedIsDone(run, n, i, w);
    forall q, x ensures Times(run[i].calls, q, x) == if 0 <= q < run[0].plan.phases && 0 <= x < n then 1 else 0 {
      AtMostOnce(run, n, i, q, x);
    }
  }

  /** Once any worker has been told the dispatch is finished, the kernel has been called exactly once
      for every phase of every index, and every one of those calls has come back. */
  lemma FinishedIsDone(run: seq<State>, n: int, i: nat, w: int)
    requires Run(run, n) && i < |run| && Fits(run[0].plan) && w in run[i].workers && run[i].workers[w] == Left
    ensures forall q, x | 0 <= q < run[i].plan.phases && 0 <= x < n :: Times(run[i].calls, q, x) == 1
    ensures forall v | v in run[i].workers :: !run[i].workers[v].Running? && !run[i].workers[v].Returned?
  {
    var s := run[i];
    RunKeepsInv(run, n, i);
    CountAll(s.plan.groups, s.plan.phases);
    hide LiveOk, Times;
    forall q, x | 0 <= q < s.plan.phases && 0 <= x < n ensures Times(s.calls, q, x) == 1 {
      SomeGroup(s.plan.groups, n, x, 0);
      assert Handed(s.plan, q, x);
    }
    forall v | v in s.workers ensures !s.workers[v].Running? && !s.workers[v].Returned? {
      assert FlightOk(s.workers[v], s.plan.groups, s.plan.phases);
    }
  }

  /** A group's barrier: whatever is in flight belongs to the group's present phase, and every
      earlier phase of every index of the group has been handed out and has come back. */
  lemma GroupBarrier(run: seq<State>, n: int, i: nat, w: int)
    requires Run(run, n) && i < |run| && Fits(run[0].plan) && w in run[i].workers && run[i].workers[w].Running?
    ensures var c := run[i].workers[w].c; c.Chunk? && 0 <= c.g < |run[i].plan.groups|
    ensures var c := run[i].workers[w].c; forall v | v in run[i].workers && InFlight(run[i].workers[v], c.g) ::
      run[i].workers[v].c.phase == c.phase
    ensures var c := run[i].workers[w].c; forall q, x | 0 <= q < c.phase
      && run[i].plan.groups[c.g].lo <= x < run[i].plan.groups[c.g].hi :: Times(run[i].calls, q, x) == 1
  {
    var s := run[i];
    RunKeepsInv(run, n, i);
    hide LiveOk, Times;
    var c := s.workers[w].c;
    assert FlightOk(s.workers[w], s.plan.groups, s.plan.phases);
    forall v | v in s.workers && InFlight(s.workers[v], c.g) ensures s.workers[v].c.phase == c.phase {
      assert FlightOk(s.workers[v], s.plan.groups, s.plan.phases);
    }
    forall q, x | 0 <= q < c.phase && s.plan.groups[c.g].lo <= x < s.plan.groups[c.g].hi
      ensures Times(s.calls, q, x) == 1
    {
      GroupOfIs(s.plan.groups, n, c.g, x);
      assert Handed(s.plan, q, x);
    }
  }

  /** "Nothing to run" is the answer only while some chunk is in flight, whose retirement will open
      more or finish: no worker ever waits for nothing. */
  lemma NothingOnlyWhileBusy(run: seq<State>, n: int, i: nat, home: nat)
    requires Run(run, n) && i < |run| && Fits(run[0].plan) && Grab(run[i].plan, home) == Nothing
    ensures exists w, gi :: w in run[i].workers && 0 <= gi < |run[i].plan.groups| && InFlight(run[i].workers[w], gi)
  {
    RunKeepsInv(run, n, i);
    NothingWhileBusy(run[i], n, home);
  }

  lemma NothingWhileBusy(s: State, n: int, home: nat)
    requires Inv(s, n) && Grab(s.plan, home) == Nothing
    ensures exists w, gi :: w in s.workers && 0 <= gi < |s.plan.groups| && InFlight(s.workers[w], gi)
  {
    CountAll(s.plan.groups, s.plan.phases);
    hide CallsOk, Tiles, FlightsOk, Flight, ChunksIn;
    var gi :| 0 <= gi < |s.plan.groups| && s.plan.groups[gi].phase < s.plan.phases;
    NothingIsNone(s.plan.groups, s.plan.phases, home, gi);
    GroupsAt(s.plan.groups, s.plan.phases, gi);
    ChunksOfNone(s.plan.chunk);
    SomeFlight(s.workers, gi);
  }

  // ----- two dispatches without room -------------------------------------------------------

  /** Eight indices in chunks of 2 to the 31 less one: the count of chunks wraps to none, and after the
      only chunk has come back no worker finds anything to do, nor that all is done. */
  lemma HugeChunkHangs(home: nat) returns (run: seq<State>)
    ensures Run(run, 8) && |run| == 5 && run[0].plan.chunk == TWO31 - 1 && |run[0].plan.groups| == 1
    ensures run[4].calls == [Chunk(0, 0, 0, 8)] && Grab(run[4].plan, home) == Nothing
    ensures forall w | w in run[4].workers :: run[4].workers[w] == Grabbing(0)
  {
    var p := Plan(TWO31 - 1, 1, 0, [FreshGroup(0, 8, TWO31 - 1)]);
    var r := Chunk(0, 0, 0, 8);
    var s := State(map[0 := Idle], p, []);
    var s1 := Go(s, 0, Grabbing(0));
    var s2 := Go(s1, 0, Running(0, r)).(plan := AfterGrab(p, r), calls := [] + [r]);
    var s3 := Go(s2, 0, Returned(0, r));
    var s4 := Go(s3, 0, Grabbing(0)).(plan := Retire(s2.plan, 0));
    assert Step(s, s1, 0);
    assert Grab(p, 0) == r;
    assert Step(s1, s2, 0);
    assert Step(s2, s3, 0);
    assert Step(s3, s4, 0);
    run := [s, s1, s2, s3, s4];
  }

  /** 2 to the 31 less one indices in two groups, in chunks of 2 to the 30: the first chunk of the second
      group is given an end of minus 2 to the 31. */
  lemma LastChunkWraps() returns (run: seq<State>)
    ensures Run(run, TWO31 - 1) && |run| == 3 && run[0].plan.chunk == TWO31 / 2 && |run[0].plan.groups| == 2
    ensures CountsFit(run[0].plan) && run[2].calls == [Chunk(1, 0, TWO31 / 2, -TWO31)]
  {
    var c := TWO31 / 2;
    var p := Plan(c, 1, 0, [FreshGroup(0, c, c), FreshGroup(c, TWO31 - 1, c)]);
    var r := Chunk(1, 0, c, -TWO31);
    var s := State(map[0 := Idle], p, []);
    var s1 := Go(s, 0, Grabbing(1));
    var s2 := Go(s1, 0, Running(1, r)).(plan := AfterGrab(p, r), calls := [] + [r]);
    assert Step(s, s1, 0);
    assert Grab(p, 1) == r;
    assert Step(s1, s2, 0);
    run := [s, s1, s2];
  }
}
