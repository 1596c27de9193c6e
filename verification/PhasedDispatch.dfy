/** Phased dispatch: an index range split into groups, each of which runs its phases in order; a
    group's next phase opens when the last chunk of the present one retires.  The end of a chunk and
    the count of a group's chunks have 32 bits and wrap. */
module PhasedDispatch {
  import opened Basics

  /** A group's slice, its phase, the next chunk's start, and the chunks of this phase not yet retired. */
  datatype Group = Group(lo: int, hi: int, phase: int, cursor: int, live: int)

  datatype Plan = Plan(chunk: int, phases: int, done: int, groups: seq<Group>)

  /** What a worker gets: everything is finished, nothing to run just now, or a chunk. */
  datatype Grabbed = Finished | Nothing | Chunk(g: int, phase: int, lo: int, hi: int)

  const GROUP_MAX := 256

  /** How many chunks a length takes. */
  function ChunksIn(len: int, chunk: int): int
    requires chunk > 0
  {
    (len + chunk - 1) / chunk
  }

  /** How many the code counts. */
  function ChunksOf(len: int, chunk: int): int
    requires chunk > 0
  {
    TruncDiv(Int32(len + chunk - 1), chunk)
  }

  predicate Runnable(g: Group, phases: int) {
    g.phase < phases && g.cursor < g.hi
  }

  /** The group `k` places after `home` around the ring. */
  function Ring(home: nat, n: nat, k: nat): (i: nat)
    requires n > 0
    ensures i < n
  {
    (home + k) % n
  }

  /** The first runnable group from `home` on around the ring, `k` of them skipped; -1 if there is none. */
  function FirstRunnable(groups: seq<Group>, phases: int, home: nat, k: nat): (i: int)
    requires k <= |groups|
    ensures -1 <= i < |groups| && (i >= 0 ==> Runnable(groups[i], phases))
    decreases |groups| - k
  {
    if k == |groups| then -1
    else
      var i := Ring(home, |groups|, k);
      if Runnable(groups[i], phases) then i else FirstRunnable(groups, phases, home, k + 1)
  }

  function ChunkAt(g: Group, gi: int, chunk: int): Grabbed {
    Chunk(gi, g.phase, g.cursor, Min(Int32(g.cursor + chunk), g.hi))
  }

  function Grab(p: Plan, home: nat): Grabbed {
    if p.done == |p.groups| then Finished
    else
      var i := FirstRunnable(p.groups, p.phases, home, 0);
      if i < 0 then Nothing else ChunkAt(p.groups[i], i, p.chunk)
  }

  function AfterGrab(p: Plan, r: Grabbed): Plan
    requires r.Chunk? ==> 0 <= r.g < |p.groups|
  {
    if r.Chunk? then p.(groups := p.groups[r.g := p.groups[r.g].(cursor := r.hi)]) else p
  }

  /** The group whose slice holds `lo`. */
  function GroupOf(groups: seq<Group>, lo: int, k: nat): (i: int)
    requires k <= |groups|
    ensures k <= i <= |groups|
    ensures i < |groups| ==> groups[i].lo <= lo < groups[i].hi
    ensures forall j | k <= j < i :: !(groups[j].lo <= lo < groups[j].hi)
    decreases |groups| - k
  {
    if k == |groups| then k
    else if groups[k].lo <= lo < groups[k].hi then k
    else GroupOf(groups, lo, k + 1)
  }

  function Retired(g: Group, phases: int, chunk: int): Group
    requires chunk > 0
  {
    if g.live != 1 then g.(live := g.live - 1)
    else if g.phase + 1 >= phases then g.(live := 0, phase := g.phase + 1)
    else Group(g.lo, g.hi, g.phase + 1, g.lo, ChunksOf(g.hi - g.lo, chunk))
  }

  function Retire(p: Plan, gi: int): Plan
    requires 0 <= gi < |p.groups| && p.chunk > 0
  {
    var g := p.groups[gi];
    p.(groups := p.groups[gi := Retired(g, p.phases, p.chunk)],
       done := if g.live == 1 && g.phase + 1 >= p.phases then p.done + 1 else p.done)
  }

  function FreshGroup(lo: int, hi: int, chunk: int): Group
    requires chunk > 0
  {
    Group(lo, hi, 0, lo, ChunksOf(hi - lo, chunk))
  }

  /** The slices tile [0, n), none empty. */
  ghost predicate Tiles(groups: seq<Group>, n: int) {
    && |groups| > 0 && groups[0].lo == 0 && groups[|groups| - 1].hi == n
    && (forall i | 0 <= i < |groups| :: groups[i].lo < groups[i].hi)
    && (forall i | 0 <= i < |groups| - 1 :: groups[i].hi == groups[i + 1].lo)
  }

  ghost predicate Fresh(p: Plan, n: int) {
    && 0 < n < TWO31 && 0 < p.chunk < TWO31 && p.phases > 0 && p.done == 0 && Tiles(p.groups, n)
    && (forall i | 0 <= i < |p.groups| :: p.groups[i] == FreshGroup(p.groups[i].lo, p.groups[i].hi, p.chunk))
    && (forall i, j | 0 <= i < j < |p.groups| ::
          0 <= (p.groups[i].hi - p.groups[i].lo) - (p.groups[j].hi - p.groups[j].lo) <= 1)
  }

  /** Where slice `g` starts: the first `rem` slices are one longer. */
  function Slice(base: int, rem: int, g: int): int {
    base * g + Min(g, rem)
  }

  lemma DivPositive(n: int, m: int)
    requires 0 < m <= n
    ensures n / m >= 1 && 0 <= n % m < m && n == m * (n / m) + n % m
  {
  }

  lemma SliceNext(base: int, rem: int, g: int)
    ensures Slice(base, rem, g + 1) == Slice(base, rem, g) + base + if g < rem then 1 else 0
  {
    assert base * (g + 1) == base * g + base;
  }

  lemma SlicesCover(n: int, m: int)
    requires 0 < m <= n
    ensures Slice(n / m, n % m, 0) == 0 && Slice(n / m, n % m, m) == n && n / m >= 1
  {
    DivPositive(n, m);
    assert n / m * m == m * (n / m);
  }

  lemma SlicedIsFresh(p: Plan, n: int, base: int, rem: int)
    requires base >= 1 && 0 < n < TWO31 && 0 < p.chunk < TWO31 && p.phases > 0 && p.done == 0 && |p.groups| > 0
    requires Slice(base, rem, 0) == 0 && Slice(base, rem, |p.groups|) == n
    requires forall i | 0 <= i < |p.groups| ::
      p.groups[i] == FreshGroup(Slice(base, rem, i), Slice(base, rem, i + 1), p.chunk)
    ensures Fresh(p, n)
  {
    hide Slice, ChunksOf;
    forall i | 0 <= i < |p.groups|
      ensures p.groups[i].hi - p.groups[i].lo == base + if i < rem then 1 else 0
      ensures p.groups[i].lo == Slice(base, rem, i) && p.groups[i].hi == Slice(base, rem, i + 1)
      ensures p.groups[i] == FreshGroup(p.groups[i].lo, p.groups[i].hi, p.chunk)
    {
      SliceNext(base, rem, i);
    }
    var last := |p.groups| - 1;
    assert p.groups[last].hi == Slice(base, rem, last + 1);
    forall i | 0 <= i < |p.groups| - 1 ensures p.groups[i].hi == p.groups[i + 1].lo {
      assert p.groups[i].hi == Slice(base, rem, i + 1);
    }
  }

  /** The chunk when none is asked for: the least with which eight for each group are more than the range. */
  ghost predicate EightEach(n: int, m: int, chunk: int) {
    (chunk - 1) * (m * 8) <= n < chunk * (m * 8)
  }

  lemma DefaultChunk(n: int, m: int)
    requires 0 < n < TWO31 && m > 0
    ensures 0 < n / (m * 8) + 1 < TWO31 && EightEach(n, m, n / (m * 8) + 1)
  {
    Quotient(n, m * 8);
    Around(n, m * 8);
  }

  lemma Around(n: int, d: int)
    requires n >= 0 && d > 0
    ensures n / d * d <= n < (n / d + 1) * d
  {
    var q := n / d;
    assert n == d * q + n % d;
    assert (q + 1) * d == d * q + d;
  }

  lemma Quotient(n: int, d: int)
    requires n >= 0 && d >= 8
    ensures 0 <= 8 * (n / d) <= n
  {
    var q := n / d;
    assert n == d * q + n % d;
    assert d * q == 8 * q + (d - 8) * q;
  }

  // ----- the code, on the arrays it uses ---------------------------------------------------

  class Scheduler {
    var chunk: int
    var phases: int
    var done: int
    var ngroups: nat
    const groups: array<Group>

    ghost predicate Valid()
      reads this, groups
    {
      chunk > 0 && ngroups <= groups.Length
    }

    function Now(): Plan
      reads this, groups
      requires Valid()
    {
      Plan(chunk, phases, done, groups[..ngroups])
    }

    constructor ()
      ensures Valid() && fresh(groups) && groups.Length == GROUP_MAX
    {
      chunk, phases, done, ngroups := 1, 0, 0, 0;
      groups := new Group[GROUP_MAX](_ => Group(0, 0, 0, 0, 0));
    }

    method GrabChunk(home: nat) returns (r: Grabbed)
      requires Valid()
      modifies groups
      ensures Valid() && r == Grab(old(Now()), home) && Now() == AfterGrab(old(Now()), r)
      ensures r.Chunk? ==> 0 <= r.g < ngroups
    {
      if done == ngroups { return Finished; }
      var k := 0;
      while k < ngroups
        invariant 0 <= k <= ngroups
        invariant groups[..] == old(groups[..])
        invariant FirstRunnable(Now().groups, phases, home, 0) == FirstRunnable(Now().groups, phases, home, k)
      {
        var i := (home + k) % ngroups;
        var g := groups[i];
        assert g == Now().groups[i];
        if g.phase < phases && g.cursor < g.hi {
          var hi := Int32(g.cursor + chunk);
          if hi > g.hi { hi := g.hi; }
          groups[i] := g.(cursor := hi);
          assert groups[..ngroups] == old(groups[..ngroups])[i := g.(cursor := hi)];
          return Chunk(i, g.phase, g.cursor, hi);
        }
        k := k + 1;
      }
      return Nothing;
    }

    method RetireChunk(lo: int)
      requires Valid()
      modifies this`done, groups
      ensures Valid()
      ensures var gi := GroupOf(old(Now()).groups, lo, 0);
        Now() == if gi == old(ngroups) then old(Now()) else Retire(old(Now()), gi)
    {
      var gi := 0;
      while gi < ngroups
        invariant 0 <= gi <= ngroups
        invariant groups[..] == old(groups[..]) && done == old(done)
        invariant GroupOf(Now().groups, lo, 0) == GroupOf(Now().groups, lo, gi)
      {
        var g := groups[gi];
        assert g == Now().groups[gi];
        if lo >= g.lo && lo < g.hi {
          g := g.(live := g.live - 1);
          if g.live == 0 {
            g := g.(phase := g.phase + 1);
            if g.phase >= phases {
              done := done + 1;
            } else {
              g := g.(cursor := g.lo, live := ChunksOf(g.hi - g.lo, chunk));
            }
          }
          groups[gi] := g;
          assert groups[..ngroups] == old(groups[..ngroups])[gi := g];
          return;
        }
        gi := gi + 1;
      }
    }

    /** Splits [0, n) into groups whose sizes differ by at most one, each at the start of phase 0. */
    method Setup(n: int, chunk: int, groupCount: int, phases: int)
      requires Valid() && groups.Length == GROUP_MAX && 0 < n < TWO31 && chunk < TWO31 && phases > 0
      modifies this, groups
      ensures Valid() && this.phases == phases && (if chunk > 0 then this.chunk == chunk else EightEach(n, ngroups, this.chunk))
      ensures ngroups == Min(Min(if groupCount <= 0 then 1 else groupCount, GROUP_MAX), n)
      ensures Fresh(Now(), n)
    {
      hide Slice, ChunksOf, Fresh, Tiles, EightEach;
      var m := groupCount;
      if m <= 0 { m := 1; }
      if m > GROUP_MAX { m := GROUP_MAX; }
      if m > n { m := n; }
      var c := chunk;
      DefaultChunk(n, m);
      if c <= 0 { c := n / (m * 8) + 1; }
      this.chunk := c;
      ngroups := m;
      this.phases := phases;
      done := 0;
      var base, rem, at := n / m, n % m, 0;
      SlicesCover(n, m);
      var g := 0;
      while g < m
        invariant 0 <= g <= m && ngroups == m && this.chunk == c && this.phases == phases && done == 0
        invariant at == Slice(base, rem, g)
        invariant forall i | 0 <= i < g :: groups[i] == FreshGroup(Slice(base, rem, i), Slice(base, rem, i + 1), c)
      {
        var len := base + if g < rem then 1 else 0;
        SliceNext(base, rem, g);
        groups[g] := FreshGroup(at, at + len, c);
        at := at + len;
        g := g + 1;
      }
      SlicedIsFresh(Now(), n, base, rem);
    }
  }
}
