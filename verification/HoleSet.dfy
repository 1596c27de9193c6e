/** The free holes of blocks, kept in 64 lists by size: one list for each size up to 50 granules, and 14
    for larger sizes in equal steps up to 512.  Each mutator has a set of its own and shares another.  The
    links of a list, the links from list to list of a chain, and the size of a hole over 50 granules are
    words at the front of the holes themselves; all other words of a hole are zero. */
module HoleSet {
  import opened Basics

  const PACKED: nat := 50
  const SPARSE: nat := 13
  const LARGEST: nat := 512
  const BUCKETS: nat := 64

  /** The list a hole goes on: the share of the way from 50 to 512, rounded down. */
  function InsertBucket(granules: nat): (i: nat)
    ensures i < BUCKETS
  {
    if granules <= PACKED then (if granules == 0 then 0 else granules - 1)
    else PACKED + Min((granules - PACKED) * SPARSE / (LARGEST - PACKED), SPARSE)
  }

  /** The first list a request looks at: the share rounded up. */
  function LookupBucket(granules: nat): (i: nat)
    ensures i < BUCKETS
  {
    if granules <= PACKED then (if granules == 0 then 0 else granules - 1)
    else PACKED + Min(((granules - PACKED) * SPARSE + LARGEST - PACKED - 1) / (LARGEST - PACKED), SPARSE)
  }

  lemma InsertMonotone(g: nat, h: nat)
    requires 0 < g <= h
    ensures InsertBucket(g) <= InsertBucket(h)
  {
  }

  /** A hole from the list a request looks at, or a later one, is big enough. */
  lemma BigEnough(g: nat, h: nat)
    requires 0 < g <= LARGEST && h > 0 && InsertBucket(h) >= LookupBucket(g)
    ensures h >= g
  {
  }

  /** A failed request has missed nothing exactly when it asks for up to 50 granules or for 512: for every
      size between, a hole of just that size is on a list the request does not look at. */
  lemma MissesNothing(g: nat)
    requires 0 < g <= LARGEST
    ensures (forall h | h >= g :: InsertBucket(h) >= LookupBucket(g)) <==> g <= PACKED || g == LARGEST
  {
    if g <= PACKED || g == LARGEST {
      forall h | h >= g ensures InsertBucket(h) >= LookupBucket(g) { InsertMonotone(g, h); }
    } else {
      assert InsertBucket(g) < LookupBucket(g);
    }
  }

  /** A hole: its first granule, and how many it has. */
  datatype Hole = Hole(start: nat, granules: nat)

  /** The list holds exactly the holes of the map, each once. */
  ghost predicate Lists(b: seq<Hole>, holes: map<nat, nat>) {
    && (forall j | 0 <= j < |b| :: b[j].start in holes && b[j].granules == holes[b[j].start])
    && (forall j, k | 0 <= j < k < |b| :: b[j].start != b[k].start)
    && (forall a | a in holes :: exists j | 0 <= j < |b| :: b[j].start == a)
  }

  /** The holes of one list. */
  ghost function Part(holes: map<nat, nat>, i: int): map<nat, nat> {
    map a | a in holes && InsertBucket(holes[a]) == i :: holes[a]
  }

  ghost predicate Matches(bs: seq<seq<Hole>>, holes: map<nat, nat>) {
    && |bs| == BUCKETS
    && (forall a | a in holes :: holes[a] > 0)
    && forall i | 0 <= i < BUCKETS :: Lists(bs[i], Part(holes, i))
  }

  /** No two holes overlap. */
  ghost predicate Apart(holes: map<nat, nat>) {
    forall a, b | a in holes && b in holes && a < b :: a + holes[a] <= b
  }

  /** No hole of one set overlaps one of the other. */
  ghost predicate Separate(p: map<nat, nat>, q: map<nat, nat>) {
    forall a, b | a in p && b in q :: a + p[a] <= b || b + q[b] <= a
  }

  ghost predicate Covers(holes: map<nat, nat>, x: nat) {
    exists a :: a in holes && a <= x < a + holes[a]
  }

  /** No hole of the set lies in a range. */
  ghost predicate Clear(holes: map<nat, nat>, lo: nat, hi: nat) {
    forall a | a in holes :: a + holes[a] <= lo || hi <= a
  }

  // ----- the words of a hole ---------------------------------------------------------------

  /** The two words of a granule.  A granule is pointed to by its number, which is not zero. */
  datatype Granule = Granule(first: nat, second: nat)

  const ZERO: Granule := Granule(0, 0)

  function SizeWord(granules: nat): nat {
    if granules <= PACKED then 0 else granules
  }

  /** Granule `k` of a hole on a list: a link to the next hole of the list, a link to the next list of a
      chain, for larger holes the size, and nothing else. */
  function Header(k: nat, granules: nat, next: nat, chain: nat): Granule {
    if k == 0 then Granule(next, chain) else if k == 1 then Granule(SizeWord(granules), 0) else ZERO
  }

  ghost predicate Kept(mem: seq<Granule>, h: Hole, next: nat, chain: nat) {
    && 0 < h.start && 0 < h.granules && h.start + h.granules <= |mem|
    && forall x | h.start <= x < h.start + h.granules :: mem[x] == Header(x - h.start, h.granules, next, chain)
  }

  /** The pointer to hole `j` of a list; null past its end. */
  function Pointer(b: seq<Hole>, j: nat): nat {
    if j < |b| then b[j].start else 0
  }

  /** The holes of a list are linked in order, and the first leads to the next list of the chain. */
  ghost predicate Strung(mem: seq<Granule>, b: seq<Hole>, chain: nat) {
    forall j | 0 <= j < |b| :: Kept(mem, b[j], Pointer(b, j + 1), if j == 0 then chain else 0)
  }

  ghost predicate InMemory(mem: seq<Granule>, heads: seq<nat>, lists: seq<seq<Hole>>) {
    && |heads| == |lists| == BUCKETS
    && forall i | 0 <= i < BUCKETS :: heads[i] == Pointer(lists[i], 0) && Strung(mem, lists[i], 0)
  }

  ghost predicate ZeroIn(mem: seq<Granule>, lo: nat, hi: nat) {
    lo <= hi <= |mem| && forall x | lo <= x < hi :: mem[x] == ZERO
  }

  /** Nothing but a range has been written. */
  ghost predicate SameBeyond(was: seq<Granule>, now: seq<Granule>, lo: nat, hi: nat) {
    |now| == |was| && forall x | 0 <= x < |was| && !(lo <= x < hi) :: now[x] == was[x]
  }

  /** Nothing but holes of the set has been written. */
  ghost predicate SameOutside(was: seq<Granule>, now: seq<Granule>, holes: map<nat, nat>) {
    |now| == |was| && forall x | 0 <= x < |was| && !Covers(holes, x) :: now[x] == was[x]
  }

  lemma KeptFar(was: seq<Granule>, now: seq<Granule>, h: Hole, next: nat, chain: nat, lo: nat, hi: nat)
    requires Kept(was, h, next, chain) && SameBeyond(was, now, lo, hi)
    requires h.start + h.granules <= lo || hi <= h.start
    ensures Kept(now, h, next, chain)
  {
  }

  ghost predicate FarFrom(b: seq<Hole>, lo: nat, hi: nat) {
    forall j | 0 <= j < |b| :: b[j].start + b[j].granules <= lo || hi <= b[j].start
  }

  lemma StrungFar(was: seq<Granule>, now: seq<Granule>, b: seq<Hole>, chain: nat, lo: nat, hi: nat)
    requires Strung(was, b, chain) && SameBeyond(was, now, lo, hi) && FarFrom(b, lo, hi)
    ensures Strung(now, b, chain)
  {
    hide Kept, SameBeyond;
    forall j | 0 <= j < |b| ensures Kept(now, b[j], Pointer(b, j + 1), if j == 0 then chain else 0) {
      KeptFar(was, now, b[j], Pointer(b, j + 1), if j == 0 then chain else 0, lo, hi);
    }
  }

  lemma ListFar(b: seq<Hole>, holes: map<nat, nat>, i: int, lo: nat, hi: nat)
    requires Lists(b, Part(holes, i)) && Clear(holes, lo, hi)
    ensures FarFrom(b, lo, hi)
  {
    forall j | 0 <= j < |b| ensures b[j].start + b[j].granules <= lo || hi <= b[j].start {
      assert b[j].start in Part(holes, i);
    }
  }

  /** What is written outside the holes of a set leaves its lists alone. */
  lemma InMemoryFar(was: seq<Granule>, now: seq<Granule>, heads: seq<nat>, lists: seq<seq<Hole>>, holes: map<nat, nat>,
    lo: nat, hi: nat)
    requires Matches(lists, holes) && InMemory(was, heads, lists) && Clear(holes, lo, hi) && SameBeyond(was, now, lo, hi)
    ensures InMemory(now, heads, lists)
  {
    hide Lists, Part, Strung, SameBeyond, Clear;
    forall i | 0 <= i < BUCKETS ensures Strung(now, lists[i], 0) {
      ListFar(lists[i], holes, i, lo, hi);
      StrungFar(was, now, lists[i], 0, lo, hi);
    }
  }

  /** A list without its first hole. */
  lemma StrungTail(mem: seq<Granule>, b: seq<Hole>, chain: nat)
    requires Strung(mem, b, chain) && b != []
    ensures Strung(mem, b[1..], 0) && Pointer(b[1..], 0) == Pointer(b, 1) && Kept(mem, b[0], Pointer(b, 1), chain)
  {
    hide Kept;
    forall j | 0 <= j < |b| - 1 ensures Kept(mem, b[1..][j], Pointer(b[1..], j + 1), 0) {
      assert b[1..][j] == b[j + 1] && Pointer(b[1..], j + 1) == Pointer(b, j + 2);
    }
  }

  /** A list with one more hole before it. */
  lemma StrungPush(mem: seq<Granule>, b: seq<Hole>, h: Hole, chain: nat)
    requires Strung(mem, b, 0) && Kept(mem, h, Pointer(b, 0), chain)
    ensures Strung(mem, [h] + b, chain)
  {
    hide Kept;
    var r := [h] + b;
    forall j | 0 <= j < |r| ensures Kept(mem, r[j], Pointer(r, j + 1), if j == 0 then chain else 0) {
      assert Pointer(r, j + 1) == Pointer(b, j);
      if j > 0 { assert r[j] == b[j - 1] && Pointer(r, j + 1) == Pointer(b, j); }
    }
  }

  lemma InMemoryPop(mem: seq<Granule>, heads: seq<nat>, lists: seq<seq<Hole>>, i: nat)
    requires InMemory(mem, heads, lists) && i < BUCKETS && lists[i] != []
    ensures heads[i] == lists[i][0].start && Kept(mem, lists[i][0], Pointer(lists[i], 1), 0)
    ensures InMemory(mem, heads[i := Pointer(lists[i], 1)], lists[i := lists[i][1..]])
  {
    hide Strung, Kept;
    StrungTail(mem, lists[i], 0);
  }

  lemma InMemoryPush(mem: seq<Granule>, heads: seq<nat>, lists: seq<seq<Hole>>, i: nat, h: Hole)
    requires InMemory(mem, heads, lists) && i < BUCKETS && Kept(mem, h, heads[i], 0)
    ensures InMemory(mem, heads[i := h.start], lists[i := [h] + lists[i]])
  {
    hide Strung, Kept;
    StrungPush(mem, lists[i], h, 0);
  }

  lemma HeadNull(mem: seq<Granule>, heads: seq<nat>, lists: seq<seq<Hole>>, i: nat)
    requires InMemory(mem, heads, lists) && i < BUCKETS
    ensures heads[i] == 0 <==> lists[i] == []
  {
    if lists[i] != [] { assert Kept(mem, lists[i][0], Pointer(lists[i], 1), 0); }
  }

  /** The words a push writes. */
  lemma PushWrites(was: seq<Granule>, now: seq<Granule>, h: Hole, next: nat)
    requires h.start > 0 && h.granules > 0 && ZeroIn(was, h.start, h.start + h.granules)
    requires now == (if h.granules > PACKED then was[h.start + 1 := Granule(h.granules, 0)] else was)[h.start := Granule(next, 0)]
    ensures Kept(now, h, next, 0) && SameBeyond(was, now, h.start, h.start + h.granules)
  {
  }

  /** The words a pop clears. */
  lemma PopClears(was: seq<Granule>, now: seq<Granule>, h: Hole, next: nat)
    requires Kept(was, h, next, 0)
    requires now == (if h.granules > PACKED then was[h.start := ZERO][h.start + 1 := ZERO] else was[h.start := ZERO])
    ensures ZeroIn(now, h.start, h.start + h.granules) && SameBeyond(was, now, h.start, h.start + h.granules)
  {
  }

  /** How the size of a hole is read back: from its list, or from its second granule. */
  lemma SizeRead(mem: seq<Granule>, h: Hole, next: nat, i: nat)
    requires Kept(mem, h, next, 0) && InsertBucket(h.granules) == i
    ensures i < PACKED <==> h.granules <= PACKED
    ensures h.granules == if i < PACKED then i + 1 else mem[h.start + 1].first
    ensures mem[h.start] == Granule(next, 0) && (h.granules > PACKED ==> mem[h.start + 1] == Granule(h.granules, 0))
  {
  }

  /** What a set's holes hold: links to holes of the same list, the sizes of the larger ones, and zeros. */
  ghost predicate HeadersOnly(mem: seq<Granule>, holes: map<nat, nat>) {
    forall a | a in holes :: HeaderOnly(mem, holes, a)
  }

  ghost predicate HeaderOnly(mem: seq<Granule>, holes: map<nat, nat>, a: nat)
    requires a in holes
  {
    && 0 < holes[a] && a + holes[a] <= |mem| && mem[a].second == 0
    && (mem[a].first != 0 ==> mem[a].first in holes && InsertBucket(holes[mem[a].first]) == InsertBucket(holes[a]))
    && forall x | a < x < a + holes[a] :: mem[x] == if x == a + 1 then Granule(SizeWord(holes[a]), 0) else ZERO
  }

  /** Where a hole stands on its list. */
  lemma FindOnList(lists: seq<seq<Hole>>, holes: map<nat, nat>, a: nat) returns (i: nat, j: nat)
    requires Matches(lists, holes) && a in holes
    ensures i == InsertBucket(holes[a]) < BUCKETS && j < |lists[i]| && lists[i][j] == Hole(a, holes[a])
  {
    i := InsertBucket(holes[a]);
    assert Lists(lists[i], Part(holes, i)) && a in Part(holes, i);
    j :| 0 <= j < |lists[i]| && lists[i][j].start == a;
  }

  lemma OnItsList(lists: seq<seq<Hole>>, holes: map<nat, nat>, i: nat, j: nat)
    requires Matches(lists, holes) && i < BUCKETS && j < |lists[i]|
    ensures var h := lists[i][j]; h.start in holes && holes[h.start] == h.granules && InsertBucket(h.granules) == i
  {
    assert Lists(lists[i], Part(holes, i));
    assert lists[i][j].start in Part(holes, i);
  }

  lemma ValidHeaders(mem: seq<Granule>, heads: seq<nat>, lists: seq<seq<Hole>>, holes: map<nat, nat>)
    requires Matches(lists, holes) && InMemory(mem, heads, lists)
    ensures HeadersOnly(mem, holes)
  {
    hide Matches, InMemory, HeaderOnly;
    forall a | a in holes ensures HeaderOnly(mem, holes, a) {
      HeaderThere(mem, heads, lists, holes, a);
    }
  }

  lemma HeaderThere(mem: seq<Granule>, heads: seq<nat>, lists: seq<seq<Hole>>, holes: map<nat, nat>, a: nat)
    requires Matches(lists, holes) && InMemory(mem, heads, lists) && a in holes
    ensures HeaderOnly(mem, holes, a)
  {
    hide Matches, InsertBucket, InMemory;
    MatchesSize(lists, holes);
    var i, j := FindOnList(lists, holes, a);
    KeptThere(mem, heads, lists, i, j);
    if j + 1 < |lists[i]| { OnItsList(lists, holes, i, j + 1); }
  }

  lemma KeptThere(mem: seq<Granule>, heads: seq<nat>, lists: seq<seq<Hole>>, i: nat, j: nat)
    requires InMemory(mem, heads, lists) && i < BUCKETS && j < |lists[i]|
    ensures Kept(mem, lists[i][j], Pointer(lists[i], j + 1), 0)
  {
    hide Kept;
    assert Strung(mem, lists[i], 0);
  }

  /** No hole over 50 granules, and no two of the same size. */
  ghost predicate SmallAndSingle(holes: map<nat, nat>) {
    && (forall a | a in holes :: holes[a] <= PACKED)
    && (forall a, b | a in holes && b in holes && a != b :: holes[a] != holes[b])
  }

  /** All memory of a set of holes is zero exactly when none is over 50 granules and no two are of the same
      size: a larger hole holds its size, and of two on a list one is linked to the other. */
  lemma AllZero(mem: seq<Granule>, heads: seq<nat>, lists: seq<seq<Hole>>, holes: map<nat, nat>)
    requires Matches(lists, holes) && InMemory(mem, heads, lists)
    ensures (forall x: nat | Covers(holes, x) :: x < |mem| && mem[x] == ZERO) <==> SmallAndSingle(holes)
  {
    if SmallAndSingle(holes) {
      forall x: nat | Covers(holes, x) ensures x < |mem| && mem[x] == ZERO {
        var a :| a in holes && a <= x < a + holes[a];
        LoneHole(mem, heads, lists, holes, a);
      }
    } else {
      hide Matches, InMemory, Covers;
      if a :| a in holes && holes[a] > PACKED {
        SizeNotZero(mem, heads, lists, holes, a);
      } else {
        var a, b :| a in holes && b in holes && a != b && holes[a] == holes[b];
        var x := LinkNotZero(mem, heads, lists, holes, a, b);
      }
    }
  }

  lemma SizeNotZero(mem: seq<Granule>, heads: seq<nat>, lists: seq<seq<Hole>>, holes: map<nat, nat>, a: nat)
    requires Matches(lists, holes) && InMemory(mem, heads, lists) && a in holes && holes[a] > PACKED
    ensures Covers(holes, a + 1) && a + 1 < |mem| && mem[a + 1] != ZERO
  {
    hide Matches, InsertBucket, InMemory;
    MatchesSize(lists, holes);
    var i, j := FindOnList(lists, holes, a);
    KeptThere(mem, heads, lists, i, j);
  }

  lemma LinkNotZero(mem: seq<Granule>, heads: seq<nat>, lists: seq<seq<Hole>>, holes: map<nat, nat>, a: nat, b: nat)
    returns (x: nat)
    requires Matches(lists, holes) && InMemory(mem, heads, lists)
    requires a in holes && b in holes && a != b && holes[a] == holes[b]
    ensures Covers(holes, x) && x < |mem| && mem[x] != ZERO
  {
    hide Matches, InsertBucket, InMemory;
    MatchesSize(lists, holes);
    var i, j := FindOnList(lists, holes, a);
    var i2, k := FindOnList(lists, holes, b);
    var first := Min(j, k);
    KeptThere(mem, heads, lists, i, first);
    KeptThere(mem, heads, lists, i, first + 1);
    OnItsList(lists, holes, i, first);
    x := lists[i][first].start;
  }

  lemma LoneHole(mem: seq<Granule>, heads: seq<nat>, lists: seq<seq<Hole>>, holes: map<nat, nat>, a: nat)
    requires Matches(lists, holes) && InMemory(mem, heads, lists) && a in holes && holes[a] <= PACKED
    requires forall b | b in holes && a != b :: holes[a] != holes[b]
    ensures ZeroIn(mem, a, a + holes[a])
  {
    var i, j := FindOnList(lists, holes, a);
    KeptThere(mem, heads, lists, i, j);
    assert Lists(lists[i], Part(holes, i));
    if j + 1 < |lists[i]| { OnItsList(lists, holes, i, j + 1); }
  }

  // ----- the lists -------------------------------------------------------------------------

  lemma ListPush(b: seq<Hole>, holes: map<nat, nat>, start: nat, granules: nat)
    requires Lists(b, holes) && start !in holes
    ensures Lists([Hole(start, granules)] + b, holes[start := granules])
  {
    var r, now := [Hole(start, granules)] + b, holes[start := granules];
    forall a | a in now ensures exists j | 0 <= j < |r| :: r[j].start == a {
      if a == start {
        assert r[0].start == a;
      } else {
        var j :| 0 <= j < |b| && b[j].start == a;
        assert r[j + 1].start == a;
      }
    }
  }

  lemma ListPop(b: seq<Hole>, holes: map<nat, nat>)
    requires Lists(b, holes) && b != []
    ensures Lists(b[1..], holes - {b[0].start})
  {
    var r := b[1..];
    forall a | a in holes - {b[0].start} ensures exists j | 0 <= j < |r| :: r[j].start == a {
      var j :| 0 <= j < |b| && b[j].start == a;
      assert r[j - 1].start == a;
    }
  }

  lemma ListJoin(b: seq<Hole>, p: map<nat, nat>, c: seq<Hole>, q: map<nat, nat>)
    requires Lists(b, p) && Lists(c, q) && p.Keys !! q.Keys
    ensures Lists(b + c, p + q)
  {
    forall a | a in p + q ensures exists j | 0 <= j < |b + c| :: (b + c)[j].start == a {
      if a in q {
        var j :| 0 <= j < |c| && c[j].start == a;
        assert (b + c)[|b| + j].start == a;
      } else {
        var j :| 0 <= j < |b| && b[j].start == a;
        assert (b + c)[j].start == a;
      }
    }
  }

  lemma ListEmpty(b: seq<Hole>, holes: map<nat, nat>)
    requires Lists(b, holes)
    ensures b == [] <==> holes == map[]
  {
    if holes != map[] {
      var a :| a in holes;
      var j :| 0 <= j < |b| && b[j].start == a;
    }
    assert b != [] ==> b[0].start in holes;
  }

  lemma PartPush(holes: map<nat, nat>, start: nat, granules: nat, i: int)
    requires start !in holes
    ensures Part(holes[start := granules], i) ==
      if i == InsertBucket(granules) then Part(holes, i)[start := granules] else Part(holes, i)
  {
  }

  lemma PartPop(holes: map<nat, nat>, start: nat, i: int)
    requires start in holes
    ensures Part(holes - {start}, i) ==
      if i == InsertBucket(holes[start]) then Part(holes, i) - {start} else Part(holes, i)
  {
  }

  lemma PartJoin(p: map<nat, nat>, q: map<nat, nat>, i: int)
    requires p.Keys !! q.Keys
    ensures Part(p + q, i) == Part(p, i) + Part(q, i)
  {
  }

  lemma PartRest(holes: map<nat, nat>, i: int, j: int)
    ensures Part(holes - Part(holes, i).Keys, j) == if i == j then map[] else Part(holes, j)
    ensures (holes - Part(holes, i).Keys) + Part(holes, i) == holes
  {
  }

  lemma MatchesPush(bs: seq<seq<Hole>>, holes: map<nat, nat>, start: nat, granules: nat)
    requires Matches(bs, holes) && start !in holes && granules > 0
    ensures var i := InsertBucket(granules);
      Matches(bs[i := [Hole(start, granules)] + bs[i]], holes[start := granules])
  {
    hide InsertBucket, Part, Lists;
    var i := InsertBucket(granules);
    var now, after := bs[i := [Hole(start, granules)] + bs[i]], holes[start := granules];
    forall j | 0 <= j < BUCKETS ensures Lists(now[j], Part(after, j)) {
      PartPush(holes, start, granules, j);
      if j == i {
        NotInPart(holes, start, i);
        ListPush(bs[i], Part(holes, i), start, granules);
      }
    }
  }

  lemma NotInPart(holes: map<nat, nat>, start: nat, i: int)
    requires start !in holes
    ensures start !in Part(holes, i)
  {
  }

  lemma MatchesHead(bs: seq<seq<Hole>>, holes: map<nat, nat>, i: nat)
    requires Matches(bs, holes) && i < BUCKETS && bs[i] != []
    ensures var h := bs[i][0]; h.start in holes && InsertBucket(holes[h.start]) == i && h.granules == holes[h.start]
  {
    assert Lists(bs[i], Part(holes, i));
    assert bs[i][0].start in Part(holes, i);
  }

  lemma MatchesPop(bs: seq<seq<Hole>>, holes: map<nat, nat>, i: nat)
    requires Matches(bs, holes) && i < BUCKETS && bs[i] != []
    ensures Matches(bs[i := bs[i][1..]], holes - {bs[i][0].start})
  {
    MatchesHead(bs, holes, i);
    hide InsertBucket, Part, Lists;
    var start := bs[i][0].start;
    forall j | 0 <= j < BUCKETS ensures Lists(bs[i := bs[i][1..]][j], Part(holes - {start}, j)) {
      PartPop(holes, start, j);
      if j == i { ListPop(bs[i], Part(holes, i)); }
    }
  }

  /** One list taken out whole. */
  lemma MatchesTake(bs: seq<seq<Hole>>, holes: map<nat, nat>, i: nat)
    requires Matches(bs, holes) && i < BUCKETS
    ensures Matches(bs[i := []], holes - Part(holes, i).Keys)
    ensures Lists(bs[i], Part(holes, i)) && forall a | a in Part(holes, i) :: a in holes && Part(holes, i)[a] == holes[a]
  {
    forall j | 0 <= j < BUCKETS ensures Lists(bs[i := []][j], Part(holes - Part(holes, i).Keys, j)) {
      PartRest(holes, i, j);
    }
  }

  /** A list put before another. */
  lemma MatchesPut(bs: seq<seq<Hole>>, holes: map<nat, nat>, i: nat, b: seq<Hole>, p: map<nat, nat>)
    requires Matches(bs, holes) && i < BUCKETS && Lists(b, p) && p.Keys !! holes.Keys
    requires forall a | a in p :: p[a] > 0 && InsertBucket(p[a]) == i
    ensures Matches(bs[i := b + bs[i]], holes + p)
  {
    hide Lists, InsertBucket, Part;
    forall j | 0 <= j < BUCKETS ensures Lists(bs[i := b + bs[i]][j], Part(holes + p, j)) {
      PartJoin(holes, p, j);
      PartWhole(p, i, j);
      if j == i {
        PartKeys(holes, i);
        ListJoin(b, p, bs[i], Part(holes, i));
        JoinCommutes(p, Part(holes, i));
      } else {
        JoinNone(Part(holes, j));
      }
    }
  }

  lemma PartWhole(p: map<nat, nat>, i: int, j: int)
    requires forall a | a in p :: InsertBucket(p[a]) == i
    ensures Part(p, j) == if i == j then p else map[]
  {
  }

  lemma PartKeys(holes: map<nat, nat>, i: int)
    ensures Part(holes, i).Keys <= holes.Keys
  {
  }

  lemma JoinCommutes(p: map<nat, nat>, q: map<nat, nat>)
    requires p.Keys !! q.Keys
    ensures p + q == q + p
  {
  }

  lemma JoinNone(p: map<nat, nat>)
    ensures p + map[] == p
  {
  }

  // ----- taking a hole ---------------------------------------------------------------------

  /** The holes left when `granules` granules are taken from the front of one: its tail stays a hole. */
  ghost function AfterPop(holes: map<nat, nat>, start: nat, granules: nat): map<nat, nat>
    requires start in holes && holes[start] >= granules
  {
    if holes[start] == granules then holes - {start}
    else (holes - {start})[start + granules := holes[start] - granules]
  }

  /** Taking granules from a hole gives just those granules up. */
  lemma AfterPopCovers(holes: map<nat, nat>, start: nat, granules: nat, x: nat)
    requires Apart(holes) && start in holes && holes[start] >= granules > 0
    ensures Covers(holes, x) <==> Covers(AfterPop(holes, start, granules), x) || start <= x < start + granules
    ensures !(Covers(AfterPop(holes, start, granules), x) && start <= x < start + granules)
  {
    var now := AfterPop(holes, start, granules);
    if Covers(holes, x) {
      var a :| a in holes && a <= x < a + holes[a];
      var b := if a == start then start + granules else a;
      if a != start || x >= start + granules { assert b in now && b <= x < b + now[b]; }
    }
    if Covers(now, x) {
      var b :| b in now && b <= x < b + now[b];
      var a := if b == start + granules && b !in holes - {start} then start else if b == start + granules && holes[start] > granules then start else b;
      assert a in holes && a <= x < a + holes[a];
    }
  }

  lemma AfterPopApart(holes: map<nat, nat>, start: nat, granules: nat)
    requires Apart(holes) && start in holes && holes[start] >= granules > 0 && forall a | a in holes :: holes[a] > 0
    ensures Apart(AfterPop(holes, start, granules))
    ensures start + granules !in holes || holes[start] == granules
    ensures holes[start] > granules ==> Separate(map[start + granules := holes[start] - granules], holes - {start})
    ensures Apart(holes - {start})
  {
  }

  /** The first bit set at or after `i`. */
  function FirstBit(bits: seq<bool>, i: nat): (r: nat)
    requires i <= |bits|
    ensures i <= r <= |bits| && (r < |bits| ==> bits[r]) && forall j | i <= j < r :: !bits[j]
    decreases |bits| - i
  {
    if i == |bits| || bits[i] then i else FirstBit(bits, i + 1)
  }

  ghost predicate BitsMatch<T>(bits: seq<bool>, bs: seq<seq<T>>) {
    && |bits| == |bs| == BUCKETS
    && forall i | 0 <= i < BUCKETS :: bits[i] <==> bs[i] != []
  }

  /** No hole is on a list that a request looks at. */
  ghost predicate NoneFits(holes: map<nat, nat>, granules: nat) {
    forall a | a in holes :: InsertBucket(holes[a]) < LookupBucket(granules)
  }

  /** So for up to 50 granules, and for 512, failure means that no hole is big enough. */
  lemma NoneBigEnough(holes: map<nat, nat>, granules: nat)
    requires NoneFits(holes, granules) && (0 < granules <= PACKED || granules == LARGEST)
    ensures forall a | a in holes :: holes[a] < granules
  {
    forall a | a in holes ensures holes[a] < granules {
      if holes[a] >= granules { InsertMonotone(granules, holes[a]); }
    }
  }

  /** A set whose one hole is of just the size asked for is said to have none exactly when that size is over
      50 granules and under 512. */
  lemma OneHoleMissed(start: nat, granules: nat)
    requires 0 < granules <= LARGEST
    ensures NoneFits(map[start := granules], granules) <==> PACKED < granules < LARGEST
  {
    assert start in map[start := granules];
  }

  lemma OneFits(holes: map<nat, nat>, granules: nat, a: nat)
    requires a in holes && InsertBucket(holes[a]) >= LookupBucket(granules)
    ensures !NoneFits(holes, granules)
  {
  }

  lemma NoneOnLists(bits: seq<bool>, bs: seq<seq<Hole>>, holes: map<nat, nat>, granules: nat)
    requires BitsMatch(bits, bs) && Matches(bs, holes)
    requires forall i | LookupBucket(granules) <= i < BUCKETS :: !bits[i]
    ensures NoneFits(holes, granules)
  {
    hide InsertBucket, LookupBucket;
    forall a | a in holes ensures InsertBucket(holes[a]) < LookupBucket(granules) {
      OnList(bs, holes, a);
    }
  }

  lemma OnList(bs: seq<seq<Hole>>, holes: map<nat, nat>, a: nat)
    requires Matches(bs, holes) && a in holes
    ensures bs[InsertBucket(holes[a])] != []
  {
    hide InsertBucket;
    var i := InsertBucket(holes[a]);
    assert Lists(bs[i], Part(holes, i)) && a in Part(holes, i);
  }

  /** The list a request takes from is the first that holds anything, so none it passed over fits better. */
  lemma FirstFits(bits: seq<bool>, bs: seq<seq<Hole>>, holes: map<nat, nat>, granules: nat, i: nat)
    requires BitsMatch(bits, bs) && Matches(bs, holes) && i < BUCKETS
    requires forall j | LookupBucket(granules) <= j < i :: !bits[j]
    ensures forall a | a in holes && InsertBucket(holes[a]) >= LookupBucket(granules) :: i <= InsertBucket(holes[a])
  {
    hide InsertBucket, LookupBucket;
    forall a | a in holes && InsertBucket(holes[a]) >= LookupBucket(granules) ensures i <= InsertBucket(holes[a]) {
      OnList(bs, holes, a);
    }
  }

  /** The holes of one mutator: the first of each list, the rest being found from there in memory. */
  class Local {
    const mem: array<Granule>
    const buckets: array<nat>
    var nonempty: seq<bool>
    ghost var lists: seq<seq<Hole>>
    ghost var holes: map<nat, nat>

    ghost predicate Valid()
      reads this, buckets, mem
    {
      && buckets.Length == BUCKETS && Matches(lists, holes) && Apart(holes) && BitsMatch(nonempty, lists)
      && InMemory(mem[..], buckets[..], lists)
    }

    constructor (mem: array<Granule>)
      ensures Valid() && fresh(buckets) && holes == map[] && this.mem == mem
    {
      this.mem := mem;
      nonempty := seq(BUCKETS, _ => false);
      buckets := new nat[BUCKETS](_ => 0);
      lists := seq(BUCKETS, _ => []);
      holes := map[];
    }

    /** A hole of zeros joins the set. */
    method Push(start: nat, granules: nat)
      requires Valid() && start > 0 && granules > 0 && Separate(map[start := granules], holes)
      requires ZeroIn(mem[..], start, start + granules)
      modifies this`nonempty, this`lists, this`holes, buckets, mem
      ensures Valid() && start !in old(holes) && holes == old(holes)[start := granules]
      ensures SameBeyond(old(mem[..]), mem[..], start, start + granules)
    {
      hide Matches, InsertBucket, InMemory, Separate, Apart, BitsMatch, Kept, Clear;
      ghost var was, heads, h := mem[..], buckets[..], Hole(start, granules);
      HeadsLength(was, heads, lists);
      MatchesSize(lists, holes);
      PushApart(holes, start, granules);
      MatchesPush(lists, holes, start, granules);
      var i := InsertBucket(granules);
      BitsPut(nonempty, lists, i, [h] + lists[i]);
      BitsLength(nonempty, lists);
      if granules > PACKED {
        mem[start + 1] := mem[start + 1].(first := granules);
      }
      mem[start] := mem[start].(first := buckets[i]);
      buckets[i] := start;
      PushWrites(was, mem[..], h, heads[i]);
      SeparateClear(holes, start, granules);
      InMemoryFar(was, mem[..], heads, lists, holes, start, start + granules);
      InMemoryPush(mem[..], heads, lists, i, h);
      nonempty := nonempty[i := true];
      lists := lists[i := [h] + lists[i]];
      holes := holes[start := granules];
    }

    /** Takes the head of the first list, from the one the request looks at on, that holds anything, and
        leaves it all zero. */
    method Pop(granules: nat) returns (h: Option<(nat, nat)>)
      requires Valid() && 0 < granules <= LARGEST
      modifies this`nonempty, this`lists, this`holes, buckets, mem
      ensures Valid()
      ensures h.None? ==> holes == old(holes) && mem[..] == old(mem[..])
      ensures h.None? <==> NoneFits(old(holes), granules)
      ensures h.Some? ==>
        && h.value.0 in old(holes) && old(holes)[h.value.0] == h.value.1 >= granules && h.value.0 > 0
        && holes == old(holes) - {h.value.0}
        && ZeroIn(mem[..], h.value.0, h.value.0 + h.value.1)
        && SameBeyond(old(mem[..]), mem[..], h.value.0, h.value.0 + h.value.1)
        && forall a | a in old(holes) && InsertBucket(old(holes)[a]) >= LookupBucket(granules) ::
          InsertBucket(h.value.1) <= InsertBucket(old(holes)[a])
    {
      hide Matches, InsertBucket, LookupBucket, NoneFits, InMemory, Apart, Kept;
      BitsLength(nonempty, lists);
      var i := FirstBit(nonempty, LookupBucket(granules));
      if i == BUCKETS {
        NoneOnLists(nonempty, lists, holes, granules);
        return None;
      }
      ghost var was, heads, head := mem[..], buckets[..], lists[i][0];
      FirstFits(nonempty, lists, holes, granules, i);
      MatchesSize(lists, holes);
      MatchesHead(lists, holes, i);
      MatchesPop(lists, holes, i);
      OneFits(holes, granules, head.start);
      BigEnough(granules, head.granules);
      InMemoryPop(was, heads, lists, i);
      HeadsLength(was, heads, lists);
      SizeRead(was, head, Pointer(lists[i], 1), i);
      KeptInside(was, head, Pointer(lists[i], 1));
      var ret := buckets[i];
      buckets[i] := mem[ret].first;
      mem[ret] := mem[ret].(first := 0);
      var size := i + 1;
      if i >= PACKED {
        size := mem[ret + 1].first;
        mem[ret + 1] := mem[ret + 1].(first := 0);
      }
      PopClears(was, mem[..], head, Pointer(lists[i], 1));
      OthersClear(holes, head.start);
      ghost var rest := lists[i := lists[i][1..]];
      InMemoryFar(was, mem[..], heads[i := Pointer(lists[i], 1)], rest, holes - {head.start}, ret, ret + size);
      lists, holes := rest, holes - {head.start};
      HeadNull(mem[..], buckets[..], lists, i);
      if buckets[i] == 0 { nonempty := nonempty[i := false]; }
      h := Some((ret, size));
    }

    /** Takes granules from the front of a hole and puts what is left of it back.  What is handed out is
        all zero. */
    method TryPop(granules: nat) returns (start: Option<nat>)
      requires Valid() && 0 < granules <= LARGEST
      modifies this`nonempty, this`lists, this`holes, buckets, mem
      ensures Valid()
      ensures start.None? ==> holes == old(holes) && mem[..] == old(mem[..])
      ensures start.None? <==> NoneFits(old(holes), granules)
      ensures start.Some? ==>
        && start.value in old(holes) && old(holes)[start.value] >= granules
        && holes == AfterPop(old(holes), start.value, granules)
        && ZeroIn(mem[..], start.value, start.value + granules)
        && SameBeyond(old(mem[..]), mem[..], start.value, start.value + old(holes)[start.value])
        && forall a | a in old(holes) && InsertBucket(old(holes)[a]) >= LookupBucket(granules) ::
          InsertBucket(old(holes)[start.value]) <= InsertBucket(old(holes)[a])
    {
      hide Matches, InsertBucket, LookupBucket, NoneFits, Apart, Separate, BitsMatch, InMemory;
      ghost var was := holes;
      MatchesSize(lists, holes);
      var h := Pop(granules);
      if h.None? { return None; }
      AfterPopApart(was, h.value.0, granules);
      var tail := h.value.1 - granules;
      if tail > 0 { Push(h.value.0 + granules, tail); }
      start := Some(h.value.0);
    }

    /** Puts a whole list in an empty place, and cuts it off from the chain it was on. */
    method PutList(idx: nat, head: nat, ghost list: seq<Hole>, ghost p: map<nat, nat>, ghost chain: nat)
      requires Valid() && idx < BUCKETS == |lists| && lists[idx] == [] && list != [] && Lists(list, p)
      requires p.Keys !! holes.Keys && Apart(holes + p) && forall a | a in p :: p[a] > 0 && InsertBucket(p[a]) == idx
      requires head == list[0].start && Strung(mem[..], list, chain)
      modifies this`nonempty, this`lists, this`holes, buckets, mem
      ensures Valid() && holes == old(holes) + p && head < mem.Length && SameBeyond(old(mem[..]), mem[..], head, head + 1)
    {
      hide Matches, Apart, BitsMatch, Lists, InsertBucket, InMemory, Strung, SameBeyond;
      ghost var was, heads := mem[..], buckets[..];
      HeadsLength(was, heads, lists);
      MatchesPut(lists, holes, idx, list, p);
      BitsPut(nonempty, lists, idx, list);
      BitsLength(nonempty, lists);
      assert list + lists[idx] == list;
      HeadClear(holes, list, p);
      ListFits(was, list, chain);
      buckets[idx] := head;
      nonempty := nonempty[idx := true];
      mem[head] := mem[head].(second := 0);
      Rechain(was, mem[..], list, p, chain, 0);
      InMemoryFar(was, mem[..], heads, lists, holes, head, head + 1);
      InMemoryPut(mem[..], heads, lists, idx, list);
      lists := lists[idx := list];
      holes := holes + p;
    }
  }

  lemma Positive(local: Local)
    requires local.Valid()
    ensures forall a | a in local.holes :: local.holes[a] > 0
  {
  }

  lemma HeadsLength(mem: seq<Granule>, heads: seq<nat>, lists: seq<seq<Hole>>)
    requires InMemory(mem, heads, lists)
    ensures |heads| == |lists| == BUCKETS
  {
  }

  lemma KeptInside(mem: seq<Granule>, h: Hole, next: nat)
    requires Kept(mem, h, next, 0)
    ensures 0 < h.start && 0 < h.granules && h.start + h.granules <= |mem|
  {
  }

  lemma SeparateClear(holes: map<nat, nat>, start: nat, granules: nat)
    requires Separate(map[start := granules], holes)
    ensures Clear(holes, start, start + granules)
  {
    assert start in map[start := granules];
  }

  lemma OthersClear(holes: map<nat, nat>, start: nat)
    requires Apart(holes) && start in holes
    ensures Clear(holes - {start}, start, start + holes[start]) && Apart(holes - {start})
  {
  }

  lemma ListFits(mem: seq<Granule>, b: seq<Hole>, chain: nat)
    requires Strung(mem, b, chain) && b != []
    ensures 0 < b[0].start < |mem| && mem[b[0].start] == Granule(Pointer(b, 1), chain)
  {
    assert Kept(mem, b[0], Pointer(b, 1), chain);
  }

  /** The head of a list of other holes. */
  lemma HeadClear(holes: map<nat, nat>, list: seq<Hole>, p: map<nat, nat>)
    requires Lists(list, p) && list != [] && p.Keys !! holes.Keys && Apart(holes + p) && forall a | a in p :: p[a] > 0
    ensures Clear(holes, list[0].start, list[0].start + 1) && Apart(p)
  {
    var h := list[0].start;
    forall a | a in holes ensures a + holes[a] <= h || h + 1 <= a {
      assert a in holes + p && h in holes + p;
    }
    forall a, b | a in p && b in p && a < b ensures a + p[a] <= b {
      assert a in holes + p && b in holes + p;
    }
  }

  /** A list whose first hole is given another link to the next list. */
  lemma Rechain(was: seq<Granule>, now: seq<Granule>, b: seq<Hole>, p: map<nat, nat>, chain: nat, chain2: nat)
    requires Strung(was, b, chain) && b != [] && Lists(b, p) && Apart(p) && forall a | a in p :: p[a] > 0
    requires b[0].start < |was| && now == was[b[0].start := Granule(was[b[0].start].first, chain2)]
    ensures Strung(now, b, chain2) && SameBeyond(was, now, b[0].start, b[0].start + 1)
  {
    StrungTail(was, b, chain);
    TailFar(b, p);
    StrungFar(was, now, b[1..], 0, b[0].start, b[0].start + 1);
    assert Kept(now, b[0], Pointer(b, 1), chain2);
    assert [b[0]] + b[1..] == b;
    hide Kept, Strung;
    StrungPush(now, b[1..], b[0], chain2);
  }

  lemma TailFar(b: seq<Hole>, p: map<nat, nat>)
    requires b != [] && Lists(b, p) && Apart(p) && forall a | a in p :: p[a] > 0
    ensures FarFrom(b[1..], b[0].start, b[0].start + 1)
  {
    forall j | 0 <= j < |b| - 1
      ensures b[1..][j].start + b[1..][j].granules <= b[0].start || b[0].start + 1 <= b[1..][j].start
    {
      assert b[1..][j] == b[j + 1] && b[j + 1].start in p && b[0].start in p;
    }
  }

  lemma InMemoryPut(mem: seq<Granule>, heads: seq<nat>, lists: seq<seq<Hole>>, i: nat, b: seq<Hole>)
    requires InMemory(mem, heads, lists) && i < BUCKETS && Strung(mem, b, 0)
    ensures InMemory(mem, heads[i := Pointer(b, 0)], lists[i := b])
  {
    hide Strung;
  }

  /** One hole of 51 granules is put in an empty set; asked for 51 granules the set gives nothing. */
  method HoleMissed(mem: array<Granule>) returns (local: Local, start: Option<nat>)
    requires ZeroIn(mem[..], 1, 52)
    modifies mem
    ensures fresh(local) && local.Valid() && start == None && local.holes == map[1 := 51]
  {
    local := new Local(mem);
    local.Push(1, 51);
    OneHoleMissed(1, 51);
    start := local.TryPop(51);
  }

  /** A hole of 51 granules is not all zero while it is in a set: it has its size in its second granule. */
  method HoleNotZero(mem: array<Granule>) returns (local: Local)
    requires ZeroIn(mem[..], 1, 52)
    modifies mem
    ensures fresh(local) && local.Valid() && local.holes == map[1 := 51]
    ensures mem[2] == Granule(51, 0) && !ZeroIn(mem[..], 1, 52)
  {
    local := new Local(mem);
    local.Push(1, 51);
    ValidHeaders(mem[..], local.buckets[..], local.lists, local.holes);
    assert HeaderOnly(mem[..], local.holes, 1);
    assert mem[..][2] == Granule(51, 0);
  }

  lemma MatchesSize(bs: seq<seq<Hole>>, holes: map<nat, nat>)
    requires Matches(bs, holes)
    ensures |bs| == BUCKETS && forall a | a in holes :: holes[a] > 0
  {
  }

  lemma PushApart(holes: map<nat, nat>, start: nat, granules: nat)
    requires Apart(holes) && granules > 0 && Separate(map[start := granules], holes) && forall a | a in holes :: holes[a] > 0
    ensures start !in holes && Apart(holes[start := granules])
  {
    assert start in map[start := granules];
  }

  // ----- the shared set --------------------------------------------------------------------

  function Flat(chain: seq<seq<Hole>>): seq<Hole> {
    if chain == [] then [] else chain[0] + Flat(chain[1..])
  }

  function Flats(bs: seq<seq<seq<Hole>>>): seq<seq<Hole>> {
    seq(|bs|, i requires 0 <= i < |bs| => Flat(bs[i]))
  }

  ghost predicate NoEmptyList(bs: seq<seq<seq<Hole>>>) {
    forall i, j | 0 <= i < |bs| && 0 <= j < |bs[i]| :: bs[i][j] != []
  }

  lemma FlatsPut(bs: seq<seq<seq<Hole>>>, i: nat, b: seq<Hole>)
    requires i < |bs|
    ensures Flats(bs[i := [b] + bs[i]]) == Flats(bs)[i := b + Flats(bs)[i]]
  {
    assert ([b] + bs[i])[1..] == bs[i];
  }

  /** The pointer to the first hole of list `k` of a chain; null past its end. */
  function ChainPointer(c: seq<seq<Hole>>, k: nat): nat {
    if k < |c| then Pointer(c[k], 0) else 0
  }

  /** The lists of a chain are linked in order by their first holes. */
  ghost predicate Chained(mem: seq<Granule>, c: seq<seq<Hole>>) {
    forall k | 0 <= k < |c| :: Strung(mem, c[k], ChainPointer(c, k + 1))
  }

  ghost predicate ChainsInMemory(mem: seq<Granule>, heads: seq<nat>, chains: seq<seq<seq<Hole>>>) {
    && |heads| == |chains| == BUCKETS
    && forall i | 0 <= i < BUCKETS :: heads[i] == ChainPointer(chains[i], 0) && Chained(mem, chains[i])
  }

  lemma {:induction false} FlatFar(c: seq<seq<Hole>>, lo: nat, hi: nat)
    requires FarFrom(Flat(c), lo, hi)
    ensures forall k | 0 <= k < |c| :: FarFrom(c[k], lo, hi)
  {
    if c != [] {
      var b, rest := c[0], Flat(c[1..]);
      assert Flat(c) == b + rest;
      assert forall j | 0 <= j < |b| :: Flat(c)[j] == b[j];
      assert forall j | 0 <= j < |rest| :: Flat(c)[|b| + j] == rest[j];
      FlatFar(c[1..], lo, hi);
      forall k | 0 <= k < |c| ensures FarFrom(c[k], lo, hi) {
        if k > 0 { assert c[k] == c[1..][k - 1]; }
      }
    }
  }

  lemma ChainedFar(was: seq<Granule>, now: seq<Granule>, c: seq<seq<Hole>>, lo: nat, hi: nat)
    requires Chained(was, c) && SameBeyond(was, now, lo, hi) && FarFrom(Flat(c), lo, hi)
    ensures Chained(now, c)
  {
    hide Strung, SameBeyond, FarFrom, Flat, ChainPointer;
    FlatFar(c, lo, hi);
    forall k | 0 <= k < |c| ensures Strung(now, c[k], ChainPointer(c, k + 1)) {
      StrungFar(was, now, c[k], ChainPointer(c, k + 1), lo, hi);
    }
  }

  /** What is written outside the holes of a shared set leaves its chains alone. */
  lemma ChainsFar(was: seq<Granule>, now: seq<Granule>, heads: seq<nat>, chains: seq<seq<seq<Hole>>>, holes: map<nat, nat>,
    lo: nat, hi: nat)
    requires |chains| == BUCKETS && Matches(Flats(chains), holes) && ChainsInMemory(was, heads, chains)
    requires Clear(holes, lo, hi) && SameBeyond(was, now, lo, hi)
    ensures ChainsInMemory(now, heads, chains)
  {
    hide Lists, Part, Chained, SameBeyond, Clear, Flat, ChainPointer, FarFrom;
    forall i | 0 <= i < BUCKETS ensures Chained(now, chains[i]) {
      assert Flats(chains)[i] == Flat(chains[i]);
      ListFar(Flats(chains)[i], holes, i, lo, hi);
      ChainedFar(was, now, chains[i], lo, hi);
    }
  }

  /** A chain without its first list. */
  lemma ChainsPop(mem: seq<Granule>, heads: seq<nat>, chains: seq<seq<seq<Hole>>>, i: nat)
    requires ChainsInMemory(mem, heads, chains) && i < BUCKETS && chains[i] != [] && chains[i][0] != []
    ensures heads[i] == chains[i][0][0].start && Strung(mem, chains[i][0], ChainPointer(chains[i], 1))
    ensures ChainsInMemory(mem, heads[i := ChainPointer(chains[i], 1)], chains[i := chains[i][1..]])
  {
    hide Strung;
    var c := chains[i];
    assert Chained(mem, c);
    forall k | 0 <= k < |c| - 1 ensures Strung(mem, c[1..][k], ChainPointer(c[1..], k + 1)) {
      assert c[1..][k] == c[k + 1] && ChainPointer(c[1..], k + 1) == ChainPointer(c, k + 2);
    }
  }

  /** A chain with one more list before it. */
  lemma ChainsPush(mem: seq<Granule>, heads: seq<nat>, chains: seq<seq<seq<Hole>>>, i: nat, b: seq<Hole>)
    requires ChainsInMemory(mem, heads, chains) && i < BUCKETS && Strung(mem, b, heads[i]) && b != []
    ensures ChainsInMemory(mem, heads[i := b[0].start], chains[i := [b] + chains[i]])
  {
    hide Strung;
    var c, r := chains[i], [b] + chains[i];
    assert Chained(mem, c);
    forall k | 0 <= k < |r| ensures Strung(mem, r[k], ChainPointer(r, k + 1)) {
      assert ChainPointer(r, k + 1) == ChainPointer(c, k);
      if k > 0 { assert r[k] == c[k - 1]; }
    }
  }

  lemma ChainsLength(mem: seq<Granule>, heads: seq<nat>, chains: seq<seq<seq<Hole>>>)
    requires ChainsInMemory(mem, heads, chains)
    ensures |heads| == |chains| == BUCKETS
  {
  }

  lemma ChainNull(mem: seq<Granule>, heads: seq<nat>, chains: seq<seq<seq<Hole>>>, i: nat)
    requires ChainsInMemory(mem, heads, chains) && NoEmptyList(chains) && i < BUCKETS
    ensures heads[i] == 0 <==> chains[i] == []
  {
    if chains[i] != [] {
      assert Chained(mem, chains[i]);
      ListFits(mem, chains[i][0], ChainPointer(chains[i], 1));
    }
  }

  /** The holes shared by the mutators: in each place a chain of whole lists. */
  class Shared {
    const mem: array<Granule>
    const buckets: array<nat>
    var nonempty: seq<bool>
    ghost var chains: seq<seq<seq<Hole>>>
    ghost var holes: map<nat, nat>

    ghost predicate Valid()
      reads this, buckets, mem
    {
      && buckets.Length == BUCKETS == |chains| && Matches(Flats(chains), holes) && Apart(holes)
      && NoEmptyList(chains) && BitsMatch(nonempty, chains)
      && ChainsInMemory(mem[..], buckets[..], chains)
    }

    constructor (mem: array<Granule>)
      ensures Valid() && fresh(buckets) && holes == map[] && this.mem == mem
    {
      this.mem := mem;
      nonempty := seq(BUCKETS, _ => false);
      buckets := new nat[BUCKETS](_ => 0);
      chains := seq(BUCKETS, _ => []);
      holes := map[];
    }

    /** Takes the first list of a place. */
    method TakeList(idx: nat) returns (head: nat, ghost list: seq<Hole>, ghost p: map<nat, nat>, ghost chain: nat)
      requires Valid() && idx < BUCKETS && idx < |nonempty| && nonempty[idx]
      modifies this`nonempty, this`chains, this`holes, buckets
      ensures Valid() && holes == old(holes) - p.Keys
      ensures Lists(list, p) && list != [] && p != map[] && SubMap(p, old(holes))
      ensures forall a | a in p :: p[a] > 0 && InsertBucket(p[a]) == idx
      ensures head == list[0].start && Strung(mem[..], list, chain)
    {
      hide Matches, Apart, NoEmptyList, Flats, BitsMatch, Part, Those, Lists, InsertBucket, SubMap, ChainsInMemory, Strung,
        ChainPointer;
      ghost var c, heads := chains, buckets[..];
      ChainsLength(mem[..], heads, c);
      BitsLength(nonempty, c);
      HeadList(nonempty, c, idx);
      TakeShared(c, holes, idx);
      list, p, chain := c[idx][0], Those(c[idx][0], Part(holes, idx)), ChainPointer(c[idx], 1);
      SubApart(holes, p);
      ChainShort(nonempty, c, idx);
      ChainsPop(mem[..], heads, c, idx);
      ListFits(mem[..], list, chain);
      head := buckets[idx];
      buckets[idx] := mem[head].second;
      chains := c[idx := c[idx][1..]];
      ChainNull(mem[..], buckets[..], chains, idx);
      if buckets[idx] == 0 { nonempty := nonempty[idx := false]; }
      holes := holes - p.Keys;
    }
  }

  /** What holds between two lists moved: the lists not moved yet are the mutator's. */
  ghost predicate Releasing(mine: seq<seq<Hole>>, own: map<nat, nat>, chains: seq<seq<seq<Hole>>>, theirs: map<nat, nat>,
    left: seq<bool>, bits: seq<bool>)
  {
    && Matches(mine, own) && Matches(Flats(chains), theirs) && NoEmptyList(chains) && BitsMatch(left, mine)
    && |bits| == |chains| == BUCKETS && own.Keys !! theirs.Keys
    && forall i | 0 <= i < BUCKETS :: bits[i] <==> left[i] || chains[i] != []
  }

  lemma ReleaseOne(mine: seq<seq<Hole>>, own: map<nat, nat>, chains: seq<seq<seq<Hole>>>, theirs: map<nat, nat>,
    left: seq<bool>, bits: seq<bool>, i: nat)
    requires Releasing(mine, own, chains, theirs, left, bits) && i < BUCKETS && left[i]
    ensures var p := Part(own, i);
      && Releasing(mine[i := []], own - p.Keys, chains[i := [mine[i]] + chains[i]], theirs + p, left[i := false], bits)
      && (theirs + p) + (own - p.Keys) == theirs + own
  {
    var p := Part(own, i);
    MatchesTake(mine, own, i);
    PartSizes(mine, own, i);
    FlatsPut(chains, i, mine[i]);
    LeftBits(mine, chains, left, bits, i);
    MoveKeys(own, theirs, p);
    hide Matches, Part, Flats, Lists, InsertBucket, NoEmptyList, BitsMatch;
    MatchesPut(Flats(chains), theirs, i, mine[i], p);
  }

  lemma LeftBits(mine: seq<seq<Hole>>, chains: seq<seq<seq<Hole>>>, left: seq<bool>, bits: seq<bool>, i: nat)
    requires BitsMatch(left, mine) && NoEmptyList(chains) && |bits| == |chains| == BUCKETS && i < BUCKETS && left[i]
    requires forall x | 0 <= x < BUCKETS :: bits[x] <==> left[x] || chains[x] != []
    ensures BitsMatch(left[i := false], mine[i := []]) && NoEmptyList(chains[i := [mine[i]] + chains[i]])
    ensures forall x | 0 <= x < BUCKETS :: bits[x] <==> left[i := false][x] || chains[i := [mine[i]] + chains[i]][x] != []
  {
  }

  lemma MoveKeys(own: map<nat, nat>, theirs: map<nat, nat>, p: map<nat, nat>)
    requires own.Keys !! theirs.Keys && p.Keys <= own.Keys && forall a | a in p :: p[a] == own[a]
    ensures p.Keys !! theirs.Keys && (own - p.Keys).Keys !! (theirs + p).Keys
    ensures (theirs + p) + (own - p.Keys) == theirs + own
  {
  }

  lemma PartSizes(mine: seq<seq<Hole>>, own: map<nat, nat>, i: nat)
    requires Matches(mine, own) && i < BUCKETS
    ensures Part(own, i).Keys <= own.Keys && forall a | a in Part(own, i) :: Part(own, i)[a] == own[a]
    ensures forall a | a in Part(own, i) :: Part(own, i)[a] > 0 && InsertBucket(Part(own, i)[a]) == i
  {
  }

  /** Two sets that do not overlap, each without overlaps, have none together. */
  lemma JoinApart(p: map<nat, nat>, q: map<nat, nat>)
    requires Apart(p) && Apart(q) && Separate(p, q) && (forall a | a in p :: p[a] > 0) && forall a | a in q :: q[a] > 0
    ensures p.Keys !! q.Keys && Apart(p + q)
  {
    JoinApartKeys(p, q);
  }

  lemma ReleaseStart(mine: seq<seq<Hole>>, own: map<nat, nat>, chains: seq<seq<seq<Hole>>>, theirs: map<nat, nat>,
    left: seq<bool>, before: seq<bool>, bits: seq<bool>)
    requires Matches(mine, own) && Matches(Flats(chains), theirs) && NoEmptyList(chains)
    requires BitsMatch(left, mine) && BitsMatch(before, chains) && Separate(own, theirs) && Apart(own) && Apart(theirs)
    requires |bits| == BUCKETS && forall i | 0 <= i < BUCKETS :: bits[i] == (before[i] || left[i])
    ensures Releasing(mine, own, chains, theirs, left, bits) && Apart(theirs + own)
  {
    hide Flats, Lists, NoEmptyList;
    SeparateBack(own, theirs);
    JoinApart(theirs, own);
  }

  lemma SeparateBack(p: map<nat, nat>, q: map<nat, nat>)
    requires Separate(p, q)
    ensures Separate(q, p)
  {
  }

  lemma ReleaseEnd(mine: seq<seq<Hole>>, own: map<nat, nat>, chains: seq<seq<seq<Hole>>>, theirs: map<nat, nat>,
    left: seq<bool>, bits: seq<bool>)
    requires Releasing(mine, own, chains, theirs, left, bits) && forall i | 0 <= i < BUCKETS :: !left[i]
    ensures own == map[] && theirs + own == theirs && BitsMatch(bits, chains)
  {
    hide InsertBucket, Flats;
    forall a ensures a !in own {
      if a in own { OnList(mine, own, a); }
    }
  }

  /** A list moved: its first hole is linked to the chain it joins. */
  lemma ReleaseMemory(was: seq<Granule>, now: seq<Granule>, heads: seq<nat>, mine: seq<seq<Hole>>, own: map<nat, nat>,
    heads2: seq<nat>, chains: seq<seq<seq<Hole>>>, theirs: map<nat, nat>, i: nat)
    requires Matches(mine, own) && |chains| == BUCKETS && Matches(Flats(chains), theirs)
    requires own.Keys !! theirs.Keys && Apart(theirs + own)
    requires InMemory(was, heads, mine) && ChainsInMemory(was, heads2, chains) && i < BUCKETS && mine[i] != []
    requires heads[i] < |was| && now == was[heads[i] := Granule(was[heads[i]].first, heads2[i])]
    ensures InMemory(now, heads[i := 0], mine[i := []])
    ensures ChainsInMemory(now, heads2[i := heads[i]], chains[i := [mine[i]] + chains[i]])
  {
    var p, h := Part(own, i), heads[i];
    InMemoryPop(was, heads, mine, i);
    MatchesTake(mine, own, i);
    PartSizes(mine, own, i);
    MatchesSize(mine, own);
    HeadApart(own, theirs, mine[i], p);
    hide Matches, Flats, Lists, Part, Apart, InMemory, ChainsInMemory, Chained, Clear, InsertBucket;
    assert Strung(was, [], 0);
    assert Strung(was, mine[i], 0) by { ListThere(was, heads, mine, i); }
    hide Strung;
    InMemoryPut(was, heads, mine, i, []);
    Rechain(was, now, mine[i], p, 0, heads2[i]);
    InMemoryFar(was, now, heads[i := 0], mine[i := []], own - p.Keys, h, h + 1);
    ChainsFar(was, now, heads2, chains, theirs, h, h + 1);
    ChainsPush(now, heads2, chains, i, mine[i]);
  }

  lemma ListThere(mem: seq<Granule>, heads: seq<nat>, lists: seq<seq<Hole>>, i: nat)
    requires InMemory(mem, heads, lists) && i < BUCKETS
    ensures Strung(mem, lists[i], 0)
  {
  }

  /** The head of one list lies in no hole of another list, of the same set or of the other. */
  lemma HeadApart(own: map<nat, nat>, theirs: map<nat, nat>, list: seq<Hole>, p: map<nat, nat>)
    requires own.Keys !! theirs.Keys && Apart(theirs + own) && SubMap(p, own) && Lists(list, p) && list != []
    requires forall a | a in own :: own[a] > 0
    ensures var h := list[0].start; Clear(own - p.Keys, h, h + 1) && Clear(theirs, h, h + 1) && Covers(own, h)
    ensures Apart(p)
  {
    var h := list[0].start;
    assert h in theirs + own && h in own;
    forall a | a in own - p.Keys ensures a + own[a] <= h || h + 1 <= a {
      assert a in theirs + own;
    }
    forall a | a in theirs ensures a + theirs[a] <= h || h + 1 <= a {
      assert a in theirs + own;
    }
    forall a, b | a in p && b in p && a < b ensures a + p[a] <= b {
      assert a in theirs + own && b in theirs + own;
    }
  }

  lemma OneMore(was: seq<Granule>, mid: seq<Granule>, now: seq<Granule>, holes: map<nat, nat>, own: map<nat, nat>, h: nat)
    requires SameOutside(was, mid, holes) && SameBeyond(mid, now, h, h + 1) && Covers(own, h) && SubMap(own, holes)
    ensures SameOutside(was, now, holes)
  {
    var a :| a in own && a <= h < a + own[a];
    assert Covers(holes, h);
    hide Covers;
  }

  /** Gives all of a mutator's holes to the shared set, list by list. */
  method Release(local: Local, shared: Shared)
    requires local.Valid() && shared.Valid() && Separate(local.holes, shared.holes)
    requires local.mem == shared.mem && local.buckets != shared.buckets
    modifies local`nonempty, local`lists, local`holes, local.buckets
    modifies shared`nonempty, shared`chains, shared`holes, shared.buckets, local.mem
    ensures local.Valid() && shared.Valid()
    ensures local.holes == map[] && shared.holes == old(shared.holes) + old(local.holes)
    ensures SameOutside(old(local.mem[..]), local.mem[..], old(local.holes))
  {
    hide Matches, Releasing, Apart, Separate, NoEmptyList, Flats, BitsMatch, FirstBit, Part, InMemory, ChainsInMemory, SubMap,
      SameOutside, Covers;
    ghost var all, own0, mem0 := shared.holes + local.holes, local.holes, local.mem[..];
    var left, theirs := local.nonempty, shared.nonempty;
    BitsLength(left, local.lists);
    BitsLength(theirs, shared.chains);
    var bits := seq(BUCKETS, i requires 0 <= i < BUCKETS => theirs[i] || left[i]);
    ReleaseStart(local.lists, local.holes, shared.chains, shared.holes, left, theirs, bits);
    NothingOutside(mem0, own0);
    local.nonempty := seq(BUCKETS, _ => false);
    shared.nonempty := bits;
    var idx := FirstBit(left, 0);
    while idx < BUCKETS
      invariant local.buckets.Length == shared.buckets.Length == |left| == BUCKETS && idx == FirstBit(left, 0)
      invariant Releasing(local.lists, local.holes, shared.chains, shared.holes, left, bits)
      invariant InMemory(local.mem[..], local.buckets[..], local.lists)
      invariant ChainsInMemory(local.mem[..], shared.buckets[..], shared.chains)
      invariant shared.holes + local.holes == all && shared.nonempty == bits && local.nonempty == seq(BUCKETS, _ => false)
      invariant SubMap(local.holes, own0) && SameOutside(mem0, local.mem[..], own0)
      decreases BitCount(left)
    {
      Release1(local, shared, idx, left, bits, all, mem0, own0);
      FewerBits(left, idx);
      left := left[idx := false];
      idx := FirstBit(left, 0);
    }
    ReleaseEnd(local.lists, local.holes, shared.chains, shared.holes, left, bits);
    Released(local.lists, local.holes, shared.chains, shared.holes, left, bits);
  }

  lemma NothingOutside(mem: seq<Granule>, holes: map<nat, nat>)
    ensures SameOutside(mem, mem, holes) && SubMap(holes, holes)
  {
  }

  /** Moves one list. */
  method Release1(local: Local, shared: Shared, idx: nat, ghost left: seq<bool>, ghost bits: seq<bool>,
                  ghost all: map<nat, nat>, ghost mem0: seq<Granule>, ghost own0: map<nat, nat>)
    requires local.mem == shared.mem && local.buckets != shared.buckets && idx < |left| == BUCKETS && left[idx]
    requires local.buckets.Length == shared.buckets.Length == BUCKETS && Apart(all)
    requires Releasing(local.lists, local.holes, shared.chains, shared.holes, left, bits)
    requires InMemory(local.mem[..], local.buckets[..], local.lists)
    requires ChainsInMemory(local.mem[..], shared.buckets[..], shared.chains)
    requires shared.holes + local.holes == all && SubMap(local.holes, own0) && SameOutside(mem0, local.mem[..], own0)
    modifies local`lists, local`holes, local.buckets, shared`chains, shared`holes, shared.buckets, local.mem
    ensures Releasing(local.lists, local.holes, shared.chains, shared.holes, left[idx := false], bits)
    ensures InMemory(local.mem[..], local.buckets[..], local.lists)
    ensures ChainsInMemory(local.mem[..], shared.buckets[..], shared.chains)
    ensures shared.holes + local.holes == all && SubMap(local.holes, own0) && SameOutside(mem0, local.mem[..], own0)
  {
    hide Releasing, Apart, Part, InMemory, ChainsInMemory, SubMap, SameOutside, Covers, Matches, Flats;
    ghost var was, heads, heads2 := local.mem[..], local.buckets[..], shared.buckets[..];
    ghost var mine, own, chains, theirs := local.lists, local.holes, shared.chains, shared.holes;
    ReleasingFacts(mine, own, chains, theirs, left, bits, idx);
    InMemoryPop(was, heads, mine, idx);
    ReleaseOne(mine, own, chains, theirs, left, bits, idx);
    KeptInside(was, mine[idx][0], Pointer(mine[idx], 1));
    var hole := local.buckets[idx];
    local.buckets[idx] := 0;
    local.mem[hole] := local.mem[hole].(second := shared.buckets[idx]);
    shared.buckets[idx] := hole;
    ghost var p := Part(own, idx);
    ReleaseMemory(was, local.mem[..], heads, mine, own, heads2, chains, theirs, idx);
    HoleCovered(mine, own, idx);
    OneMore(mem0, was, local.mem[..], own0, own, hole);
    LessSub(own, own0, p);
    local.lists, shared.chains := mine[idx := []], chains[idx := [mine[idx]] + chains[idx]];
    shared.holes, local.holes := theirs + p, own - p.Keys;
  }

  lemma HoleCovered(lists: seq<seq<Hole>>, holes: map<nat, nat>, i: nat)
    requires Matches(lists, holes) && i < BUCKETS && lists[i] != []
    ensures Covers(holes, lists[i][0].start)
  {
    OnItsList(lists, holes, i, 0);
  }

  lemma LessSub(own: map<nat, nat>, all: map<nat, nat>, p: map<nat, nat>)
    requires SubMap(own, all)
    ensures SubMap(own - p.Keys, all)
  {
  }

  lemma ReleasingFacts(mine: seq<seq<Hole>>, own: map<nat, nat>, chains: seq<seq<seq<Hole>>>, theirs: map<nat, nat>,
    left: seq<bool>, bits: seq<bool>, i: nat)
    requires Releasing(mine, own, chains, theirs, left, bits) && i < |left| && left[i]
    ensures Matches(mine, own) && |mine| == |chains| == BUCKETS && Matches(Flats(chains), theirs) && own.Keys !! theirs.Keys
    ensures i < BUCKETS && mine[i] != []
  {
    hide Flats;
  }

  lemma Released(mine: seq<seq<Hole>>, own: map<nat, nat>, chains: seq<seq<seq<Hole>>>, theirs: map<nat, nat>,
    left: seq<bool>, bits: seq<bool>)
    requires Releasing(mine, own, chains, theirs, left, bits) && own == map[] && forall i | 0 <= i < BUCKETS :: !left[i]
    ensures Matches(mine, own) && Matches(Flats(chains), theirs) && NoEmptyList(chains) && Apart(map[])
    ensures BitsMatch(seq(BUCKETS, _ => false), mine) && |chains| == BUCKETS
  {
    hide Matches, Flats, NoEmptyList;
  }

  lemma BitsLength<T>(bits: seq<bool>, bs: seq<seq<T>>)
    requires BitsMatch(bits, bs)
    ensures |bits| == |bs| == BUCKETS
  {
  }

  ghost function BitCount(bits: seq<bool>): nat {
    if bits == [] then 0 else BitCount(bits[..|bits| - 1]) + if bits[|bits| - 1] then 1 else 0
  }

  lemma {:induction false} FewerBits(bits: seq<bool>, i: nat)
    requires i < |bits| && bits[i]
    ensures BitCount(bits[i := false]) == BitCount(bits) - 1
  {
    var last := |bits| - 1;
    if i == last {
      assert bits[i := false][..last] == bits[..last];
    } else {
      FewerBits(bits[..last], i);
      assert bits[i := false][..last] == bits[..last][i := false];
    }
  }

  // ----- taking a list back ----------------------------------------------------------------

  lemma ChainTake(chains: seq<seq<seq<Hole>>>, i: nat)
    requires i < |chains| && chains[i] != []
    ensures Flats(chains)[i] == chains[i][0] + Flat(chains[i][1..])
    ensures Flats(chains[i := chains[i][1..]]) == Flats(chains)[i := Flat(chains[i][1..])]
  {
  }

  /** The holes on a list. */
  ghost function Those(b: seq<Hole>, holes: map<nat, nat>): map<nat, nat> {
    map a | a in holes && exists j | 0 <= j < |b| :: b[j].start == a :: holes[a]
  }

  lemma ListSplit(b: seq<Hole>, c: seq<Hole>, holes: map<nat, nat>)
    requires Lists(b + c, holes)
    ensures Lists(b, Those(b, holes)) && Lists(c, holes - Those(b, holes).Keys)
  {
    var p, q := Those(b, holes), holes - Those(b, holes).Keys;
    assert forall j | 0 <= j < |b| :: (b + c)[j] == b[j];
    assert forall j | 0 <= j < |c| :: (b + c)[|b| + j] == c[j];
    forall j | 0 <= j < |c| ensures c[j].start !in p && c[j].start in holes {
      assert (b + c)[|b| + j] == c[j];
    }
    forall a | a in q ensures exists j | 0 <= j < |c| :: c[j].start == a {
      var j :| 0 <= j < |b + c| && (b + c)[j].start == a;
      assert j >= |b|;
      assert c[j - |b|].start == a;
    }
  }

  /** The first list of a chain, taken. */
  lemma TakeShared(chains: seq<seq<seq<Hole>>>, theirs: map<nat, nat>, i: nat)
    requires |chains| == BUCKETS && Matches(Flats(chains), theirs) && i < BUCKETS && chains[i] != [] && chains[i][0] != []
    ensures var p := Those(chains[i][0], Part(theirs, i));
      && Matches(Flats(chains[i := chains[i][1..]]), theirs - p.Keys) && Lists(chains[i][0], p) && p != map[]
      && SubMap(p, theirs) && forall a | a in p :: p[a] > 0 && InsertBucket(p[a]) == i
  {
    var b, rest := chains[i][0], Flat(chains[i][1..]);
    ghost var whole, flats := Part(theirs, i), Flats(chains);
    ghost var p := Those(b, whole);
    ChainTake(chains, i);
    MatchesTake(flats, theirs, i);
    PartSizes(flats, theirs, i);
    ListSplit(b, rest, whole);
    ListEmpty(b, p);
    ThoseSub(b, whole);
    hide Matches, Part, Flats, Flat, Lists, InsertBucket, Those;
    PutRest(flats, theirs, whole, p, rest, i);
  }

  lemma ThoseSub(b: seq<Hole>, whole: map<nat, nat>)
    ensures SubMap(Those(b, whole), whole)
  {
  }

  /** What is left of a chain put back where it was. */
  lemma PutRest(flats: seq<seq<Hole>>, theirs: map<nat, nat>, whole: map<nat, nat>, p: map<nat, nat>, rest: seq<Hole>, i: nat)
    requires |flats| == BUCKETS && i < BUCKETS && Matches(flats[i := []], theirs - whole.Keys) && Lists(rest, whole - p.Keys)
    requires SubMap(whole, theirs) && SubMap(p, whole) && forall a | a in whole :: whole[a] > 0 && InsertBucket(whole[a]) == i
    ensures Matches(flats[i := rest], theirs - p.Keys)
  {
    hide Matches, Lists, InsertBucket;
    MatchesPut(flats[i := []], theirs - whole.Keys, i, rest, whole - p.Keys);
    assert rest + [] == rest;
    assert flats[i := []][i := rest] == flats[i := rest];
    RestBack(theirs, whole, p);
  }

  ghost predicate SubMap(p: map<nat, nat>, q: map<nat, nat>) {
    forall a | a in p :: a in q && p[a] == q[a]
  }

  lemma RestBack(all: map<nat, nat>, whole: map<nat, nat>, p: map<nat, nat>)
    requires SubMap(whole, all) && SubMap(p, whole)
    ensures (all - whole.Keys) + (whole - p.Keys) == all - p.Keys
  {
  }

  /** Part of one set moved to another: neither overlaps itself or the other, and together they are the same. */
  lemma MoveApart(own: map<nat, nat>, theirs: map<nat, nat>, p: map<nat, nat>)
    requires Apart(own) && Apart(theirs) && Separate(own, theirs) && SubMap(p, theirs)
    requires (forall a | a in own :: own[a] > 0) && forall a | a in theirs :: theirs[a] > 0
    ensures p.Keys !! own.Keys && Apart(own + p) && Apart(theirs - p.Keys)
    ensures Separate(own + p, theirs - p.Keys) && (own + p) + (theirs - p.Keys) == own + theirs
  {
    SubApart(theirs, p);
    assert Separate(own, p);
    JoinApart(own, p);
    hide Apart;
    JoinApartKeys(own, theirs);
    MoveSeparate(own, theirs, p);
  }

  lemma JoinApartKeys(p: map<nat, nat>, q: map<nat, nat>)
    requires Separate(p, q) && (forall a | a in p :: p[a] > 0) && forall a | a in q :: q[a] > 0
    ensures p.Keys !! q.Keys
  {
    forall a | a in p ensures a !in q {}
  }

  lemma MoveSeparate(own: map<nat, nat>, theirs: map<nat, nat>, p: map<nat, nat>)
    requires Apart(theirs) && Separate(own, theirs) && SubMap(p, theirs) && own.Keys !! theirs.Keys
    ensures Separate(own + p, theirs - p.Keys) && (own + p) + (theirs - p.Keys) == own + theirs
  {
  }

  lemma SubApart(q: map<nat, nat>, p: map<nat, nat>)
    requires Apart(q) && SubMap(p, q)
    ensures Apart(p) && Apart(q - p.Keys)
  {
  }

  /** Takes a list of holes back from the shared set.  `sloppy` is what the read without the lock sees. */
  method Acquire(local: Local, shared: Shared, granules: nat, sloppy: seq<bool>) returns (ok: bool, ghost moved: map<nat, nat>)
    requires local.Valid() && shared.Valid() && Separate(local.holes, shared.holes) && NoneFits(local.holes, granules)
    requires local.mem == shared.mem && local.buckets != shared.buckets && |sloppy| == BUCKETS
    modifies local`nonempty, local`lists, local`holes, local.buckets
    modifies shared`nonempty, shared`chains, shared`holes, shared.buckets, local.mem
    ensures local.Valid() && shared.Valid()
    ensures Separate(local.holes, shared.holes) && local.holes + shared.holes == old(local.holes) + old(shared.holes)
    ensures ok ==>
      && SubMap(moved, old(shared.holes)) && moved != map[] && SameOutside(old(local.mem[..]), local.mem[..], moved)
      && local.holes == old(local.holes) + moved && shared.holes == old(shared.holes) - moved.Keys
      && forall a | a in moved :: InsertBucket(moved[a]) >= LookupBucket(granules)
    ensures !ok ==>
      && local.holes == old(local.holes) && shared.holes == old(shared.holes) && local.mem[..] == old(local.mem[..])
      && ((forall i | LookupBucket(granules) <= i < BUCKETS :: !sloppy[i]) || NoneFits(shared.holes, granules))
  {
    hide Matches, Apart, Separate, NoEmptyList, Flats, BitsMatch, FirstBit, Lists, LookupBucket, InsertBucket, SubMap, NoneFits,
      InMemory, ChainsInMemory, SameOutside, SameBeyond, Clear, Covers, Strung;
    moved := map[];
    var min := LookupBucket(granules);
    if FirstBit(sloppy, min) == BUCKETS { return false, moved; }
    BitsLength(shared.nonempty, shared.chains);
    var idx := FirstBit(shared.nonempty, min);
    if idx == BUCKETS {
      NoneShared(shared.nonempty, shared.chains, shared.holes, granules);
      return false, moved;
    }
    EmptyHere(local.nonempty, local.lists, local.holes, granules, idx);
    MatchesSize(local.lists, local.holes);
    MatchesSize(Flats(shared.chains), shared.holes);
    ghost var theirs, was := shared.holes, local.mem[..];
    var head;
    ghost var list, chain;
    head, list, moved, chain := shared.TakeList(idx);
    MoveApart(local.holes, theirs, moved);
    HeadMoved(theirs, moved, list);
    local.PutList(idx, head, list, moved, chain);
    ChainsFar(was, local.mem[..], shared.buckets[..], shared.chains, shared.holes, head, head + 1);
    OnlyHead(was, local.mem[..], moved, head);
    ok := true;
  }

  /** The head of a list taken lies in no hole that is left. */
  lemma HeadMoved(theirs: map<nat, nat>, moved: map<nat, nat>, list: seq<Hole>)
    requires Apart(theirs) && SubMap(moved, theirs) && Lists(list, moved) && list != [] && forall a | a in theirs :: theirs[a] > 0
    ensures Clear(theirs - moved.Keys, list[0].start, list[0].start + 1) && Covers(moved, list[0].start)
  {
    var h := list[0].start;
    assert h in moved && h in theirs;
  }

  lemma OnlyHead(was: seq<Granule>, now: seq<Granule>, moved: map<nat, nat>, h: nat)
    requires SameBeyond(was, now, h, h + 1) && Covers(moved, h)
    ensures SameOutside(was, now, moved)
  {
    hide Covers;
  }

  lemma HeadList(bits: seq<bool>, chains: seq<seq<seq<Hole>>>, i: nat)
    requires BitsMatch(bits, chains) && NoEmptyList(chains) && i < BUCKETS && bits[i]
    ensures chains[i] != [] && chains[i][0] != []
  {
  }

  lemma EmptyHere(bits: seq<bool>, bs: seq<seq<Hole>>, holes: map<nat, nat>, granules: nat, i: nat)
    requires Matches(bs, holes) && NoneFits(holes, granules) && BitsMatch(bits, bs) && LookupBucket(granules) <= i < BUCKETS
    ensures bs[i] == []
  {
    if bs[i] != [] { MatchesHead(bs, holes, i); }
  }

  lemma NoneShared(bits: seq<bool>, chains: seq<seq<seq<Hole>>>, holes: map<nat, nat>, granules: nat)
    requires BitsMatch(bits, chains) && Matches(Flats(chains), holes)
    requires forall i | LookupBucket(granules) <= i < BUCKETS :: !bits[i]
    ensures NoneFits(holes, granules)
  {
    hide InsertBucket, LookupBucket;
    forall a | a in holes ensures InsertBucket(holes[a]) < LookupBucket(granules) {
      OnList(Flats(chains), holes, a);
    }
  }

  lemma BitsPut(bits: seq<bool>, bs: seq<seq<Hole>>, i: nat, b: seq<Hole>)
    requires BitsMatch(bits, bs) && i < BUCKETS && b != []
    ensures BitsMatch(bits[i := true], bs[i := b])
  {
  }

  lemma ChainShort(bits: seq<bool>, chains: seq<seq<seq<Hole>>>, i: nat)
    requires BitsMatch(bits, chains) && NoEmptyList(chains) && i < BUCKETS && chains[i] != []
    ensures BitsMatch(if chains[i][1..] == [] then bits[i := false] else bits, chains[i := chains[i][1..]])
    ensures NoEmptyList(chains[i := chains[i][1..]])
  {
  }

  /** The second chance of an allocation: a hole of the mutator's own, else one of a list taken from the
      shared set, which always holds one big enough.  The memory handed out is all zero, through however
      many lists it has gone. */
  method SecondChance(local: Local, shared: Shared, granules: nat, sloppy: seq<bool>) returns (start: Option<nat>)
    requires local.Valid() && shared.Valid() && Separate(local.holes, shared.holes)
    requires local.mem == shared.mem && local.buckets != shared.buckets && 0 < granules <= LARGEST && |sloppy| == BUCKETS
    modifies local`nonempty, local`lists, local`holes, local.buckets
    modifies shared`nonempty, shared`chains, shared`holes, shared.buckets, local.mem
    ensures local.Valid() && shared.Valid()
    ensures start.None? ==>
      && local.holes == old(local.holes) && shared.holes == old(shared.holes) && NoneFits(local.holes, granules)
      && ((forall i | LookupBucket(granules) <= i < BUCKETS :: !sloppy[i]) || NoneFits(shared.holes, granules))
      && local.mem[..] == old(local.mem[..])
    ensures start.Some? ==> var all := old(local.holes) + old(shared.holes);
      && start.value in all && all[start.value] >= granules
      && local.holes + shared.holes == AfterPop(all, start.value, granules)
      && ZeroIn(local.mem[..], start.value, start.value + granules)
      && SameOutside(old(local.mem[..]), local.mem[..], all)
    ensures Separate(local.holes, shared.holes)
  {
    hide Matches, Apart, Separate, NoEmptyList, Flats, BitsMatch, LookupBucket, InsertBucket, SubMap, NoneFits, AfterPop,
      InMemory, ChainsInMemory, SameOutside, SameBeyond, Clear, Covers, ZeroIn;
    ghost var all, mem0 := local.holes + shared.holes, local.mem[..];
    ghost var own, theirs, was := local.holes, shared.holes, local.mem[..];
    MatchesSize(local.lists, own);
    NothingOutside(mem0, all);
    start := local.TryPop(granules);
    if start.None? {
      var ok;
      ghost var moved;
      ok, moved := Acquire(local, shared, granules, sloppy);
      if !ok { return None; }
      JoinSub(own, moved);
      InJoin(own, theirs, moved);
      own, theirs, was := local.holes, shared.holes, local.mem[..];
      MoreOutside(mem0, was, moved, all);
      MatchesSize(local.lists, own);
      start := local.TryPop(granules);
      if start.None? { SomeFits(own, moved, granules); }
    }
    MatchesSize(Flats(shared.chains), theirs);
    PopApart(own, theirs, start.value, granules);
    PopClear(own, theirs, start.value);
    ChainsFar(was, local.mem[..], shared.buckets[..], shared.chains, theirs, start.value, start.value + own[start.value]);
    PopOutside(mem0, was, local.mem[..], all, start.value);
  }

  lemma InJoin(own: map<nat, nat>, theirs: map<nat, nat>, moved: map<nat, nat>)
    requires SubMap(moved, theirs)
    ensures SubMap(moved, own + theirs)
  {
  }

  lemma MoreOutside(was: seq<Granule>, now: seq<Granule>, moved: map<nat, nat>, all: map<nat, nat>)
    requires SameOutside(was, now, moved) && SubMap(moved, all)
    ensures SameOutside(was, now, all)
  {
    forall x: nat | Covers(moved, x) ensures Covers(all, x) {
      var a :| a in moved && a <= x < a + moved[a];
      assert a in all;
    }
  }

  lemma PopClear(own: map<nat, nat>, theirs: map<nat, nat>, start: nat)
    requires Separate(own, theirs) && start in own
    ensures Clear(theirs, start, start + own[start])
  {
  }

  lemma PopOutside(mem0: seq<Granule>, was: seq<Granule>, now: seq<Granule>, all: map<nat, nat>, start: nat)
    requires SameOutside(mem0, was, all) && start in all && SameBeyond(was, now, start, start + all[start])
    ensures SameOutside(mem0, now, all)
  {
  }

  lemma JoinSub(p: map<nat, nat>, q: map<nat, nat>)
    ensures SubMap(q, p + q)
  {
  }

  lemma SomeFits(own: map<nat, nat>, moved: map<nat, nat>, granules: nat)
    requires moved != map[] && SubMap(moved, own)
    requires forall a | a in moved :: InsertBucket(moved[a]) >= LookupBucket(granules)
    ensures !NoneFits(own, granules)
  {
    hide InsertBucket, LookupBucket;
    var a :| a in moved;
    assert a in own;
  }

  lemma PopApart(own: map<nat, nat>, theirs: map<nat, nat>, start: nat, granules: nat)
    requires Separate(own, theirs) && start in own && own[start] >= granules > 0
    requires (forall a | a in theirs :: theirs[a] > 0) && forall a | a in own :: own[a] > 0
    ensures start in own + theirs && (own + theirs)[start] == own[start]
    ensures Separate(AfterPop(own, start, granules), theirs)
    ensures AfterPop(own, start, granules) + theirs == AfterPop(own + theirs, start, granules)
  {
    var tail := start + granules;
    assert start !in theirs;
    assert own[start] > granules ==> tail !in theirs;
  }
}
