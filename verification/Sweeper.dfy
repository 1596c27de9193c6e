/** Lazy sweeping of a block of granules: one metadata byte a granule, whose low bits mark the first
    granule of a survivor and whose end bit the last granule of an object. */
module Sweeper {
  import opened Swar
  import opened AddressHash
  import HoleSet

  const GRANULES: nat := 4096
  const END: nat := 32
  const YOUNG: nat := 1

  /** How an object is traced: precisely, not at all, conservatively, or not at all and in place. */
  predicate TraceKind(kind: nat) {
    kind in {0, 8, 16, 24}
  }

  const NO_LIMIT: nat := 0xffff_ffff_ffff_ffff

  function EndTest(): Test {
    AnyOf(END)
  }

  /** The end bit is the sixth of the byte. */
  lemma EndHits(b: nat)
    ensures EndTest().Hits(b) <==> b / 32 % 2 == 1
  {
    hide And;
    AndTwice(b, 16);
    AndTwice(b / 2, 8);
    AndTwice(b / 4, 4);
    AndTwice(b / 8, 2);
    AndTwice(b / 16, 1);
    AndOne(b / 32);
  }

  lemma AndTwice(b: nat, m: nat)
    ensures And(b, 2 * m) == 2 * And(b / 2, m)
  {
  }

  lemma AndOne(b: nat)
    ensures And(b, 1) == b % 2
  {
    assert And(b / 2, 0) == 0;
  }

  /** The granules of the object that starts at granule `i`. */
  function Size(meta: seq<nat>, i: nat): (g: nat)
    requires i < |meta|
    ensures 0 < g
  {
    FirstHit(EndTest(), meta[i..]) + 1
  }

  predicate Marked(b: nat, mark: nat) {
    b % 8 == mark
  }

  /** From granule `i` on, each survivor ends inside the block. */
  ghost predicate WellFormed(meta: seq<nat>, mark: nat, i: nat)
    decreases |meta| - i
  {
    i <= |meta| &&
    if i == |meta| then true
    else if Marked(meta[i], mark) then i + Size(meta, i) <= |meta| && WellFormed(meta, mark, i + Size(meta, i))
    else WellFormed(meta, mark, i + 1)
  }

  /** Granule `x` is part of a survivor, the walk over the objects being at granule `i`. */
  ghost predicate Survives(meta: seq<nat>, mark: nat, i: nat, x: int)
    decreases |meta| - i
  {
    i < |meta| &&
    if Marked(meta[i], mark) then i <= x < i + Size(meta, i) || Survives(meta, mark, i + Size(meta, i), x)
    else Survives(meta, mark, i + 1, x)
  }

  /** The granules below `i` that are not part of a survivor. */
  ghost function CountFree(meta: seq<nat>, mark: nat, i: nat): nat {
    if i == 0 then 0 else CountFree(meta, mark, i - 1) + if Survives(meta, mark, 0, i - 1) then 0 else 1
  }

  ghost function CountLive(meta: seq<nat>, mark: nat, i: nat): nat {
    if i == 0 then 0 else CountLive(meta, mark, i - 1) + if Survives(meta, mark, 0, i - 1) then 1 else 0
  }

  lemma {:induction false} CountsAdd(meta: seq<nat>, mark: nat, i: nat)
    ensures CountFree(meta, mark, i) + CountLive(meta, mark, i) == i
  {
    if i > 0 { CountsAdd(meta, mark, i - 1); }
  }

  /** The walk over the objects comes to granule `i`. */
  ghost predicate AtObject(meta: seq<nat>, mark: nat, i: nat) {
    && WellFormed(meta, mark, i)
    && forall x | x >= i :: Survives(meta, mark, 0, x) <==> Survives(meta, mark, i, x)
  }

  lemma {:induction false} NotBefore(meta: seq<nat>, mark: nat, i: nat, x: int)
    requires Survives(meta, mark, i, x)
    ensures i <= x
    decreases |meta| - i
  {
    if Marked(meta[i], mark) {
      if !(i <= x < i + Size(meta, i)) { NotBefore(meta, mark, i + Size(meta, i), x); }
    } else {
      NotBefore(meta, mark, i + 1, x);
    }
  }

  /** Past a survivor. */
  lemma PastSurvivor(meta: seq<nat>, mark: nat, i: nat)
    requires AtObject(meta, mark, i) && i < |meta| && Marked(meta[i], mark)
    ensures i + Size(meta, i) <= |meta| && AtObject(meta, mark, i + Size(meta, i))
    ensures forall x | i <= x < i + Size(meta, i) :: Survives(meta, mark, 0, x)
    ensures FirstHit(EndTest(), meta[i..]) < |meta| - i
  {
    hide Size, Marked;
    assert i + Size(meta, i) <= |meta| by { assert WellFormed(meta, mark, i); }
    SizeIs(meta, i);
  }

  lemma SizeIs(meta: seq<nat>, i: nat)
    requires i < |meta|
    ensures Size(meta, i) == FirstHit(EndTest(), meta[i..]) + 1
  {
  }

  /** Past granules that are not the start of a survivor. */
  lemma {:induction false} PastFree(meta: seq<nat>, mark: nat, i: nat, g: nat)
    requires AtObject(meta, mark, i) && i + g <= |meta| && forall x | i <= x < i + g :: !Marked(meta[x], mark)
    ensures AtObject(meta, mark, i + g) && forall x | i <= x < i + g :: !Survives(meta, mark, 0, x)
    decreases g
  {
    if g > 0 {
      hide Size, Marked;
      forall x ensures Survives(meta, mark, i, x) <==> Survives(meta, mark, i + 1, x) {}
      assert !Survives(meta, mark, i, i) by {
        if Survives(meta, mark, i + 1, i) { NotBefore(meta, mark, i + 1, i); }
      }
      PastFree(meta, mark, i + 1, g - 1);
    }
  }

  lemma {:induction false} FreeMore(meta: seq<nat>, mark: nat, i: nat, g: nat)
    requires forall x | i <= x < i + g :: !Survives(meta, mark, 0, x)
    ensures CountFree(meta, mark, i + g) == CountFree(meta, mark, i) + g
  {
    if g > 0 { FreeMore(meta, mark, i, g - 1); }
  }

  lemma {:induction false} LiveMore(meta: seq<nat>, mark: nat, i: nat, g: nat)
    requires forall x | i <= x < i + g :: Survives(meta, mark, 0, x)
    ensures CountFree(meta, mark, i + g) == CountFree(meta, mark, i)
  {
    if g > 0 { LiveMore(meta, mark, i, g - 1); }
  }

  /** How far a block is swept: survivors as they were, the hole at hand empty, the rest not looked at. */
  ghost predicate Swept(before: seq<nat>, mark: nat, now: seq<nat>, alloc: nat, sweep: nat) {
    && |before| == |now| == GRANULES && Bytes(now) && 0 < mark < 8
    && alloc <= sweep && AtObject(before, mark, sweep)
    && (forall x | 0 <= x < GRANULES && (x >= sweep || Survives(before, mark, 0, x)) :: now[x] == before[x])
    && (forall x | alloc <= x < sweep :: now[x] == 0 && !Survives(before, mark, 0, x))
  }

  lemma SweptInside(before: seq<nat>, mark: nat, now: seq<nat>, alloc: nat, sweep: nat)
    requires Swept(before, mark, now, alloc, sweep)
    ensures alloc <= sweep <= GRANULES == |now| == |before| && Bytes(now) && now[sweep..] == before[sweep..]
  {
  }

  // ----- one step of the sweep -------------------------------------------------------------

  /** Past a survivor: nothing is written. */
  lemma SkipKeeps(before: seq<nat>, mark: nat, now: seq<nat>, i: nat)
    requires Swept(before, mark, now, i, i) && i < GRANULES && Marked(now[i], mark)
    ensures var g := FirstHit(EndTest(), now[i..]) + 1;
      && i + g <= GRANULES && Swept(before, mark, now, i + g, i + g)
      && CountFree(before, mark, i + g) == CountFree(before, mark, i)
      && (forall x | i <= x < i + g :: Survives(before, mark, 0, x))
      && Stops(EndTest(), now, i, NO_LIMIT)
  {
    SweptInside(before, mark, now, i, i);
    PastSurvivor(before, mark, i);
    hide AtObject, Marked, FirstHit, Survives;
    SizeIs(before, i);
    LiveMore(before, mark, i, Size(before, i));
    Unlimited(now, i);
  }

  lemma Unlimited(now: seq<nat>, i: nat)
    requires |now| == GRANULES && i < GRANULES && FirstHit(EndTest(), now[i..]) < GRANULES - i
    ensures Stops(EndTest(), now, i, NO_LIMIT)
  {
    hide FirstHit;
  }

  /** The test for the mark, in the low three bits. */
  function MarkTest(mark: nat): Test {
    LowBits(3, mark)
  }

  lemma MarkHits(mark: nat, b: nat)
    ensures MarkTest(mark).Hits(b) == Marked(b, mark)
  {
    EightIs();
  }

  lemma EightIs()
    ensures Pow2(3) == 8
  {
  }

  lemma TestsValid(mark: nat)
    requires 0 < mark < 8
    ensures EndTest().Valid() && MarkTest(mark).Valid()
  {
    EightIs();
  }

  /** The hole found: from here to the next mark, or the end. */
  lemma HoleIs(before: seq<nat>, mark: nat, now: seq<nat>, i: nat)
    requires Swept(before, mark, now, i, i) && i < GRANULES && !Marked(now[i], mark)
    ensures Stops(MarkTest(mark), now, i, GRANULES - i)
    ensures var g := FirstHit(MarkTest(mark), now[i..]);
      && 0 < g <= GRANULES - i && AtObject(before, mark, i + g)
      && (forall x | i <= x < i + g :: !Survives(before, mark, 0, x))
      && (i + g == GRANULES || Marked(before[i + g], mark))
      && CountFree(before, mark, i + g) == CountFree(before, mark, i) + g
  {
    SweptInside(before, mark, now, i, i);
    var g := FirstHit(MarkTest(mark), now[i..]);
    NoMarkBefore(now, mark, i);
    assert forall x | i <= x < GRANULES :: now[x] == before[x];
    hide AtObject, Marked, FirstHit, Survives;
    PastFree(before, mark, i, g);
    FreeMore(before, mark, i, g);
  }

  lemma NoMarkBefore(now: seq<nat>, mark: nat, i: nat)
    requires |now| == GRANULES && i < GRANULES && !Marked(now[i], mark)
    ensures var g := FirstHit(MarkTest(mark), now[i..]);
      && 0 < g <= GRANULES - i && (forall x | i <= x < i + g :: !Marked(now[x], mark))
      && (i + g == GRANULES || Marked(now[i + g], mark))
  {
    var s := now[i..];
    var g := FirstHit(MarkTest(mark), s);
    FirstHitIs(MarkTest(mark), s);
    hide FirstHit, Marked, Test.Hits;
    MarkHits(mark, s[0]);
    if g < |s| { MarkHits(mark, s[g]); }
    forall x | i <= x < i + g ensures !Marked(now[x], mark) {
      assert now[x] == s[x - i];
      MarkHits(mark, now[x]);
    }
  }

  /** Clearing a hole. */
  function Cleared(s: seq<nat>, lo: nat, hi: nat): seq<nat> {
    seq(|s|, x requires 0 <= x < |s| => if lo <= x < hi then 0 else s[x])
  }

  lemma HoleKeeps(before: seq<nat>, mark: nat, now: seq<nat>, i: nat, g: nat)
    requires Swept(before, mark, now, i, i) && i + g <= GRANULES && AtObject(before, mark, i + g)
    requires forall x | i <= x < i + g :: !Survives(before, mark, 0, x)
    ensures Swept(before, mark, Cleared(now, i, i + g), i, i + g)
  {
    hide AtObject, Survives;
  }

  lemma ZeroNone(s: seq<HoleSet.Granule>, i: nat)
    requires i <= |s|
    ensures HoleSet.ZeroIn(s, i, i)
  {
  }

  /** A sweep of one block. */
  class Sweeper {
    const meta: array<nat>
    const mem: array<HoleSet.Granule>
    const mark: nat
    /** The number of the block's first granule in memory. */
    const block: nat
    const holes: HoleSet.Local
    var alloc: nat
    var sweep: nat
    var holeCount: nat
    var holeGranules: nat
    var fragmentedHoles: nat
    var fragmentation: nat
    ghost const before: seq<nat>
    /** The granules handed out of the block's holes so far. */
    ghost var used: nat

    ghost predicate Valid()
      reads this, meta, mem, holes, holes.buckets
    {
      && mem == holes.mem && meta != holes.buckets && 0 < block && block + GRANULES <= mem.Length
      && Swept(before, mark, meta[..], alloc, sweep) && HoleSet.ZeroIn(mem[..], block + alloc, block + sweep)
      && (alloc < sweep < GRANULES ==> Marked(before[sweep], mark))
      && holeGranules == CountFree(before, mark, sweep)
      && used + fragmentation + (sweep - alloc) == holeGranules
      && holes.Valid() && HoleSet.Clear(holes.holes, block + alloc, block + GRANULES)
    }

    /** A block taken for sweeping. */
    constructor (meta: array<nat>, mark: nat, block: nat, holes: HoleSet.Local)
      requires meta.Length == GRANULES && meta != holes.buckets && 0 < mark < 8 && Bytes(meta[..])
      requires 0 < block && block + GRANULES <= holes.mem.Length
      requires WellFormed(meta[..], mark, 0) && holes.Valid() && HoleSet.Clear(holes.holes, block, block + GRANULES)
      ensures Valid() && this.meta == meta && this.mem == holes.mem && this.mark == mark && this.block == block
      ensures this.holes == holes && alloc == sweep == 0 && before == meta[..] && used == 0
    {
      this.meta, this.mem, this.mark, this.block, this.holes := meta, holes.mem, mark, block, holes;
      alloc, sweep, holeCount, holeGranules, fragmentedHoles, fragmentation := 0, 0, 0, 0, 0, 0;
      before, used := meta[..], 0;
    }

    /** Walks over survivors to the next hole. */
    method SkipSurvivors() returns (i: nat)
      requires Valid() && alloc == sweep
      ensures sweep <= i <= GRANULES == meta.Length && Swept(before, mark, meta[..], i, i)
      ensures CountFree(before, mark, i) == CountFree(before, mark, sweep)
      ensures forall x | sweep <= x < i :: Survives(before, mark, 0, x)
      ensures i < GRANULES ==> !Marked(meta[i], mark)
    {
      hide Swept, CountFree, Survives, Marked, FirstHit, Test.Valid, Stops;
      ghost var now := meta[..];
      SweptInside(before, mark, now, alloc, sweep);
      i := sweep;
      while i < GRANULES && Marked(meta[i], mark)
        invariant sweep <= i <= GRANULES == meta.Length && Swept(before, mark, now, i, i)
        invariant CountFree(before, mark, i) == CountFree(before, mark, sweep)
        invariant forall x | sweep <= x < i :: Survives(before, mark, 0, x)
      {
        SkipKeeps(before, mark, now, i);
        SweptMark(before, mark, now, i, i);
        var g := ScanFor(meta, i, NO_LIMIT, EndTest());
        i := i + g + 1;
      }
    }

    method ClearMemory(i: nat, g: nat)
      requires mem == holes.mem && holes.Valid() && HoleSet.Clear(holes.holes, block + i, block + i + g)
      requires block + i + g <= mem.Length
      modifies mem
      ensures holes.Valid() && HoleSet.ZeroIn(mem[..], block + i, block + i + g)
      ensures HoleSet.SameBeyond(old(mem[..]), mem[..], block + i, block + i + g)
    {
      hide HoleSet.Clear, HoleSet.Matches, HoleSet.Apart, HoleSet.BitsMatch, HoleSet.InMemory;
      ghost var was, heads := mem[..], holes.buckets[..];
      forall y | block + i <= y < block + i + g { mem[y] := HoleSet.ZERO; }
      assert holes.buckets[..] == heads;
      HoleSet.InMemoryFar(was, mem[..], heads, holes.lists, holes.holes, block + i, block + i + g);
    }

    /** Clears the hole that starts at `i`. */
    method ClearHole(i: nat) returns (g: nat)
      requires Valid() && alloc == sweep <= i < GRANULES
      requires Swept(before, mark, meta[..], i, i) && CountFree(before, mark, i) == CountFree(before, mark, sweep)
      requires meta.Length == GRANULES && !Marked(meta[i], mark)
      modifies this`alloc, this`sweep, this`holeCount, this`holeGranules, meta, mem
      ensures Valid() && alloc == i && sweep == i + g && 0 < g && used == old(used) && holeCount == old(holeCount) + 1
      ensures sweep == GRANULES || (sweep < |before| && Marked(before[sweep], mark))
      ensures forall x | 0 <= x < GRANULES && !(alloc <= x < sweep) :: meta[x] == old(meta[x])
      ensures HoleSet.SameBeyond(old(mem[..]), mem[..], block + alloc, block + sweep)
    {
      hide Swept, CountFree, Survives, Marked, FirstHit, Test.Valid, Stops, AtObject, HoleSet.Clear, HoleSet.Local.Valid;
      ghost var now := meta[..];
      HoleIs(before, mark, now, i);
      SweptMark(before, mark, now, i, i);
      SweptInside(before, mark, now, i, i);
      g := ScanFor(meta, i, GRANULES - i, MarkTest(mark));
      HoleKeeps(before, mark, now, i, g);
      ClearLess(holes.holes, block + alloc, block + i, block + GRANULES);
      ClearPart(holes.holes, block + i, block + i + g, block + GRANULES);
      ClearMemory(i, g);
      forall x | i <= x < i + g { meta[x] := 0; }
      assert meta[..] == Cleared(now, i, i + g);
      holeCount := holeCount + 1;
      holeGranules := holeGranules + g;
      alloc, sweep := i, i + g;
    }

    /** Sweeps to the next hole, clears it, and tells its size; zero at the end of the block. */
    method NextHole() returns (g: nat)
      requires Valid() && alloc == sweep
      modifies this`alloc, this`sweep, this`holeCount, this`holeGranules, meta, mem
      ensures Valid() && old(sweep) <= alloc && sweep == alloc + g && used == old(used)
      ensures g == 0 ==> sweep == GRANULES
      ensures g > 0 ==> holeCount == old(holeCount) + 1 && (sweep == GRANULES || Marked(before[sweep], mark))
      ensures forall x | old(sweep) <= x < alloc :: Survives(before, mark, 0, x)
      ensures forall x | 0 <= x < GRANULES && !(alloc <= x < sweep) :: meta[x] == old(meta[x])
      ensures HoleSet.SameBeyond(old(mem[..]), mem[..], block + alloc, block + sweep)
    {
      hide CountFree, Survives, Marked, FirstHit, Test.Valid, Stops, AtObject, HoleSet.Clear, HoleSet.ZeroIn, HoleSet.Local.Valid;
      SweptInside(before, mark, meta[..], alloc, sweep);
      ZeroNone(mem[..], block + GRANULES);
      var i := SkipSurvivors();
      if i == GRANULES {
        ClearLess(holes.holes, block + alloc, block + GRANULES, block + GRANULES);
        alloc, sweep := GRANULES, GRANULES;
        return 0;
      }
      g := ClearHole(i);
    }

    /** Puts what is left of the hole at hand in the set of holes, which writes at its front. */
    method KeepHole(granules: nat)
      requires Valid() && granules == sweep - alloc > 0
      modifies holes`nonempty, holes`lists, holes`holes, holes.buckets, mem
      ensures holes.Valid() && HoleSet.Clear(holes.holes, block + sweep, block + GRANULES)
      ensures holes.holes == old(holes.holes)[block + alloc := granules]
      ensures CoversRange(old(holes.holes), holes.holes, block + alloc, block + sweep)
      ensures HoleSet.SameBeyond(old(mem[..]), mem[..], block + alloc, block + sweep)
    {
      hide Swept, HoleSet.Clear, HoleSet.Covers, HoleSet.Separate, CoversRange, HoleSet.ZeroIn, CountFree, HoleSet.Local.Valid;
      SweptInside(before, mark, meta[..], alloc, sweep);
      ghost var was := holes.holes;
      ClearApart(was, block + alloc, granules, block + GRANULES);
      ClearPush(was, block + alloc, granules, block + GRANULES);
      holes.Push(block + alloc, granules);
      CoversPush(was, block + alloc, granules);
    }

    /** Leaves what is left of the hole at hand: it counts as fragmentation, and may be kept for reuse.  A
        hole that is not kept stays all zero; one that is kept holds a link and, over 50 granules, its size. */
    method FinishHole(collect: bool)
      requires Valid()
      modifies this`alloc, this`fragmentedHoles, this`fragmentation
      modifies holes`nonempty, holes`lists, holes`holes, holes.buckets, mem
      ensures Valid() && alloc == sweep
      ensures fragmentedHoles == old(fragmentedHoles) + if old(alloc) < sweep then 1 else 0
      ensures CoversRange(old(holes.holes), holes.holes, block + old(alloc), if collect then block + sweep else block + old(alloc))
      ensures holes.holes ==
        if collect && old(alloc) < sweep then old(holes.holes)[block + old(alloc) := sweep - old(alloc)] else old(holes.holes)
      ensures HoleSet.SameBeyond(old(mem[..]), mem[..], block + old(alloc), if collect then block + sweep else block + old(alloc))
    {
      hide Swept, CountFree, HoleSet.Clear, HoleSet.Covers, CoversRange, HoleSet.Local.Valid;
      SweptInside(before, mark, meta[..], alloc, sweep);
      SweptWhole(before, mark, meta[..], alloc, sweep);
      CoversNone(holes.holes, block + alloc);
      var granules := sweep - alloc;
      if granules > 0 {
        ClearLess(holes.holes, block + alloc, block + sweep, block + GRANULES);
        if collect { KeepHole(granules); }
        fragmentedHoles := fragmentedHoles + 1;
        fragmentation := fragmentation + granules;
        alloc := sweep;
      }
    }

    /** Hands out the front of the hole at hand; `kind` tells how the object is to be traced. */
    method Bump(granules: nat, kind: nat) returns (start: nat)
      requires Valid() && 0 < granules <= sweep - alloc && TraceKind(kind)
      modifies this`alloc, this`used, meta
      ensures Valid() && start == old(alloc) && alloc == old(alloc) + granules && used == old(used) + granules
      ensures HoleSet.ZeroIn(mem[..], block + start, block + alloc)
      ensures forall x | 0 <= x < GRANULES && !(start <= x < alloc) :: meta[x] == old(meta[x])
      ensures meta.Length == GRANULES && meta[start] % 8 == YOUNG && meta[start] % END == YOUNG + kind
      ensures Size(meta[..], start) == granules
    {
      hide CountFree, Survives, Marked, FirstHit, Test.Valid, Stops, AtObject, HoleSet.Clear, HoleSet.ZeroIn, HoleSet.Local.Valid,
        Size, Swept;
      ghost var was, end := meta[..], alloc + granules;
      SweptInside(before, mark, was, alloc, sweep);
      ZeroSplit(mem[..], block + alloc, block + end, block + sweep);
      ClearLess(holes.holes, block + alloc, block + alloc + granules, block + GRANULES);
      start := alloc;
      if granules == 1 {
        meta[start] := YOUNG + kind + END;
      } else {
        meta[start] := YOUNG + kind;
        meta[start + granules - 1] := END;
      }
      assert start + granules <= GRANULES;
      SweptBump(before, mark, was, meta[..], start, end, sweep);
      Written(meta[..], start, granules, kind);
      alloc, used := alloc + granules, used + granules;
    }

    /** Finishes the hole at hand and sweeps to the next. */
    method Advance(collect: bool, ghost meta0: seq<nat>, ghost mem0: seq<HoleSet.Granule>, ghost a0: nat, ghost held: map<nat, nat>)
      returns (g: nat)
      requires Valid() && a0 <= alloc
      requires Finished(before, mark, block, collect, meta0, mem0, meta[..], mem[..], a0, sweep)
      requires CoversAlso(held, holes.holes, collect, before, mark, block, a0, alloc)
      requires Gained(held, holes.holes, before, mark, block)
      modifies this`alloc, this`sweep, this`holeCount, this`holeGranules, this`fragmentedHoles, this`fragmentation,
        meta, mem, holes`nonempty, holes`lists, holes`holes, holes.buckets
      ensures Valid() && old(sweep) <= alloc && sweep == alloc + g && used == old(used) && (g == 0 ==> sweep == GRANULES)
      ensures Finished(before, mark, block, collect, meta0, mem0, meta[..], mem[..], a0, sweep)
      ensures CoversAlso(held, holes.holes, collect, before, mark, block, a0, alloc)
      ensures Gained(held, holes.holes, before, mark, block)
    {
      hide CountFree, Survives, Marked, AtObject, Swept, HoleSet.ZeroIn, HoleSet.Clear, HoleSet.Covers, CoversRange, FreeAt,
        Finished, CoversAlso, Gained, HoleSet.Local.Valid, HoleSet.SameBeyond;
      ghost var was, hole, end, meta1, mem1 := holes.holes, alloc, sweep, meta[..], mem[..];
      SweptHole(before, mark, meta[..], alloc, sweep);
      GainedHole(held, was, before, mark, block, meta[..], alloc, sweep);
      HoleSet.Positive(holes);
      HoleNew(was, block + alloc, block + GRANULES);
      FinishHole(collect);
      CoversHole(held, was, holes.holes, collect, before, mark, block, a0, hole, end);
      FinishedHole(before, mark, block, collect, meta0, mem0, meta1, mem1, mem[..], a0, hole, end);
      ghost var mem2 := mem[..];
      g := NextHole();
      CoversSkip(held, holes.holes, collect, before, mark, block, a0, end, alloc);
      FinishedNext(before, mark, block, collect, meta0, mem0, meta1, mem2, meta[..], mem[..], a0, end, alloc, sweep);
    }

    /** Sweeps the rest of the block: survivors keep their metadata and contents, every other granule has its
        metadata cleared, and with `collect` just those granules join the set of holes, as holes that end at
        a survivor or at the end of the block.  Without `collect` they are all zero; with it they are zero
        but for the headers of the set's holes, so that the set is all zero exactly when it has no hole over
        50 granules and no two of a size.  What is counted free is what no survivor takes, and what of it
        was not handed out is counted as fragmentation. */
    method FinishSweeping(collect: bool)
      requires Valid()
      modifies this`alloc, this`sweep, this`holeCount, this`holeGranules, this`fragmentedHoles, this`fragmentation,
        meta, mem, holes`nonempty, holes`lists, holes`holes, holes.buckets
      ensures Valid() && alloc == sweep == GRANULES && used == old(used)
      ensures holeGranules == CountFree(before, mark, GRANULES) && fragmentation == holeGranules - used
      ensures Finished(before, mark, block, collect, old(meta[..]), old(mem[..]), meta[..], mem[..], old(alloc), GRANULES)
      ensures CoversAlso(old(holes.holes), holes.holes, collect, before, mark, block, old(alloc), GRANULES)
      ensures Gained(old(holes.holes), holes.holes, before, mark, block)
      ensures HoleSet.HeadersOnly(mem[..], holes.holes)
      ensures (forall y: nat | HoleSet.Covers(holes.holes, y) :: y < mem.Length && mem[..][y] == HoleSet.ZERO)
        <==> HoleSet.SmallAndSingle(holes.holes)
    {
      hide CountFree, Survives, Marked, AtObject, Swept, HoleSet.ZeroIn, HoleSet.Clear, HoleSet.Covers, CoversRange, FreeAt,
        Finished, CoversAlso, Gained, HoleSet.Matches, HoleSet.Apart, HoleSet.BitsMatch, HoleSet.InMemory, HoleSet.HeadersOnly,
        HoleSet.SmallAndSingle;
      ghost var meta0, mem0, a0, held := meta[..], mem[..], alloc, holes.holes;
      SweptInside(before, mark, meta0, alloc, sweep);
      NothingFinished(before, mark, block, collect, meta0, mem0, alloc, sweep);
      NothingCovered(held, collect, before, mark, block, alloc);
      NothingGained(held, before, mark, block);
      var g := Advance(collect, meta0, mem0, a0, held);
      while g != 0
        invariant Valid() && a0 <= alloc && sweep == alloc + g && used == old(used) && (g == 0 ==> sweep == GRANULES)
        invariant Finished(before, mark, block, collect, meta0, mem0, meta[..], mem[..], a0, sweep)
        invariant CoversAlso(held, holes.holes, collect, before, mark, block, a0, alloc)
        invariant Gained(held, holes.holes, before, mark, block)
        decreases GRANULES - sweep, g
      {
        SweptInside(before, mark, meta[..], alloc, sweep);
        g := Advance(collect, meta0, mem0, a0, held);
        SweptInside(before, mark, meta[..], alloc, sweep);
      }
      HoleSet.ValidHeaders(mem[..], holes.buckets[..], holes.lists, holes.holes);
      HoleSet.AllZero(mem[..], holes.buckets[..], holes.lists, holes.holes);
    }
  }

  /** The granules from `lo` to `hi` that no survivor takes. */
  ghost predicate FreeAt(before: seq<nat>, mark: nat, block: nat, lo: nat, hi: nat, y: nat) {
    block + lo <= y < block + hi && !Survives(before, mark, 0, y - block)
  }

  /** Between `lo` and `hi` survivors are as they were, everything else has no metadata, and without
      `collect` is zero; nothing outside has changed. */
  ghost predicate Finished(before: seq<nat>, mark: nat, block: nat, collect: bool, meta0: seq<nat>, mem0: seq<HoleSet.Granule>,
    meta: seq<nat>, mem: seq<HoleSet.Granule>, lo: nat, hi: nat)
  {
    && |meta0| == |meta| == GRANULES && |mem0| == |mem| && block + GRANULES <= |mem|
    && (forall x | 0 <= x < GRANULES :: meta[x] == if lo <= x < hi && !Survives(before, mark, 0, x) then 0 else meta0[x])
    && (forall y | 0 <= y < |mem| && !FreeAt(before, mark, block, lo, hi, y) :: mem[y] == mem0[y])
    && (!collect ==> forall y | 0 <= y < |mem| && FreeAt(before, mark, block, lo, hi, y) :: mem[y] == HoleSet.ZERO)
  }

  /** The set has gained the free granules from `lo` to `hi`, if they are collected, and nothing else. */
  ghost predicate CoversAlso(held: map<nat, nat>, now: map<nat, nat>, collect: bool, before: seq<nat>, mark: nat, block: nat,
    lo: nat, hi: nat)
  {
    forall y: nat :: HoleSet.Covers(now, y) <==> HoleSet.Covers(held, y) || (collect && FreeAt(before, mark, block, lo, hi, y))
  }

  /** The holes of the set are those it held and others that end at a survivor or at the end of the block. */
  ghost predicate Gained(held: map<nat, nat>, now: map<nat, nat>, before: seq<nat>, mark: nat, block: nat) {
    && (forall a | a in held :: a in now && now[a] == held[a])
    && (forall a | a in now && a !in held :: EndsWell(before, mark, block, a + now[a]))
  }

  ghost predicate EndsWell(before: seq<nat>, mark: nat, block: nat, end: int) {
    end == block + GRANULES || Survives(before, mark, 0, end - block)
  }

  lemma NothingGained(held: map<nat, nat>, before: seq<nat>, mark: nat, block: nat)
    ensures Gained(held, held, before, mark, block)
  {
  }

  lemma HoleNew(holes: map<nat, nat>, start: nat, hi: nat)
    requires HoleSet.Clear(holes, start, hi) && forall a | a in holes :: holes[a] > 0
    ensures start < hi ==> start !in holes
  {
  }

  /** The hole at hand ends at a survivor or at the end of the block. */
  lemma GainedHole(held: map<nat, nat>, was: map<nat, nat>, before: seq<nat>, mark: nat, block: nat, now: seq<nat>,
    alloc: nat, sweep: nat)
    requires Gained(held, was, before, mark, block) && Swept(before, mark, now, alloc, sweep)
    requires alloc < sweep < GRANULES ==> Marked(before[sweep], mark)
    ensures alloc < sweep && block + alloc !in was ==> Gained(held, was[block + alloc := sweep - alloc], before, mark, block)
  {
    SweptInside(before, mark, now, alloc, sweep);
    if alloc < sweep < GRANULES { PastSurvivor(before, mark, sweep); }
    hide Survives, AtObject;
  }

  lemma NothingCovered(held: map<nat, nat>, collect: bool, before: seq<nat>, mark: nat, block: nat, lo: nat)
    ensures CoversAlso(held, held, collect, before, mark, block, lo, lo)
  {
  }

  lemma NothingFinished(before: seq<nat>, mark: nat, block: nat, collect: bool, meta: seq<nat>, mem: seq<HoleSet.Granule>,
    alloc: nat, sweep: nat)
    requires Swept(before, mark, meta, alloc, sweep) && block + GRANULES <= |mem|
    requires HoleSet.ZeroIn(mem, block + alloc, block + sweep)
    ensures Finished(before, mark, block, collect, meta, mem, meta, mem, alloc, sweep)
  {
    hide AtObject, Survives;
  }

  /** The hole at hand kept or left. */
  lemma FinishedHole(before: seq<nat>, mark: nat, block: nat, collect: bool, meta0: seq<nat>, mem0: seq<HoleSet.Granule>,
    meta: seq<nat>, was: seq<HoleSet.Granule>, now: seq<HoleSet.Granule>, lo: nat, alloc: nat, sweep: nat)
    requires Finished(before, mark, block, collect, meta0, mem0, meta, was, lo, sweep) && lo <= alloc <= sweep
    requires forall x | alloc <= x < sweep :: !Survives(before, mark, 0, x)
    requires HoleSet.SameBeyond(was, now, block + alloc, if collect then block + sweep else block + alloc)
    ensures Finished(before, mark, block, collect, meta0, mem0, meta, now, lo, sweep)
  {
    hide Survives;
    forall y | 0 <= y < |now| && !FreeAt(before, mark, block, lo, sweep, y) ensures now[y] == mem0[y] {
      assert !(block + alloc <= y < block + sweep);
    }
  }

  lemma SweptHole(before: seq<nat>, mark: nat, now: seq<nat>, alloc: nat, sweep: nat)
    requires Swept(before, mark, now, alloc, sweep)
    ensures alloc <= sweep <= GRANULES == |now| && forall x | alloc <= x < sweep :: !Survives(before, mark, 0, x)
  {
    hide Survives;
  }

  lemma CoversHole(held: map<nat, nat>, was: map<nat, nat>, now: map<nat, nat>, collect: bool, before: seq<nat>, mark: nat,
    block: nat, lo: nat, alloc: nat, sweep: nat)
    requires CoversAlso(held, was, collect, before, mark, block, lo, alloc) && lo <= alloc <= sweep
    requires forall x | alloc <= x < sweep :: !Survives(before, mark, 0, x)
    requires CoversRange(was, now, block + alloc, if collect then block + sweep else block + alloc)
    ensures CoversAlso(held, now, collect, before, mark, block, lo, sweep)
  {
    hide HoleSet.Covers, Survives;
  }

  lemma CoversSkip(held: map<nat, nat>, now: map<nat, nat>, collect: bool, before: seq<nat>, mark: nat, block: nat,
    lo: nat, sweep: nat, alloc: nat)
    requires CoversAlso(held, now, collect, before, mark, block, lo, sweep) && lo <= sweep <= alloc
    requires forall x | sweep <= x < alloc :: Survives(before, mark, 0, x)
    ensures CoversAlso(held, now, collect, before, mark, block, lo, alloc)
  {
    hide HoleSet.Covers, Survives;
  }

  lemma FinishedNext(before: seq<nat>, mark: nat, block: nat, collect: bool, meta0: seq<nat>, mem0: seq<HoleSet.Granule>,
    meta1: seq<nat>, mem1: seq<HoleSet.Granule>, meta: seq<nat>, mem: seq<HoleSet.Granule>, lo: nat, end: nat, alloc: nat, sweep: nat)
    requires Finished(before, mark, block, collect, meta0, mem0, meta1, mem1, lo, end) && lo <= end <= alloc <= sweep
    requires Swept(before, mark, meta, alloc, sweep) && HoleSet.ZeroIn(mem, block + alloc, block + sweep)
    requires forall x | end <= x < alloc :: Survives(before, mark, 0, x)
    requires forall x | 0 <= x < GRANULES && !(alloc <= x < sweep) :: meta[x] == meta1[x]
    requires HoleSet.SameBeyond(mem1, mem, block + alloc, block + sweep)
    ensures Finished(before, mark, block, collect, meta0, mem0, meta, mem, lo, sweep)
  {
    hide AtObject, Survives;
    FreeSplit(before, mark, block, lo, end, alloc, sweep);
  }

  /** What is free up to the end of a hole: what was free before the survivors, and the hole. */
  lemma FreeSplit(before: seq<nat>, mark: nat, block: nat, lo: nat, end: nat, alloc: nat, sweep: nat)
    requires lo <= end <= alloc <= sweep
    requires forall x | end <= x < alloc :: Survives(before, mark, 0, x)
    requires forall x | alloc <= x < sweep :: !Survives(before, mark, 0, x)
    ensures forall y: nat ::
      FreeAt(before, mark, block, lo, sweep, y) <==> FreeAt(before, mark, block, lo, end, y) || block + alloc <= y < block + sweep
  {
    hide Survives;
  }

  lemma ClearApart(holes: map<nat, nat>, start: nat, granules: nat, hi: nat)
    requires HoleSet.Clear(holes, start, hi) && start + granules <= hi
    ensures HoleSet.Separate(map[start := granules], holes)
  {
  }

  lemma ClearPush(holes: map<nat, nat>, start: nat, granules: nat, hi: nat)
    requires HoleSet.Clear(holes, start, hi) && start + granules <= hi
    ensures HoleSet.Clear(holes[start := granules], start + granules, hi)
  {
  }

  /** The set has gained just the granules from `lo` to `hi`. */
  ghost predicate CoversRange(was: map<nat, nat>, now: map<nat, nat>, lo: nat, hi: nat) {
    forall y: nat :: HoleSet.Covers(now, y) <==> HoleSet.Covers(was, y) || lo <= y < hi
  }

  lemma CoversNone(holes: map<nat, nat>, lo: nat)
    ensures CoversRange(holes, holes, lo, lo)
  {
  }

  lemma CoversPush(holes: map<nat, nat>, start: nat, granules: nat)
    requires start !in holes
    ensures CoversRange(holes, holes[start := granules], start, start + granules)
  {
    var now := holes[start := granules];
    forall y: nat ensures HoleSet.Covers(now, y) <==> HoleSet.Covers(holes, y) || start <= y < start + granules {
      if start <= y < start + granules { assert start in now && start <= y < start + now[start]; }
      if HoleSet.Covers(holes, y) {
        var a :| a in holes && a <= y < a + holes[a];
        assert a in now && a <= y < a + now[a];
      }
    }
  }

  lemma SweptWhole(before: seq<nat>, mark: nat, now: seq<nat>, alloc: nat, sweep: nat)
    requires Swept(before, mark, now, alloc, sweep)
    ensures Swept(before, mark, now, sweep, sweep)
  {
    hide AtObject, Survives;
  }

  lemma ClearLess(holes: map<nat, nat>, lo: nat, lo2: nat, hi: nat)
    requires HoleSet.Clear(holes, lo, hi) && lo <= lo2
    ensures HoleSet.Clear(holes, lo2, hi)
  {
  }

  lemma ClearPart(holes: map<nat, nat>, lo: nat, hi: nat, hi2: nat)
    requires HoleSet.Clear(holes, lo, hi2) && hi <= hi2
    ensures HoleSet.Clear(holes, lo, hi)
  {
  }

  lemma ZeroSplit(mem: seq<HoleSet.Granule>, lo: nat, mid: nat, hi: nat)
    requires HoleSet.ZeroIn(mem, lo, hi) && lo <= mid <= hi
    ensures HoleSet.ZeroIn(mem, lo, mid) && HoleSet.ZeroIn(mem, mid, hi)
  {
  }

  /** Metadata written for an object at the front of the hole at hand. */
  lemma SweptBump(before: seq<nat>, mark: nat, was: seq<nat>, now: seq<nat>, alloc: nat, end: nat, sweep: nat)
    requires Swept(before, mark, was, alloc, sweep) && alloc <= end <= sweep && |now| == |was| && Bytes(now)
    requires forall x | 0 <= x < |was| && !(alloc <= x < end) :: now[x] == was[x]
    ensures Swept(before, mark, now, end, sweep)
    ensures forall x | alloc <= x < end :: was[x] == 0
  {
    SweptInside(before, mark, was, alloc, sweep);
    hide AtObject, Survives;
  }

  /** What allocation writes says how long the object is. */
  lemma Written(meta: seq<nat>, start: nat, granules: nat, kind: nat)
    requires TraceKind(kind)
    requires granules > 0 && start + granules <= |meta|
    requires forall x | start < x < start + granules - 1 :: meta[x] == 0
    requires if granules == 1 then meta[start] == YOUNG + kind + END
      else meta[start] == YOUNG + kind && meta[start + granules - 1] == END
    ensures meta[start] % 8 == YOUNG && meta[start] % END == YOUNG + kind && Size(meta, start) == granules
  {
    hide FirstHit, Test.Hits, EndTest;
    var s := meta[start..];
    EndBits(kind);
    FirstHitAt(EndTest(), s, granules - 1);
    SizeIs(meta, start);
  }

  lemma EndBits(kind: nat)
    requires TraceKind(kind)
    ensures !EndTest().Hits(0) && !EndTest().Hits(YOUNG + kind) && EndTest().Hits(END) && EndTest().Hits(YOUNG + kind + END)
  {
    EndBit(0, 0);
    EndBit(YOUNG + kind, 0);
    EndBit(0, 1);
    EndBit(YOUNG + kind, 1);
  }

  /** What the end bit of a byte says. */
  lemma EndBit(low: nat, end: nat)
    requires low < END && end < 2
    ensures And(low + END * end, END) == END * end
  {
    assert Pow2(5) == 32 && Up(end, 5) == END * end && Up(1, 5) == END;
    assert And(end, 1) == end && And(low, 0) == 0;
    hide And, Up;
    SplitAnd(5, end, low, 1, 0);
  }

  lemma SweptMark(before: seq<nat>, mark: nat, now: seq<nat>, alloc: nat, sweep: nat)
    requires Swept(before, mark, now, alloc, sweep)
    ensures 0 < mark < 8 && Bytes(now) && EndTest().Valid() && MarkTest(mark).Valid()
  {
    TestsValid(mark);
  }
}
