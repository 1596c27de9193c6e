/** Each primitive step of the collector keeps the invariant. */
module SemispaceSteps {
  import opened ObjectModel
  import opened SemispaceInvariant

  // ----- copying an object ---------------------------------------------------------------

  function CopyMemory(m: Memory, o: Addr, size: int): Memory
    requires o in m.store && |m.store[o]| > 0
  {
    m.(store := m.store[m.hp := m.store[o]][o := m.store[o][0 := m.hp]], hp := m.hp + size)
  }

  ghost function CopyProgress(g: Progress, o: Addr, n: Addr): Progress {
    g.(at := g.at[o := n], copies := g.copies + [o], places := g.places + [n])
  }

  lemma {:induction false} UnmovedDrops(w: World, objs: seq<Addr>, at: map<Addr, Addr>, o: Addr, n: Addr)
    requires Distinct(objs) && o !in at
    ensures Unmoved(w, objs, at[o := n]) == Unmoved(w, objs, at) - (if o in objs then SizeOf(w, o) else 0)
  {
    if objs != [] {
      assert o in objs <==> objs[0] == o || o in objs[1..];
      UnmovedDrops(w, objs[1..], at, o, n);
    }
  }

  /** New addresses found later do not change what a done slot holds. */
  lemma NowStable(w: World, g: Progress, g2: Progress, x: Addr, o: Object)
    requires DoneOk(w, g)
    requires forall y | y in g.at :: y in g2.at && g2.at[y] == g.at[y]
    requires forall j :: (x, j) in g.done <==> (x, j) in g2.done
    requires x in g.status <==> x in g2.status
    requires x in g.status ==> g.status[x] == g2.status[x]
    requires Shows(w, g, x, o)
    ensures Shows(w, g2, x, o)
  {
    forall j | 0 <= j < |o|
      ensures Now(w, g, x, j) == Now(w, g2, x, j)
    {
    }
  }

  lemma CopyFits(w: World, m: Memory, g: Progress, o: Addr)
    requires CopiesOk(w, m, g) && Distinct(w.layout) && o in w.layout && o !in g.at
    ensures m.hp + SizeOf(w, o) <= w.toBase + (w.fromEnd - w.fromBase)
    ensures Unmoved(w, w.layout, g.at[o := m.hp]) == Unmoved(w, w.layout, g.at) - SizeOf(w, o)
  {
    UnmovedDrops(w, w.layout, g.at, o, m.hp);
  }

  lemma TilesGrow(w: World, objs: seq<Addr>, places: seq<Addr>, base: int, end: int, o: Addr)
    requires Tiles(w, objs, places, base, end)
    ensures Tiles(w, objs + [o], places + [end], base, end + SizeOf(w, o))
  {
    var places2, end2 := places + [end], end + SizeOf(w, o);
    forall i | 0 <= i < |objs + [o]|
      ensures places2[i] + SizeOf(w, (objs + [o])[i]) == PlaceOf(places2, end2, i + 1)
    {
      if i < |objs| {
        assert places[i] + SizeOf(w, objs[i]) == PlaceOf(places, end, i + 1);
      }
    }
  }

  lemma CopyCopies(w: World, m: Memory, g: Progress, o: Addr, m2: Memory)
    requires CopiesOk(w, m, g) && Distinct(w.layout) && o in w.layout && o !in g.at && o !in g.copies
    requires m2.hp == m.hp + SizeOf(w, o) && SizeOf(w, o) % 8 == 0
    ensures CopiesOk(w, m2, CopyProgress(g, o, m.hp))
  {
    hide Tiles;
    CopyFits(w, m, g, o);
    TilesGrow(w, g.copies, g.places, w.toBase, m.hp, o);
  }

  lemma CopyPlaces(w: World, m: Memory, g: Progress, o: Addr, m2: Memory)
    requires WellFormed(w) && PlacesOk(w, m, g) && o in w.layout && o !in g.at
    requires forall x | x in g.at :: g.at[x] != m.hp
    requires m2.hp > m.hp >= w.toBase && m.hp % 8 == 0
    ensures PlacesOk(w, m2, CopyProgress(g, o, m.hp))
  {
    var g2 := CopyProgress(g, o, m.hp);
    assert g2.copies[|g.copies|] == o;
    assert forall p | p in g.copies :: p in g2.copies;
  }

  lemma CopyForward(w: World, m: Memory, g: Progress, o: Addr)
    requires WellFormed(w) && ForwardOk(w, m, g) && o in w.layout && o !in g.at
    requires m.hp !in w.layout && m.hp !in w.large
    ensures ForwardOk(w, CopyMemory(m, o, SizeOf(w, o)), CopyProgress(g, o, m.hp))
  {
  }

  lemma CopyContents(w: World, m: Memory, g: Progress, o: Addr)
    requires WellFormed(w) && ForwardOk(w, m, g) && Contents(w, m, g) && DoneOk(w, g)
    requires o in w.layout && o !in g.at && Untouched(g, o)
    requires forall x | x in g.at :: g.at[x] != m.hp && g.at[x] != o
    requires m.hp != o
    ensures Contents(w, CopyMemory(m, o, SizeOf(w, o)), CopyProgress(g, o, m.hp))
  {
    var m2, g2 := CopyMemory(m, o, SizeOf(w, o)), CopyProgress(g, o, m.hp);
    forall x | x in g2.at
      ensures g2.at[x] in m2.store && Shows(w, g2, x, m2.store[g2.at[x]])
    {
      if x == o {
        assert m2.store[m.hp] == w.store[o];
        assert forall j | 0 <= j < |w.store[o]| :: Now(w, g2, o, j) == w.store[o][j];
      } else {
        NowStable(w, g, g2, x, m.store[g.at[x]]);
      }
    }
  }

  /** Lists of ephemerons are not disturbed by finding more objects. */
  lemma ListsStable(w: World, m: Memory, g: Progress, m2: Memory, g2: Progress)
    requires BucketsOk(w, m, g) && QueueOk(m.resolved + g.work, g)
    requires forall y | y in g.at :: y in g2.at && g2.at[y] == g.at[y]
    requires g2.status == g.status && g2.work == g.work
    requires m2.buckets == m.buckets && m2.resolved == m.resolved
    ensures BucketsOk(w, m2, g2) && QueueOk(m2.resolved + g2.work, g2)
  {
    forall link | Published(g, link) ensures Published(g2, link) {
      var e :| Names(g, link, e) && !g.status[e].Claimed?;
      assert Names(g2, link, e);
    }
    forall link | Queued(g, link) ensures Queued(g2, link) {
      var e :| Names(g, link, e) && g.status[e].Resolved?;
      assert Names(g2, link, e);
    }
  }

  lemma RootsStable(w: World, m: Memory, g: Progress, m2: Memory, g2: Progress)
    requires RootsOk(w, m, g)
    requires forall y | y in g.at :: y in g2.at && g2.at[y] == g.at[y]
    requires m2.roots == m.roots && g2.rootsDone == g.rootsDone
    ensures RootsOk(w, m2, g2)
  {
  }

  lemma StatusStable(w: World, g: Progress, g2: Progress)
    requires forall e | e in g.status :: StatusOk(w, g, e)
    requires forall y | y in g.at :: y in g2.at
    requires g2.status == g.status && g2.done == g.done
    ensures forall e | e in g2.status :: StatusOk(w, g2, e)
  {
    forall e | e in g2.status ensures StatusOk(w, g2, e) { assert StatusOk(w, g, e); }
  }

  lemma GreyStable(w: World, g: Progress, o: Addr, n: Addr)
    requires GreyOk(w, g) && DoneOk(w, g) && Untouched(g, o)
    ensures GreyOk(w, CopyProgress(g, o, n)) && DoneOk(w, CopyProgress(g, o, n))
  {
  }

  lemma UnfoundUntouched(w: World, g: Progress, x: Addr)
    requires DoneOk(w, g) && (forall e | e in g.status :: StatusOk(w, g, e)) && x !in g.at
    ensures Untouched(g, x)
  {
  }

  lemma SizeAligned(w: World, o: Addr)
    ensures SizeOf(w, o) % 8 == 0
  {
  }

  lemma CopyFacts(w: World, m: Memory, g: Progress, o: Addr)
    requires WellFormed(w) && ForwardOk(w, m, g) && CopiesOk(w, m, g) && PlacesOk(w, m, g) && o in w.layout && o !in g.at
    ensures Distinct(w.layout) && SizeOf(w, o) > 0 && o !in g.copies
    ensures o in m.store && m.store[o] == w.store[o] && |w.store[o]| > 0
    ensures w.toBase <= m.hp && m.hp % 8 == 0 && m.hp + SizeOf(w, o) <= w.toBase + (w.fromEnd - w.fromBase)
    ensures m.hp !in w.layout && m.hp !in w.large
    ensures forall x | x in g.at :: g.at[x] != m.hp && g.at[x] != o
  {
    CopyFits(w, m, g, o);
  }

  lemma KeysWhenFound(w: World, m: Memory, g: Progress, x: Addr, m2: Memory, g2: Progress)
    requires KeysOk(w, m, g, 0) && (forall e | e in g.status :: StatusOk(w, g, e))
    requires m2.checking == m.checking && g2.status == g.status && g2.at.Keys == g.at.Keys + {x}
    ensures KeysOk(w, m2, g2, x)
  {
    assert forall k :: k in g2.at ==> k in g2.at.Keys;
  }

  lemma CopyStep(w: World, m: Memory, g: Progress, o: Addr)
    requires WellFormed(w) && Inv(w, m, g, 0) && o in w.layout && o !in g.at
    requires Needed(w, g.at.Keys + {o})
    ensures o in m.store && m.store[o] == w.store[o] && |w.store[o]| > 0
    ensures m.hp + SizeOf(w, o) <= w.toBase + (w.fromEnd - w.fromBase)
    ensures Inv(w, CopyMemory(m, o, SizeOf(w, o)), CopyProgress(g, o, m.hp), o)
  {
    hide Contents, DoneOk, StatusOk, BucketsOk, QueueOk, RootsOk, CopiesOk, PlacesOk, ForwardOk, KeysOk, GreyOk, Needed, WellFormed, Shows;
    CopyFacts(w, m, g, o);
    var m2, g2 := CopyMemory(m, o, SizeOf(w, o)), CopyProgress(g, o, m.hp);
    UnfoundUntouched(w, g, o);
    SizeAligned(w, o);
    CopyCopies(w, m, g, o, m2);
    CopyPlaces(w, m, g, o, m2);
    CopyForward(w, m, g, o);
    CopyContents(w, m, g, o);
    ListsStable(w, m, g, m2, g2);
    RootsStable(w, m, g, m2, g2);
    StatusStable(w, g, g2);
    GreyStable(w, g, o, m.hp);
    assert g2.at.Keys == g.at.Keys + {o};
    KeysWhenFound(w, m, g, o, m2, g2);
  }

  // ----- marking a large object ----------------------------------------------------------

  ghost function MarkProgress(g: Progress, x: Addr): Progress {
    g.(at := g.at[x := x])
  }

  lemma MarkContents(w: World, m: Memory, g: Progress, x: Addr)
    requires WellFormed(w) && ForwardOk(w, m, g) && Contents(w, m, g) && DoneOk(w, g)
    requires x in w.large && x !in g.at && Untouched(g, x)
    ensures Contents(w, m.(marked := m.marked + {x}), MarkProgress(g, x))
  {
    var g2 := MarkProgress(g, x);
    forall y | y in g2.at
      ensures g2.at[y] in m.store && Shows(w, g2, y, m.store[g2.at[y]])
    {
      if y != x {
        NowStable(w, g, g2, y, m.store[g.at[y]]);
      }
    }
  }

  lemma MarkSpaces(w: World, m: Memory, g: Progress, x: Addr)
    requires WellFormed(w) && ForwardOk(w, m, g) && CopiesOk(w, m, g) && PlacesOk(w, m, g)
    requires m.hp <= w.toBase + w.active
    requires x in w.large && x !in g.at
    ensures var m2, g2 := m.(marked := m.marked + {x}), MarkProgress(g, x);
            ForwardOk(w, m2, g2) && CopiesOk(w, m2, g2) && PlacesOk(w, m2, g2)
  {
    UnmovedDrops(w, w.layout, g.at, x, x);
  }

  lemma HpInside(w: World, m: Memory, g: Progress)
    requires WellFormed(w) && CopiesOk(w, m, g)
    ensures m.hp <= w.toBase + w.active
  {
  }

  lemma MarkStep(w: World, m: Memory, g: Progress, x: Addr)
    requires WellFormed(w) && Inv(w, m, g, 0) && x in w.large && x !in g.at
    requires Needed(w, g.at.Keys + {x})
    ensures Inv(w, m.(marked := m.marked + {x}), MarkProgress(g, x), x)
  {
    hide Contents, DoneOk, StatusOk, BucketsOk, QueueOk, RootsOk, CopiesOk, PlacesOk, ForwardOk, KeysOk, GreyOk, Needed, WellFormed, Shows;
    var m2, g2 := m.(marked := m.marked + {x}), MarkProgress(g, x);
    UnfoundUntouched(w, g, x);
    HpInside(w, m, g);
    MarkSpaces(w, m, g, x);
    MarkContents(w, m, g, x);
    ListsStable(w, m, g, m2, g2);
    RootsStable(w, m, g, m2, g2);
    StatusStable(w, g, g2);
    MarkGrey(w, g, x);
    assert g2.at.Keys == g.at.Keys + {x};
    KeysWhenFound(w, m, g, x, m2, g2);
  }

  lemma MarkGrey(w: World, g: Progress, x: Addr)
    requires GreyOk(w, g) && DoneOk(w, g)
    ensures GreyOk(w, MarkProgress(g, x)) && (x !in g.at ==> DoneOk(w, MarkProgress(g, x)))
  {
  }

  // ----- writing into one object ---------------------------------------------------------

  /** `g2` differs from `g` only in what it says about `x`. */
  ghost predicate OnlyAbout(g: Progress, g2: Progress, x: Addr) {
    && g2.at == g.at && g2.copies == g.copies && g2.places == g.places && g2.started == g.started
    && g2.rootsDone == g.rootsDone
    && (forall y, j | y != x :: (y, j) in g.done <==> (y, j) in g2.done)
    && (forall y | y != x :: y in g.status <==> y in g2.status)
    && (forall y | y != x && y in g.status && y in g2.status :: g.status[y] == g2.status[y])
  }

  ghost predicate Begun(g: Progress, x: Addr) {
    forall i | g.started <= i < |g.copies| :: g.copies[i] != x
  }

  function Write(m: Memory, a: Addr, o: Object): Memory {
    m.(store := m.store[a := o])
  }

  lemma WriteKeeps(w: World, m: Memory, g: Progress, x: Addr, o: Object, g2: Progress)
    requires WellFormed(w) && ForwardOk(w, m, g) && PlacesOk(w, m, g) && Contents(w, m, g)
    requires m.hp <= w.toBase + w.active
    requires DoneOk(w, g) && x in g.at && OnlyAbout(g, g2, x) && Shows(w, g2, x, o)
    ensures ForwardOk(w, Write(m, g.at[x], o), g2) && Contents(w, Write(m, g.at[x], o), g2)
  {
    var m2 := Write(m, g.at[x], o);
    assert g.at[x] !in w.layout;
    forall y | y in g2.at
      ensures g2.at[y] in m2.store && Shows(w, g2, y, m2.store[g2.at[y]])
    {
      if y != x {
        NowStable(w, g, g2, y, m.store[g.at[y]]);
      }
    }
  }

  lemma GreyKept(w: World, g: Progress, x: Addr, g2: Progress)
    requires GreyOk(w, g) && OnlyAbout(g, g2, x) && Begun(g, x)
    ensures GreyOk(w, g2)
  {
    forall i | g2.started <= i < |g2.copies| ensures Untouched(g2, g2.copies[i]) {
      assert Untouched(g, g.copies[i]);
    }
  }

  /** A write into the current version of `x`, together with what becomes known about `x`. */
  lemma WriteStep(w: World, m: Memory, g: Progress, x: Addr, m2: Memory, g2: Progress, busy: Addr)
    requires WellFormed(w) && Inv(w, m, g, busy)
    requires x in g.at && g.at[x] in m2.store && Begun(g, x) && OnlyAbout(g, g2, x)
    requires m2 == Write(m, g.at[x], m2.store[g.at[x]]).(buckets := m2.buckets, resolved := m2.resolved)
    requires Shows(w, g2, x, m2.store[g.at[x]]) && DoneOk(w, g2)
    requires x in g2.status ==> StatusOk(w, g2, x)
    requires BucketsOk(w, m2, g2) && QueueOk(m2.resolved + g2.work, g2) && KeysOk(w, m2, g2, busy)
    ensures Inv(w, m2, g2, busy)
  {
    hide Contents, DoneOk, StatusOk, BucketsOk, QueueOk, RootsOk, CopiesOk, PlacesOk, ForwardOk, KeysOk, GreyOk, Needed, WellFormed, Shows;
    HpInside(w, m, g);
    WriteKeeps(w, m, g, x, m2.store[g.at[x]], g2);
    SpacesStable(w, m, g, m2, g2);
    ForwardStable(w, Write(m, g.at[x], m2.store[g.at[x]]), g2, m2, g2);
    ContentsStable(w, Write(m, g.at[x], m2.store[g.at[x]]), g2, m2, g2);
    OthersStatus(w, g, x, g2);
    RootsStable(w, m, g, m2, g2);
    GreyKept(w, g, x, g2);
  }

  lemma OthersStatus(w: World, g: Progress, x: Addr, g2: Progress)
    requires OnlyAbout(g, g2, x) && (forall e | e in g.status :: StatusOk(w, g, e))
    requires x in g2.status ==> StatusOk(w, g2, x)
    ensures forall e | e in g2.status :: StatusOk(w, g2, e)
  {
    forall e | e in g2.status ensures StatusOk(w, g2, e) {
      if e != x { assert StatusOk(w, g, e); }
    }
  }

  // ----- updating one slot ---------------------------------------------------------------

  ghost function SlotProgress(g: Progress, x: Addr, j: int): Progress {
    g.(done := g.done + {(x, j)})
  }

  /** When an ephemeron may have slot `j` updated. */
  ghost predicate MayUpdate(w: World, g: Progress, x: Addr, j: int) {
    if x in w.ephemerons then
      && x in g.status
      && match g.status[x]
         case Claimed => (j == KEY ==> !Dead(w, x)) && (j == VALUE ==> (x, KEY) in g.done)
         case Resolved => j == VALUE
         case _ => false
    else x !in g.status
  }

  ghost function UpdatedMemory(w: World, m: Memory, g: Progress, x: Addr, j: int): Memory
    requires x in g.at && g.at[x] in m.store && 0 <= j < |m.store[g.at[x]]|
  {
    Write(m, g.at[x], m.store[g.at[x]][j := Image(g.at, Target(w, x, j))])
  }

  lemma SlotShows(w: World, g: Progress, x: Addr, j: int, o: Object)
    requires Shows(w, g, x, o) && 0 <= j < |o|
    ensures Shows(w, SlotProgress(g, x, j), x, o[j := Image(g.at, Target(w, x, j))])
  {
  }

  lemma SlotKeeps(w: World, g: Progress, x: Addr, j: int)
    requires DoneOk(w, g) && x in g.at && Traced(w, x, j) && Found(g.at, Target(w, x, j))
    requires MayUpdate(w, g, x, j) && (x in g.status ==> StatusOk(w, g, x))
    ensures DoneOk(w, SlotProgress(g, x, j))
    ensures x in g.status ==> StatusOk(w, SlotProgress(g, x, j), x)
  {
  }

  lemma SlotStep(w: World, m: Memory, g: Progress, x: Addr, j: int, busy: Addr)
    requires WellFormed(w) && Inv(w, m, g, busy)
    requires x in g.at && Traced(w, x, j) && Found(g.at, Target(w, x, j)) && Begun(g, x) && MayUpdate(w, g, x, j)
    ensures g.at[x] in m.store && 0 < j < |m.store[g.at[x]]|
    ensures Inv(w, UpdatedMemory(w, m, g, x, j), SlotProgress(g, x, j), busy)
  {
    hide Contents, DoneOk, StatusOk, BucketsOk, QueueOk, RootsOk, CopiesOk, PlacesOk, ForwardOk, KeysOk, GreyOk, Needed, WellFormed, Shows;
    SlotInside(w, m, g, x, j);
    var m2, g2 := UpdatedMemory(w, m, g, x, j), SlotProgress(g, x, j);
    SlotShows(w, g, x, j, m.store[g.at[x]]);
    SlotKeeps(w, g, x, j);
    KeysStable(w, m, g, g2, busy);
    ListsStable(w, m, g, m2, g2);
    KeysOkay(w, m, g2, m2, busy);
    WriteStep(w, m, g, x, m2, g2, busy);
  }

  lemma SlotInside(w: World, m: Memory, g: Progress, x: Addr, j: int)
    requires WellFormed(w) && ForwardOk(w, m, g) && Contents(w, m, g) && x in g.at && Traced(w, x, j)
    ensures g.at[x] in m.store && 0 < j < |m.store[g.at[x]]| && Shows(w, g, x, m.store[g.at[x]])
  {
    assert Known(w, x);
    if x !in w.ephemerons {
      assert 0 < 8 * j < SizeOf(w, x);
    }
  }

  // ----- updating one root ---------------------------------------------------------------

  lemma RootStep(w: World, m: Memory, g: Progress, busy: Addr)
    requires Inv(w, m, g, busy) && g.rootsDone < |w.roots| && Found(g.at, w.roots[g.rootsDone])
    ensures |m.roots| == |w.roots|
    ensures Inv(w, m.(roots := m.roots[g.rootsDone := Image(g.at, w.roots[g.rootsDone])]), g.(rootsDone := g.rootsDone + 1), busy)
  {
    hide Contents, DoneOk, StatusOk, BucketsOk, QueueOk, RootsOk, CopiesOk, PlacesOk, ForwardOk, KeysOk, GreyOk, Needed, WellFormed, Shows;
    RootUpdated(w, m, g);
    var m2, g2 := m.(roots := m.roots[g.rootsDone := Image(g.at, w.roots[g.rootsDone])]), g.(rootsDone := g.rootsDone + 1);
    ListsStable(w, m, g, m2, g2);
    StatusStable(w, g, g2);
    GreyStays(w, g, g2);
    ContentsStable(w, m, g, m2, g2);
    DoneStable(w, g, g2);
    ForwardStable(w, m, g, m2, g2);
    SpacesStable(w, m, g, m2, g2);
    KeysStable(w, m, g, g2, busy);
    KeysOkay(w, m, g2, m2, busy);
  }

  lemma RootUpdated(w: World, m: Memory, g: Progress)
    requires RootsOk(w, m, g) && g.rootsDone < |w.roots| && Found(g.at, w.roots[g.rootsDone])
    ensures |m.roots| == |w.roots|
    ensures RootsOk(w, m.(roots := m.roots[g.rootsDone := Image(g.at, w.roots[g.rootsDone])]), g.(rootsDone := g.rootsDone + 1))
  {
  }

  lemma GreyStays(w: World, g: Progress, g2: Progress)
    requires GreyOk(w, g) && g2.done == g.done && g2.status == g.status && g2.copies == g.copies && g2.started == g.started
    ensures GreyOk(w, g2)
  {
    forall i | g2.started <= i < |g2.copies| ensures Untouched(g2, g2.copies[i]) {
      assert Untouched(g, g.copies[i]);
    }
  }

  lemma DoneStable(w: World, g: Progress, g2: Progress)
    requires DoneOk(w, g) && g2.done == g.done && g2.status == g.status && g2.at == g.at
    ensures DoneOk(w, g2)
  {
  }

  lemma ForwardStable(w: World, m: Memory, g: Progress, m2: Memory, g2: Progress)
    requires ForwardOk(w, m, g) && m2.store == m.store && m2.marked == m.marked && g2.at == g.at
    ensures ForwardOk(w, m2, g2)
  {
  }

  lemma ContentsStable(w: World, m: Memory, g: Progress, m2: Memory, g2: Progress)
    requires Contents(w, m, g) && DoneOk(w, g) && m2.store == m.store && g2.at == g.at && g2.done == g.done && g2.status == g.status
    ensures Contents(w, m2, g2)
  {
    forall x | x in g2.at ensures g2.at[x] in m2.store && Shows(w, g2, x, m2.store[g2.at[x]]) {
      NowStable(w, g, g2, x, m.store[g.at[x]]);
    }
  }

  // ----- ephemerons ----------------------------------------------------------------------

  ghost function StatusProgress(g: Progress, e: Addr, s: Status): Progress {
    g.(status := g.status[e := s])
  }

  /** Publication and queueing survive a status change of `e` that does not involve the queue. */
  lemma ListsAfterStatus(w: World, m: Memory, g: Progress, e: Addr, s: Status)
    requires BucketsOk(w, m, g) && QueueOk(m.resolved + g.work, g)
    requires s.Claimed? ==> e !in g.status
    requires !s.Pending? && !s.Resolved? && e in g.at
    requires e in g.status ==> g.status[e].Claimed?
    ensures BucketsOk(w, m, StatusProgress(g, e, s)) && QueueOk(m.resolved + g.work, StatusProgress(g, e, s))
  {
    var g2 := StatusProgress(g, e, s);
    forall link | Published(g, link) ensures Published(g2, link) {
      var d :| Names(g, link, d) && !g.status[d].Claimed?;
      assert Names(g2, link, d);
    }
    forall link | Queued(g, link) ensures Queued(g2, link) {
      var d :| Names(g, link, d) && g.status[d].Resolved?;
      assert Names(g2, link, d);
    }
  }

  /** TRACED to CLAIMED, with the new epoch and the chain moved past dead successors. */
  lemma ClaimStep(w: World, m: Memory, g: Progress, e: Addr, busy: Addr)
    requires WellFormed(w) && Inv(w, m, g, busy)
    requires e in w.ephemerons && e in g.at && e !in g.status && Begun(g, e)
    ensures g.at[e] in m.store && |m.store[g.at[e]]| == 6
    ensures var o := m.store[g.at[e]][STATE := 1][EPOCH := w.epoch][CHAIN := Target(w, e, CHAIN)];
            Inv(w, Write(m, g.at[e], o), StatusProgress(g, e, Claimed), busy)
  {
    hide Contents, DoneOk, StatusOk, BucketsOk, QueueOk, RootsOk, CopiesOk, PlacesOk, ForwardOk, KeysOk, GreyOk, Needed, WellFormed, Shows;
    EphemeronInside(w, m, g, e);
    var o := m.store[g.at[e]];
    var o2 := o[STATE := 1][EPOCH := w.epoch][CHAIN := Target(w, e, CHAIN)];
    var m2, g2 := Write(m, g.at[e], o2), StatusProgress(g, e, Claimed);
    ClaimShows(w, g, e, o, o2);
    ClaimKeeps(w, g, e);
    ListsAfterStatus(w, m, g, e, Claimed);
    ListsStable(w, m, g2, m2, g2);
    KeysAfterStatus(w, m, g, e, Claimed, m2, busy);
    WriteStep(w, m, g, e, m2, g2, busy);
  }

  lemma KeysAfterStatus(w: World, m: Memory, g: Progress, e: Addr, s: Status, m2: Memory, busy: Addr)
    requires KeysOk(w, m, g, busy) && !s.Pending? && m2.checking == m.checking
    ensures KeysOk(w, m2, StatusProgress(g, e, s), busy)
  {
  }

  lemma EphemeronInside(w: World, m: Memory, g: Progress, e: Addr)
    requires WellFormed(w) && ForwardOk(w, m, g) && Contents(w, m, g) && e in g.at && e in w.ephemerons
    ensures g.at[e] in m.store && |m.store[g.at[e]]| == 6 && Shows(w, g, e, m.store[g.at[e]])
  {
    assert Known(w, e);
  }

  lemma ClaimShows(w: World, g: Progress, e: Addr, o: Object, o2: Object)
    requires Shows(w, g, e, o) && |o| == 6 && e in w.ephemerons && e !in g.status && DoneOk(w, g)
    requires o2 == o[STATE := 1][EPOCH := w.epoch][CHAIN := Target(w, e, CHAIN)]
    ensures Shows(w, StatusProgress(g, e, Claimed), e, o2)
  {
  }

  lemma ClaimKeeps(w: World, g: Progress, e: Addr)
    requires DoneOk(w, g) && e in w.ephemerons && e !in g.status && e in g.at
    ensures DoneOk(w, StatusProgress(g, e, Claimed)) && StatusOk(w, StatusProgress(g, e, Claimed), e)
  {
  }

  lemma StatusShows(w: World, g: Progress, e: Addr, s: Status, o: Object)
    requires DoneOk(w, g) && e in w.ephemerons && e in g.status && Shows(w, g, e, o) && |o| == 6
    ensures Shows(w, StatusProgress(g, e, s), e, o[STATE := Code(s)])
  {
  }

  /** Tracing of `e` is over: it was dead, or its value has been traced. */
  ghost predicate ReadyToFinish(w: World, g: Progress, e: Addr) {
    && e in g.status
    && (e, CHAIN) in g.done
    && ((e, KEY) in g.done <==> !Dead(w, e))
    && ((e, VALUE) in g.done <==> !Dead(w, e))
  }

  /** CLAIMED to TRACED. */
  lemma FinishStep(w: World, m: Memory, g: Progress, e: Addr, busy: Addr)
    requires WellFormed(w) && Inv(w, m, g, busy)
    requires e in w.ephemerons && e in g.at && e in g.status && g.status[e].Claimed? && Begun(g, e) && ReadyToFinish(w, g, e)
    ensures g.at[e] in m.store && |m.store[g.at[e]]| == 6
    ensures Inv(w, Write(m, g.at[e], m.store[g.at[e]][STATE := 0]), StatusProgress(g, e, Finished), busy)
  {
    hide Contents, DoneOk, StatusOk, BucketsOk, QueueOk, RootsOk, CopiesOk, PlacesOk, ForwardOk, KeysOk, GreyOk, Needed, WellFormed, Shows;
    EphemeronInside(w, m, g, e);
    var o := m.store[g.at[e]];
    var m2, g2 := Write(m, g.at[e], o[STATE := 0]), StatusProgress(g, e, Finished);
    StatusShows(w, g, e, Finished, o);
    FinishKeeps(w, g, e);
    ListsAfterStatus(w, m, g, e, Finished);
    ListsStable(w, m, g2, m2, g2);
    KeysAfterStatus(w, m, g, e, Finished, m2, busy);
    WriteStep(w, m, g, e, m2, g2, busy);
  }

  lemma FinishKeeps(w: World, g: Progress, e: Addr)
    requires DoneOk(w, g) && e in w.ephemerons && e in g.at && ReadyToFinish(w, g, e)
    ensures DoneOk(w, StatusProgress(g, e, Finished)) && StatusOk(w, StatusProgress(g, e, Finished), e)
  {
  }

  /** RESOLVED to TRACED, for the head of the list being traced. */
  lemma FinishResolvedStep(w: World, m: Memory, g: Progress, e: Addr)
    requires WellFormed(w) && Inv(w, m, g, 0)
    requires e in w.ephemerons && e in g.at && e in g.status && g.status[e].Resolved? && Begun(g, e) && (e, VALUE) in g.done
    requires g.work != [] && g.work[0] == g.at[e]
    ensures g.at[e] in m.store && |m.store[g.at[e]]| == 6
    ensures Inv(w, Write(m, g.at[e], m.store[g.at[e]][STATE := 0]), StatusProgress(g, e, Finished).(work := g.work[1..]), 0)
  {
    hide Contents, DoneOk, StatusOk, BucketsOk, QueueOk, RootsOk, CopiesOk, PlacesOk, ForwardOk, KeysOk, GreyOk, Needed, WellFormed, Shows;
    ResolvedReady(w, g, e);
    EphemeronInside(w, m, g, e);
    var o := m.store[g.at[e]];
    var g1 := StatusProgress(g, e, Finished);
    var m2, g2 := Write(m, g.at[e], o[STATE := 0]), g1.(work := g.work[1..]);
    StatusShows(w, g, e, Finished, o);
    ShowsStable(w, g1, g2, e, o[STATE := 0]);
    FinishKeeps(w, g, e);
    KeepsStable(w, g1, g2, e);
    PopKeepsBuckets(w, m, g, e, m2, g2);
    PopKeepsQueue(w, m, g, e, g2);
    KeysAfterStatus(w, m, g, e, Finished, m2, 0);
    KeysStable(w, m2, g1, g2, 0);
    WriteStep(w, m, g, e, m2, g2, 0);
  }

  lemma ResolvedReady(w: World, g: Progress, e: Addr)
    requires e in g.status && StatusOk(w, g, e) && g.status[e].Resolved? && (e, VALUE) in g.done
    ensures ReadyToFinish(w, g, e)
  {
  }

  lemma ShowsStable(w: World, g: Progress, g2: Progress, x: Addr, o: Object)
    requires Shows(w, g, x, o) && g2.done == g.done && g2.status == g.status && g2.at == g.at
    ensures Shows(w, g2, x, o)
  {
  }

  lemma KeysStable(w: World, m: Memory, g: Progress, g2: Progress, busy: Addr)
    requires KeysOk(w, m, g, busy) && g2.status == g.status && g2.at == g.at
    ensures KeysOk(w, m, g2, busy)
  {
  }

  lemma KeepsStable(w: World, g: Progress, g2: Progress, e: Addr)
    requires DoneOk(w, g) && e in g.status && StatusOk(w, g, e)
    requires g2.done == g.done && g2.status == g.status && g2.at == g.at
    ensures DoneOk(w, g2) && StatusOk(w, g2, e)
  {
  }

  lemma PopKeepsBuckets(w: World, m: Memory, g: Progress, e: Addr, m2: Memory, g2: Progress)
    requires BucketsOk(w, m, g) && e in g.status && !g.status[e].Pending?
    requires g2 == StatusProgress(g, e, Finished).(work := g2.work) && m2.buckets == m.buckets
    ensures BucketsOk(w, m2, g2)
  {
    forall link | Published(g, link) ensures Published(g2, link) {
      var d :| Names(g, link, d) && !g.status[d].Claimed?;
      assert Names(g2, link, d);
    }
  }

  lemma PopKeepsQueue(w: World, m: Memory, g: Progress, e: Addr, g2: Progress)
    requires QueueOk(m.resolved + g.work, g) && e in g.status && e in g.at
    requires g.work != [] && g.work[0] == g.at[e]
    requires PlacesOk(w, m, g)
    requires g2 == StatusProgress(g, e, Finished).(work := g.work[1..])
    ensures QueueOk(m.resolved + g2.work, g2)
  {
    var queue, queue2 := m.resolved + g.work, m.resolved + g2.work;
    var n := |m.resolved|;
    assert forall i | 0 <= i < |queue2| :: queue2[i] == queue[if i < n then i else i + 1];
    assert queue[n] == g.at[e];
    forall i | 0 <= i < |queue2| ensures Queued(g2, queue2[i]) {
      assert Queued(g, queue2[i]);
      var d :| Names(g, queue2[i], d) && g.status[d].Resolved?;
      assert Names(g2, queue2[i], d);
    }
    forall d | d in g2.status && g2.status[d].Resolved? ensures d in g2.at && g2.at[d] in queue2 {
      var i :| 0 <= i < |queue| && queue[i] == g.at[d];
      assert queue2[if i < n then i else i - 1] == g.at[d];
    }
  }

  /** CLAIMED to PENDING: `e` is published in the bucket of its key. */
  lemma PublishStep(w: World, m: Memory, g: Progress, e: Addr, busy: Addr)
    requires WellFormed(w) && Inv(w, m, g, busy)
    requires e in w.ephemerons && e in g.at && e in g.status && g.status[e].Claimed? && Begun(g, e)
    requires (e, CHAIN) in g.done && (e, KEY) !in g.done && Pointer(Word(w, e, KEY)) && Word(w, e, KEY) !in g.at
    ensures g.at[e] in m.store && |m.store[g.at[e]]| == 6 && 0 <= BucketOf(w, e) < |m.buckets|
    ensures var b := BucketOf(w, e);
            Inv(w, Write(m, g.at[e], m.store[g.at[e]][STATE := 2]).(buckets := m.buckets[b := [g.at[e]] + m.buckets[b]]),
                StatusProgress(g, e, Pending), busy)
  {
    hide Contents, DoneOk, StatusOk, BucketsOk, QueueOk, RootsOk, CopiesOk, PlacesOk, ForwardOk, KeysOk, GreyOk, Needed, WellFormed, Shows;
    PublishReady(w, m, g, e);
    EphemeronInside(w, m, g, e);
    var o, b := m.store[g.at[e]], BucketOf(w, e);
    var m2 := Write(m, g.at[e], o[STATE := 2]).(buckets := m.buckets[b := [g.at[e]] + m.buckets[b]]);
    var g2 := StatusProgress(g, e, Pending);
    StatusShows(w, g, e, Pending, o);
    PublishKeepsBuckets(w, m, g, e, m2);
    PublishKeepsQueue(w, m, g, e);
    PublishKeepsKeys(w, m, g, e, m2, busy);
    WriteStep(w, m, g, e, m2, g2, busy);
  }

  lemma PublishReady(w: World, m: Memory, g: Progress, e: Addr)
    requires WellFormed(w) && BucketsOk(w, m, g) && DoneOk(w, g) && e in g.status && StatusOk(w, g, e) && g.status[e].Claimed?
    requires (e, CHAIN) in g.done && (e, KEY) !in g.done && Pointer(Word(w, e, KEY))
    ensures 0 <= BucketOf(w, e) < |m.buckets|
    ensures DoneOk(w, StatusProgress(g, e, Pending)) && StatusOk(w, StatusProgress(g, e, Pending), e)
  {
  }

  lemma PublishKeepsBuckets(w: World, m: Memory, g: Progress, e: Addr, m2: Memory)
    requires BucketsOk(w, m, g) && e in g.at && e in g.status && 0 <= BucketOf(w, e) < |m.buckets|
    requires m2.buckets == m.buckets[BucketOf(w, e) := [g.at[e]] + m.buckets[BucketOf(w, e)]]
    ensures BucketsOk(w, m2, StatusProgress(g, e, Pending))
  {
    var g2, b := StatusProgress(g, e, Pending), BucketOf(w, e);
    forall link | Published(g, link) ensures Published(g2, link) {
      var d :| Names(g, link, d) && !g.status[d].Claimed?;
      assert Names(g2, link, d);
    }
    assert Names(g2, g.at[e], e);
    forall c, i | 0 <= c < |m2.buckets| && 0 <= i < |m2.buckets[c]| ensures Published(g2, m2.buckets[c][i]) {
      if c != b {
        assert Published(g, m.buckets[c][i]);
      } else if i > 0 {
        assert Published(g, m.buckets[c][i - 1]);
      }
    }
  }

  lemma PublishKeepsQueue(w: World, m: Memory, g: Progress, e: Addr)
    requires QueueOk(m.resolved + g.work, g) && e in g.status && g.status[e].Claimed?
    ensures QueueOk(m.resolved + g.work, StatusProgress(g, e, Pending))
  {
    var g2 := StatusProgress(g, e, Pending);
    forall link | Queued(g, link) ensures Queued(g2, link) {
      var d :| Names(g, link, d) && g.status[d].Resolved?;
      assert Names(g2, link, d);
    }
  }

  lemma PublishKeepsKeys(w: World, m: Memory, g: Progress, e: Addr, m2: Memory, busy: Addr)
    requires KeysOk(w, m, g, busy) && m2.checking == m.checking && Word(w, e, KEY) !in g.at
    ensures KeysOk(w, m2, StatusProgress(g, e, Pending), busy)
  {
  }

  ghost function ResolveProgress(g: Progress, e: Addr): Progress {
    g.(status := g.status[e := Resolved], done := g.done + {(e, KEY)})
  }

  /** PENDING to RESOLVED: the key is relocated and `e` joins the resolved list. */
  lemma ResolveStep(w: World, m: Memory, g: Progress, e: Addr, busy: Addr)
    requires WellFormed(w) && Inv(w, m, g, busy)
    requires e in w.ephemerons && e in g.at && e in g.status && g.status[e].Pending? && Begun(g, e) && Word(w, e, KEY) in g.at
    ensures g.at[e] in m.store && |m.store[g.at[e]]| == 6
    ensures var o := m.store[g.at[e]][KEY := Image(g.at, Word(w, e, KEY))][STATE := 3];
            Inv(w, Write(m, g.at[e], o).(resolved := [g.at[e]] + m.resolved), ResolveProgress(g, e), busy)
  {
    hide Contents, DoneOk, StatusOk, BucketsOk, QueueOk, RootsOk, CopiesOk, PlacesOk, ForwardOk, KeysOk, GreyOk, Needed, WellFormed, Shows;
    ResolveKeeps(w, g, e);
    EphemeronInside(w, m, g, e);
    var o := m.store[g.at[e]];
    var o2 := o[KEY := Image(g.at, Word(w, e, KEY))][STATE := 3];
    var m2, g2 := Write(m, g.at[e], o2).(resolved := [g.at[e]] + m.resolved), ResolveProgress(g, e);
    ResolveShows(w, g, e, o, o2);
    ResolveKeepsBuckets(w, m, g, e, m2);
    ResolveKeepsQueue(w, m, g, e);
    ResolveKeepsKeys(w, m, g, e, m2, busy);
    WriteStep(w, m, g, e, m2, g2, busy);
  }

  lemma ResolveKeeps(w: World, g: Progress, e: Addr)
    requires DoneOk(w, g) && e in w.ephemerons && e in g.at && e in g.status && g.status[e].Pending? && Word(w, e, KEY) in g.at
    requires StatusOk(w, g, e)
    ensures DoneOk(w, ResolveProgress(g, e)) && StatusOk(w, ResolveProgress(g, e), e)
  {
  }

  lemma ResolveShows(w: World, g: Progress, e: Addr, o: Object, o2: Object)
    requires DoneOk(w, g) && e in w.ephemerons && e in g.status && Shows(w, g, e, o) && |o| == 6
    requires o2 == o[KEY := Image(g.at, Word(w, e, KEY))][STATE := 3]
    ensures Shows(w, ResolveProgress(g, e), e, o2)
  {
  }

  lemma ResolveKeepsBuckets(w: World, m: Memory, g: Progress, e: Addr, m2: Memory)
    requires BucketsOk(w, m, g) && e in g.status && m2.buckets == m.buckets
    ensures BucketsOk(w, m2, ResolveProgress(g, e))
  {
    var g2 := ResolveProgress(g, e);
    forall link | Published(g, link) ensures Published(g2, link) {
      var d :| Names(g, link, d) && !g.status[d].Claimed?;
      assert Names(g2, link, d);
    }
  }

  lemma ResolveKeepsQueue(w: World, m: Memory, g: Progress, e: Addr)
    requires QueueOk(m.resolved + g.work, g) && e in g.at && e in g.status && g.status[e].Pending?
    requires PlacesOk(w, m, g)
    ensures QueueOk([g.at[e]] + m.resolved + g.work, ResolveProgress(g, e))
  {
    var queue, g2 := m.resolved + g.work, ResolveProgress(g, e);
    var queue2 := [g.at[e]] + m.resolved + g.work;
    assert queue2 == [g.at[e]] + queue;
    forall link | Queued(g, link) ensures Queued(g2, link) && link != g.at[e] {
      var d :| Names(g, link, d) && g.status[d].Resolved?;
      assert Names(g2, link, d);
    }
    assert Names(g2, g.at[e], e);
    forall i | 0 <= i < |queue2| ensures Queued(g2, queue2[i]) {
      if i > 0 { assert Queued(g, queue[i - 1]); }
    }
    forall i, j | 0 <= i < j < |queue2| ensures queue2[i] != queue2[j] {
      assert Queued(g, queue[j - 1]);
    }
    assert queue2[0] == g.at[e];
    forall d | d in g2.status && g2.status[d].Resolved? ensures d in g2.at && g2.at[d] in queue2 {
      if d != e { assert g.at[d] in queue; }
    }
  }

  lemma ResolveKeepsKeys(w: World, m: Memory, g: Progress, e: Addr, m2: Memory, busy: Addr)
    requires KeysOk(w, m, g, busy) && m2.checking == m.checking
    ensures KeysOk(w, m2, ResolveProgress(g, e), busy)
  {
  }

  // ----- the pending table ---------------------------------------------------------------

  /** What a traversal sees at a link of the pending table. */
  lemma LinkNames(w: World, m: Memory, g: Progress, busy: Addr, link: Addr) returns (e: Addr)
    requires WellFormed(w) && Inv(w, m, g, busy) && Published(g, link)
    ensures e in w.ephemerons && Names(g, link, e) && !g.status[e].Claimed? && Begun(g, e)
    ensures link in m.store && |m.store[link]| == 6 && m.store[link][STATE] == Code(g.status[e])
    ensures g.status[e].Pending? ==> m.store[link][KEY] == Word(w, e, KEY) && Pointer(m.store[link][KEY])
  {
    hide Contents, DoneOk, StatusOk, BucketsOk, QueueOk, RootsOk, CopiesOk, PlacesOk, ForwardOk, KeysOk, GreyOk, Needed, WellFormed, Shows;
    e :| Names(g, link, e) && !g.status[e].Claimed?;
    assert StatusOk(w, g, e);
    StatusSays(w, g, e);
    EphemeronInside(w, m, g, e);
    ShowsSays(w, g, e, m.store[link]);
    StatusBegun(w, g, e);
  }

  lemma StatusSays(w: World, g: Progress, e: Addr)
    requires e in g.status && StatusOk(w, g, e)
    ensures e in w.ephemerons && e in g.at
    ensures g.status[e].Pending? ==> Pointer(Word(w, e, KEY)) && (e, KEY) !in g.done
  {
  }

  lemma ShowsSays(w: World, g: Progress, e: Addr, o: Object)
    requires Shows(w, g, e, o) && |o| == 6 && e in w.ephemerons && e in g.status && DoneOk(w, g)
    ensures o[STATE] == Code(g.status[e])
    ensures (e, KEY) !in g.done ==> o[KEY] == Word(w, e, KEY)
    ensures (e, VALUE) !in g.done ==> o[VALUE] == Word(w, e, VALUE)
  {
  }

  lemma StatusBegun(w: World, g: Progress, e: Addr)
    requires GreyOk(w, g) && e in g.status
    ensures Begun(g, e)
  {
    forall i | g.started <= i < |g.copies| ensures g.copies[i] != e {
      assert Untouched(g, g.copies[i]);
    }
  }

  /** Dropping a link that is no longer pending from a bucket. */
  lemma ElideStep(w: World, m: Memory, g: Progress, busy: Addr, b: int, i: int)
    requires WellFormed(w) && Inv(w, m, g, busy)
    requires 0 <= b < |m.buckets| && 0 <= i < |m.buckets[b]|
    requires m.buckets[b][i] in m.store && |m.store[m.buckets[b][i]]| == 6 && m.store[m.buckets[b][i]][STATE] != 2
    ensures Inv(w, m.(buckets := m.buckets[b := m.buckets[b][..i] + m.buckets[b][i + 1..]]), g, busy)
  {
    hide Contents, DoneOk, StatusOk, BucketsOk, QueueOk, RootsOk, CopiesOk, PlacesOk, ForwardOk, KeysOk, GreyOk, Needed, WellFormed, Shows;
    var m2 := m.(buckets := m.buckets[b := m.buckets[b][..i] + m.buckets[b][i + 1..]]);
    PublishedAt(w, m, g, b, i);
    var e := LinkNames(w, m, g, busy, m.buckets[b][i]);
    ElideKeeps(w, m, g, b, i, e, m2);
    ForwardStable(w, m, g, m2, g);
    ContentsStable(w, m, g, m2, g);
    RootsStable(w, m, g, m2, g);
    SpacesStable(w, m, g, m2, g);
    KeysOkay(w, m, g, m2, busy);
  }

  lemma PublishedAt(w: World, m: Memory, g: Progress, b: int, i: int)
    requires BucketsOk(w, m, g) && 0 <= b < |m.buckets| && 0 <= i < |m.buckets[b]|
    ensures Published(g, m.buckets[b][i])
  {
  }

  lemma SpacesStable(w: World, m: Memory, g: Progress, m2: Memory, g2: Progress)
    requires CopiesOk(w, m, g) && PlacesOk(w, m, g)
    requires m2.hp == m.hp && g2.copies == g.copies && g2.places == g.places && g2.at == g.at
    ensures CopiesOk(w, m2, g2) && PlacesOk(w, m2, g2)
  {
  }

  lemma KeysOkay(w: World, m: Memory, g: Progress, m2: Memory, busy: Addr)
    requires KeysOk(w, m, g, busy) && m2.checking == m.checking
    ensures KeysOk(w, m2, g, busy)
  {
  }

  lemma ElideKeeps(w: World, m: Memory, g: Progress, b: int, i: int, e: Addr, m2: Memory)
    requires BucketsOk(w, m, g) && 0 <= b < |m.buckets| && 0 <= i < |m.buckets[b]|
    requires Names(g, m.buckets[b][i], e) && !g.status[e].Pending?
    requires PlacesOk(w, m, g)
    requires m2.buckets == m.buckets[b := m.buckets[b][..i] + m.buckets[b][i + 1..]]
    ensures BucketsOk(w, m2, g)
  {
    forall c, j | 0 <= c < |m2.buckets| && 0 <= j < |m2.buckets[c]| ensures Published(g, m2.buckets[c][j]) {
      assert Published(g, m.buckets[c][if c == b && j >= i then j + 1 else j]);
    }
    forall d | d in g.status && g.status[d].Pending?
      ensures g.at[d] in m2.buckets[BucketOf(w, d)]
    {
      if BucketOf(w, d) == b {
        var j :| 0 <= j < |m.buckets[b]| && m.buckets[b][j] == g.at[d];
        assert m2.buckets[b][if j < i then j else j - 1] == g.at[d];
      }
    }
  }

  /** Once no pending ephemeron waits for `busy`, nothing is excepted any more. */
  lemma CalmStep(w: World, m: Memory, g: Progress, busy: Addr)
    requires Inv(w, m, g, busy)
    requires m.checking ==> forall e | e in g.status && g.status[e].Pending? :: Word(w, e, KEY) != busy
    ensures Inv(w, m, g, 0)
  {
  }
}
