/** How the bookkeeping of a collection may change across a call of the tracer. */
module SemispaceTrace {
  import opened ObjectModel
  import opened SemispaceInvariant
  import opened SemispaceSteps

  /** Every traced slot of `y` has been dealt with. */
  ghost predicate Complete(w: World, g: Progress, y: Addr) {
    if y in w.ephemerons then y in g.status && !g.status[y].Claimed?
    else forall j | Traced(w, y, j) :: (y, j) in g.done
  }

  /** `g2` extends `g`: nothing found is lost, only the slots of `extra` (and whatever was newly
      found) were updated, and only `selves` and pending ephemerons changed status. */
  ghost predicate Grows(w: World, g: Progress, g2: Progress, extra: set<(Addr, int)>, selves: set<Addr>) {
    && (forall y | y in g.at :: y in g2.at && g2.at[y] == g.at[y])
    && g2.started == g.started && g2.work == g.work && g2.rootsDone == g.rootsDone
    && |g.copies| <= |g2.copies| && |g.places| <= |g2.places|
    && (forall i | 0 <= i < |g.copies| :: g2.copies[i] == g.copies[i])
    && (forall i | 0 <= i < |g.places| :: g2.places[i] == g.places[i])
    && g.done <= g2.done
    && (forall y, k | (y, k) in g2.done && (y, k) !in g.done :: MayAppear(g, extra, selves, y, k))
    && (forall e | e in g.status && e !in selves :: e in g2.status && MayBecome(g.status[e], g2.status[e]))
    && (forall e | e in g2.status && e !in selves :: e in g.status)
    && (forall y | y in w.large && y in g2.at && y !in g.at :: Complete(w, g2, y))
  }

  ghost predicate MayAppear(g: Progress, extra: set<(Addr, int)>, selves: set<Addr>, y: Addr, k: int) {
    (y, k) in extra || y in selves || y !in g.at || (k == KEY && y in g.status && g.status[y].Pending?)
  }

  ghost predicate MayBecome(s: Status, s2: Status) {
    s2 == s || (s.Pending? && s2.Resolved?)
  }

  lemma GrowsSelf(w: World, g: Progress)
    ensures Grows(w, g, g, {}, {})
  {
  }

  lemma CompleteStays(w: World, g: Progress, g2: Progress, extra: set<(Addr, int)>, selves: set<Addr>, y: Addr)
    requires Grows(w, g, g2, extra, selves) && Complete(w, g, y) && (y !in selves || y !in w.ephemerons)
    ensures Complete(w, g2, y)
  {
  }

  lemma GrowsTrans(w: World, g: Progress, g1: Progress, g2: Progress, a: set<(Addr, int)>, b: set<(Addr, int)>, selves: set<Addr>)
    requires Grows(w, g, g1, a, selves) && Grows(w, g1, g2, b, selves)
    requires forall x | x in w.large :: x !in w.ephemerons
    ensures Grows(w, g, g2, a + b, selves)
  {
    forall y | y in w.large && y in g2.at && y !in g.at ensures Complete(w, g2, y) {
      if y in g1.at { CompleteStays(w, g1, g2, b, selves, y); }
    }
    forall y, k | (y, k) in g2.done && (y, k) !in g.done ensures MayAppear(g, a + b, selves, y, k) {
      if (y, k) in g1.done {
        assert MayAppear(g, a, selves, y, k);
      } else {
        assert MayAppear(g1, b, selves, y, k);
      }
    }
  }

  lemma GrowsWeaken(w: World, g: Progress, g2: Progress, a: set<(Addr, int)>, b: set<(Addr, int)>, selves: set<Addr>)
    requires Grows(w, g, g2, a, {}) && a <= b
    ensures Grows(w, g, g2, b, selves)
  {
  }

  lemma CopyGrows(w: World, g: Progress, o: Addr, n: Addr)
    requires o !in g.at && o !in w.large
    ensures Grows(w, g, CopyProgress(g, o, n), {}, {})
  {
  }

  lemma SlotGrows(w: World, g: Progress, x: Addr, j: int)
    ensures Grows(w, g, SlotProgress(g, x, j), {(x, j)}, {})
    ensures Begun(g, x) ==> Begun(SlotProgress(g, x, j), x)
  {
  }

  lemma ResolveGrows(w: World, g: Progress, e: Addr)
    requires e in g.status && g.status[e].Pending?
    ensures Grows(w, g, ResolveProgress(g, e), {}, {})
  {
  }

  lemma StatusGrows(w: World, g: Progress, e: Addr, s: Status)
    ensures Grows(w, g, StatusProgress(g, e, s), {}, {e})
  {
  }

  /** Once a slot's object is being traced it stays so. */
  lemma BegunStays(w: World, m: Memory, g: Progress, g2: Progress, extra: set<(Addr, int)>, selves: set<Addr>, x: Addr)
    requires Grows(w, g, g2, extra, selves) && Begun(g, x) && x in g.at
    requires WellFormed(w) && ForwardOk(w, m, g) && PlacesOk(w, m, g) && Distinct(g2.copies)
    requires forall i | 0 <= i < |g2.copies| :: g2.copies[i] in w.layout
    ensures Begun(g2, x)
  {
    if x in w.layout {
      assert x in g.copies;
      var k :| 0 <= k < |g.copies| && g.copies[k] == x;
      assert g2.copies[k] == x;
    } else {
      assert Known(w, x) && x in w.large;
    }
  }

  /** The old word in a traced slot of a live object refers to something every closed set has. */
  lemma TargetNeeded(w: World, m: Memory, g: Progress, x: Addr, j: int)
    requires Inv(w, m, g, 0) && x in g.at && Traced(w, x, j) && Pointer(Target(w, x, j))
    requires x in w.ephemerons ==> j == CHAIN || (j == VALUE && (x, KEY) in g.done && !Dead(w, x))
    ensures Needed(w, g.at.Keys + {Target(w, x, j)})
  {
    hide ForwardOk, CopiesOk, PlacesOk, Contents, StatusOk, BucketsOk, QueueOk, RootsOk, KeysOk, GreyOk;
    var t := Target(w, x, j);
    forall S: set<Addr> | Closed(w, S) ensures g.at.Keys + {t} <= S {
      assert x in g.at.Keys;
      assert EdgesClosed(w, S, x);
      if j == VALUE && x in w.ephemerons {
        var k := Target(w, x, KEY);
        assert Found(g.at, k);
        assert Pointer(k) ==> k in g.at.Keys;
      }
      assert Holds(S, t);
    }
  }

  lemma RootNeeded(w: World, m: Memory, g: Progress, i: int)
    requires Inv(w, m, g, 0) && 0 <= i < |w.roots| && Pointer(w.roots[i])
    ensures Needed(w, g.at.Keys + {w.roots[i]})
  {
    hide ForwardOk, CopiesOk, PlacesOk, Contents, DoneOk, StatusOk, BucketsOk, QueueOk, RootsOk, KeysOk, GreyOk;
    forall S: set<Addr> | Closed(w, S) ensures g.at.Keys + {w.roots[i]} <= S {
      assert Holds(S, w.roots[i]);
    }
  }

  // ----- what the object words say -------------------------------------------------------

  /** A chain of ephemerons ends: `rank` decreases along it. */
  ghost predicate ChainsOk(store: map<Addr, Object>, ephemerons: set<Addr>, rank: map<Addr, nat>) {
    forall e | e in ephemerons ::
      && e in store && |store[e]| == 6 && e in rank
      && (store[e][CHAIN] != 0 ==> store[e][CHAIN] in ephemerons && store[e][CHAIN] in rank && rank[store[e][CHAIN]] < rank[e])
  }

  /** The first ephemeron at or after `e` on its chain that is not dead, or null. */
  ghost function Skip(store: map<Addr, Object>, ephemerons: set<Addr>, rank: map<Addr, nat>, e: Addr): (r: Addr)
    requires ChainsOk(store, ephemerons, rank) && (e == 0 || e in ephemerons)
    ensures r == 0 || (r in ephemerons && store[r][KEY] != 0)
    decreases if e in rank then rank[e] else 0, e != 0
  {
    if e == 0 then 0
    else if store[e][KEY] != 0 then e
    else if store[e][CHAIN] == 0 then 0
    else Skip(store, ephemerons, rank, store[e][CHAIN])
  }

  /** `w` is the graph that the object words and the type table describe. */
  ghost predicate Described(types: seq<TypeInfo>, rank: map<Addr, nat>, w: World) {
    && (forall a | Known(w, a) :: DescribedAt(types, w, a))
    && ChainsOk(w.store, w.ephemerons, rank)
    && forall e | e in w.ephemerons ::
         && Word(w, e, STATE) == 0
         && Word(w, e, EPOCH) < w.epoch
         && e in w.next
         && w.next[e] == Skip(w.store, w.ephemerons, rank, w.store[e][CHAIN])
  }

  ghost predicate DescribedAt(types: seq<TypeInfo>, w: World, a: Addr) {
    && a in w.store
    && ObjectOk(types, w.store[a])
    && var t := types[w.store[a][0] / 2];
       if a in w.ephemerons then t.kind.Ephemeron?
       else
         && !t.kind.Ephemeron?
         && a in w.slots
         && w.slots[a] == RefWords(t, w.store[a])
  }

  lemma TagOdd(types: seq<TypeInfo>, rank: map<Addr, nat>, w: World, o: Addr)
    requires Described(types, rank, w) && Known(w, o)
    ensures o in w.store && |w.store[o]| > 0 && w.store[o][0] % 2 == 1
  {
    hide ChainsOk, Skip, RefWords, TypeOk, Sized;
    assert DescribedAt(types, w, o);
  }

  lemma PlaceAligned(w: World, m: Memory, g: Progress, o: Addr)
    requires PlacesOk(w, m, g) && o in w.layout && o in g.at
    ensures g.at[o] % 8 == 0
  {
  }

  lemma AlignedIsEven(n: int, k: int)
    requires n == 8 * k
    ensures n % 2 == 0
  {
    assert n == 2 * (4 * k);
  }

  /** The tag word of a from-space object is its forwarding address exactly when it has one. */
  lemma TagSays(types: seq<TypeInfo>, rank: map<Addr, nat>, w: World, m: Memory, g: Progress, busy: Addr, o: Addr)
    requires Described(types, rank, w) && Inv(w, m, g, busy) && o in w.layout
    ensures o in m.store && |m.store[o]| > 0
    ensures m.store[o][0] % 2 == 0 <==> o in g.at
    ensures o in g.at ==> m.store[o][0] == g.at[o]
  {
    hide Described, PlacesOk, CopiesOk, Contents, DoneOk, StatusOk, BucketsOk, QueueOk, RootsOk, Needed, KeysOk, GreyOk;
    TagOdd(types, rank, w, o);
    if o in g.at {
      assert g.at[o] % 8 == 0 by { PlaceAligned(w, m, g, o); }
      AlignedIsEven(g.at[o], g.at[o] / 8);
    }
  }

  /** A pointer into the from-space region is a small object; any other is a large one. */
  lemma PointerSays(w: World, ref: int)
    requires WellFormed(w) && RefOk(w, ref) && Pointer(ref)
    ensures w.fromBase <= ref < w.fromBase + w.active <==> ref in w.layout
    ensures ref in w.layout || ref in w.large
  {
  }

  lemma SizeSays(types: seq<TypeInfo>, rank: map<Addr, nat>, w: World, o: Addr)
    requires Described(types, rank, w) && Known(w, o)
    ensures o in w.store && |w.store[o]| > 0 && KnownTag(types, w.store[o][0])
    ensures IsArray(TypeOf(types, w.store[o][0]).kind) ==> |w.store[o]| >= 2
    ensures SizeOf(w, o) == AlignUp(SizeInBytes(TypeOf(types, w.store[o][0]), w.store[o]))
  {
    assert DescribedAt(types, w, o);
    SizeIs(types, w.store[o]);
  }

  /** An object none of whose slots is done reads as it did before collection. */
  lemma FreshSays(w: World, m: Memory, g: Progress, x: Addr)
    requires WellFormed(w) && ForwardOk(w, m, g) && Contents(w, m, g) && x in g.at && Untouched(g, x)
    ensures g.at[x] in m.store && x in w.store && m.store[g.at[x]] == w.store[x]
  {
    assert Known(w, x);
  }
}
