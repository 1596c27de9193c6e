/** What a finished collection has achieved: exactly the live objects survive, and the heap they
    form is the one that was there before. */
module SemispaceResult {
  import opened ObjectModel
  import opened SemispaceInvariant
  import opened SemispaceSteps
  import opened SemispaceTrace

  /** `S` is the least set that contains the roots and is closed. */
  ghost predicate Live(w: World, S: set<Addr>) {
    Closed(w, S) && Needed(w, S)
  }

  /** `o` is the record of `x` with every reference replaced by where its target is now. */
  ghost predicate MovedTo(w: World, at: map<Addr, Addr>, x: Addr, o: Object) {
    && 8 * |o| == SizeOf(w, x)
    && if x !in w.ephemerons then
         forall j | 0 <= j < |o| :: o[j] == if Traced(w, x, j) then Image(at, Word(w, x, j)) else Word(w, x, j)
       else
         && |o| == 6 && o[0] == Word(w, x, 0) && o[STATE] == 0 && o[EPOCH] == w.epoch
         && o[CHAIN] == Image(at, Target(w, x, CHAIN))
         && if Dead(w, x) || !Found(at, Word(w, x, KEY)) then o[KEY] == 0
            else o[KEY] == Image(at, Word(w, x, KEY)) && o[VALUE] == Image(at, Word(w, x, VALUE))
  }

  /** The heap in `store` and `roots` is the old one, moved along `at`. */
  ghost predicate Preserved(w: World, at: map<Addr, Addr>, store: map<Addr, Object>, roots: seq<int>) {
    && |roots| == |w.roots|
    && (forall i | 0 <= i < |roots| :: Found(at, w.roots[i]) && roots[i] == Image(at, w.roots[i]))
    && (forall x | x in at :: Known(w, x) && at[x] in store && MovedTo(w, at, x, store[at[x]]))
    && (forall x, y | x in at && y in at && x != y :: at[x] != at[y])
    && (forall x | x in at && x in w.large :: at[x] == x)
  }

  // ----- the start -------------------------------------------------------------------------

  const NOTHING: Progress := Progress(map[], [], [], 0, {}, 0, map[], [])

  lemma {:induction false} AllUnmoved(w: World, i: nat)
    requires Tiles(w, w.layout, w.layout, w.fromBase, w.fromEnd) && i <= |w.layout|
    ensures Unmoved(w, w.layout[i..], map[]) == w.fromEnd - PlaceOf(w.layout, w.fromEnd, i)
    decreases |w.layout| - i
  {
    if i < |w.layout| {
      AllUnmoved(w, i + 1);
      assert w.layout[i..][1..] == w.layout[i + 1..];
      assert w.layout[i] + SizeOf(w, w.layout[i]) == PlaceOf(w.layout, w.fromEnd, i + 1);
    }
  }

  lemma CollectionStarts(w: World, m: Memory)
    requires WellFormed(w) && m.store == w.store && m.roots == w.roots && m.hp == w.toBase && m.marked == {}
    requires |m.buckets| == w.nbuckets && (forall b | 0 <= b < |m.buckets| :: m.buckets[b] == [])
    requires m.resolved == [] && !m.checking
    ensures Inv(w, m, NOTHING, 0)
  {
    AllUnmoved(w, 0);
    assert w.layout[0..] == w.layout;
    assert NOTHING.at.Keys == {};
  }

  // ----- the end ---------------------------------------------------------------------------

  /** Nothing is left to do. */
  ghost predicate Exhausted(w: World, m: Memory, g: Progress) {
    && Inv(w, m, g, 0)
    && (forall x | x in g.at :: Complete(w, g, x))
    && (forall e | e in g.status :: g.status[e].Pending? || g.status[e].Finished?)
    && (forall e | e in g.status && g.status[e].Pending? :: Word(w, e, KEY) !in g.at)
    && g.rootsDone == |w.roots|
  }

  lemma NothingQueued(w: World, m: Memory, g: Progress, e: Addr)
    requires QueueOk(m.resolved + g.work, g) && m.resolved == [] && g.work == [] && e in g.status
    ensures !g.status[e].Resolved?
  {
    assert m.resolved + g.work == [];
  }

  lemma EverythingComplete(w: World, m: Memory, g: Progress)
    requires PlacesOk(w, m, g) && ForwardOk(w, m, g)
    requires forall i | 0 <= i < |g.copies| :: Complete(w, g, g.copies[i])
    requires forall y | y in w.large && y in g.at :: Complete(w, g, y)
    ensures forall x | x in g.at :: Complete(w, g, x)
  {
  }

  lemma LiveEdges(w: World, m: Memory, g: Progress, x: Addr)
    requires WellFormed(w) && Exhausted(w, m, g) && x in g.at
    ensures EdgesClosed(w, g.at.Keys, x)
  {
    hide ForwardOk, CopiesOk, PlacesOk, Contents, BucketsOk, QueueOk, RootsOk, KeysOk, GreyOk, Needed, WellFormed;
    assert Complete(w, g, x);
    if x in w.ephemerons {
      assert StatusOk(w, g, x);
    }
  }

  /** The objects found are exactly the live ones. */
  lemma FoundIsLive(w: World, m: Memory, g: Progress)
    requires WellFormed(w) && Exhausted(w, m, g)
    ensures Live(w, g.at.Keys)
  {
    hide ForwardOk, CopiesOk, PlacesOk, Contents, DoneOk, StatusOk, BucketsOk, QueueOk, KeysOk, GreyOk, Needed, WellFormed, EdgesClosed;
    forall x | x in g.at.Keys ensures EdgesClosed(w, g.at.Keys, x) {
      LiveEdges(w, m, g, x);
    }
  }

  lemma FinallyMoved(w: World, m: Memory, g: Progress, x: Addr, o: Object)
    requires WellFormed(w) && Exhausted(w, m, g) && x in g.at
    requires 8 * |o| == SizeOf(w, x) && forall j | 0 <= j < |o| ::
               o[j] == if x in g.status && g.status[x].Pending? && (j == KEY || j == STATE) then 0 else Now(w, g, x, j)
    ensures MovedTo(w, g.at, x, o)
  {
    hide ForwardOk, CopiesOk, PlacesOk, Contents, BucketsOk, QueueOk, RootsOk, KeysOk, GreyOk, Needed, SpacesOk, RefsOk;
    assert Complete(w, g, x);
    forall e | e in g.status ensures e in w.ephemerons { assert StatusOk(w, g, e); }
    if x in w.ephemerons {
      assert StatusOk(w, g, x);
      EphemeronMoved(w, g, x, o);
    }
  }

  lemma EphemeronMoved(w: World, g: Progress, e: Addr, o: Object)
    requires e in w.ephemerons && |o| == 6 && e in g.status && StatusOk(w, g, e) && DoneOk(w, g)
    requires SizeOf(w, e) == 48
    requires g.status[e].Pending? || g.status[e].Finished?
    requires g.status[e].Pending? ==> Word(w, e, KEY) !in g.at
    requires forall j | 0 <= j < 6 ::
               o[j] == if g.status[e].Pending? && (j == KEY || j == STATE) then 0 else Now(w, g, e, j)
    ensures MovedTo(w, g.at, e, o)
  {
  }

  // ----- the heap as the next collection will find it ----------------------------------------

  ghost predicate Typed(types: seq<TypeInfo>, store: map<Addr, Object>, a: Addr) {
    a in store && ObjectOk(types, store[a])
  }

  ghost predicate IsEphemeron(types: seq<TypeInfo>, store: map<Addr, Object>, a: Addr) {
    Typed(types, store, a) && types[store[a][0] / 2].kind.Ephemeron?
  }

  ghost function EphemeronsOf(types: seq<TypeInfo>, store: map<Addr, Object>, layout: seq<Addr>): set<Addr> {
    set a | a in layout && IsEphemeron(types, store, a)
  }

  ghost function SlotsOf(types: seq<TypeInfo>, store: map<Addr, Object>, objects: set<Addr>): map<Addr, set<int>> {
    map a | a in objects && Typed(types, store, a) && !IsEphemeron(types, store, a) ::
      RefWords(types[store[a][0] / 2], store[a])
  }

  ghost function NextOf(store: map<Addr, Object>, ephemerons: set<Addr>, rank: map<Addr, nat>): map<Addr, int> {
    if ChainsOk(store, ephemerons, rank) then
      map e | e in ephemerons :: Skip(store, ephemerons, rank, store[e][CHAIN])
    else map[]
  }

  /** The graph that object words and type table describe. */
  ghost function MakeWorld(
    types: seq<TypeInfo>, rank: map<Addr, nat>, layout: seq<Addr>, large: set<Addr>, store: map<Addr, Object>, roots: seq<int>,
    fromBase: int, fromEnd: int, toBase: int, active: int, epoch: int, hash: Addr -> int, nbuckets: int): World
  {
    var ephemerons := EphemeronsOf(types, store, layout);
    World(layout, large, ephemerons, store, SlotsOf(types, store, (set a | a in layout) + large),
          NextOf(store, ephemerons, rank), roots, fromBase, fromEnd, toBase, active, epoch, hash, nbuckets)
  }

  ghost predicate TypesOk(types: seq<TypeInfo>, rank: map<Addr, nat>, w: World) {
    && (forall a | Known(w, a) :: Typed(types, w.store, a))
    && (forall a | a in w.large :: !IsEphemeron(types, w.store, a))
    && ChainsOk(w.store, w.ephemerons, rank)
    && (forall e | e in w.ephemerons :: Word(w, e, STATE) == 0 && Word(w, e, EPOCH) < w.epoch)
  }

  lemma MadeDescribed(
    types: seq<TypeInfo>, rank: map<Addr, nat>, layout: seq<Addr>, large: set<Addr>, store: map<Addr, Object>, roots: seq<int>,
    fromBase: int, fromEnd: int, toBase: int, active: int, epoch: int, hash: Addr -> int, nbuckets: int)
    requires var w := MakeWorld(types, rank, layout, large, store, roots, fromBase, fromEnd, toBase, active, epoch, hash, nbuckets);
             TypesOk(types, rank, w)
    ensures var w := MakeWorld(types, rank, layout, large, store, roots, fromBase, fromEnd, toBase, active, epoch, hash, nbuckets);
            && Described(types, rank, w)
            && w.store == store && w.roots == roots && w.large == large && w.fromBase == fromBase && w.fromEnd == fromEnd
            && w.toBase == toBase && w.active == active && w.epoch == epoch && w.hash == hash && w.nbuckets == nbuckets
  {
    hide RefWords, Sized, TypeOk, ObjectOk, ChainsOk, Skip;
    var w := MakeWorld(types, rank, layout, large, store, roots, fromBase, fromEnd, toBase, active, epoch, hash, nbuckets);
    forall a | Known(w, a) ensures DescribedAt(types, w, a) {
      assert Typed(types, store, a);
      WordsInside(types, store[a]);
    }
  }

  lemma WordsInside(types: seq<TypeInfo>, o: Object)
    requires ObjectOk(types, o)
    ensures |o| > 0 && KnownTag(types, o[0]) && (IsArray(TypeOf(types, o[0]).kind) ==> |o| >= 2)
    ensures forall j | j in RefWords(TypeOf(types, o[0]), o) :: (if IsArray(TypeOf(types, o[0]).kind) then 2 else 1) <= j < |o|
  {
    hide RefSlots, RefWords, Sized, TypeOk;
    RefSlotsInside(types, o);
    forall j | j in RefWords(TypeOf(types, o[0]), o)
      ensures (if IsArray(TypeOf(types, o[0]).kind) then 2 else 1) <= j < |o|
    {
      RefSlotsAre(types, o, j);
    }
  }

  /** A moved object still agrees with its tag and has its reference slots where they were. */
  lemma MovedTyped(types: seq<TypeInfo>, w: World, at: map<Addr, Addr>, x: Addr, o: Object)
    requires Known(w, x) && DescribedAt(types, w, x) && MovedTo(w, at, x, o)
    ensures ObjectOk(types, o) && |o| == |w.store[x]| && o[0] == w.store[x][0]
    ensures RefWords(TypeOf(types, o[0]), o) == RefWords(TypeOf(types, o[0]), w.store[x])
  {
    hide RefWords, TypeOk;
    var old' := w.store[x];
    WordsInside(types, old');
    if x !in w.ephemerons {
      assert !Traced(w, x, 0);
      assert o[0] == old'[0];
      if IsArray(TypeOf(types, old'[0]).kind) {
        assert !Traced(w, x, 1);
        assert o[1] == old'[1];
      }
    }
    WordsSame(TypeOf(types, o[0]), o, old');
  }

  lemma WordsSame(t: TypeInfo, o: Object, o2: Object)
    requires |o| == |o2| && (IsArray(t.kind) ==> |o| >= 2 && o[1] == o2[1])
    ensures RefWords(t, o) == RefWords(t, o2)
    ensures Sized(t, o) == Sized(t, o2)
  {
  }

  /** Everything the proof that the new heap is well formed starts from. */
  ghost predicate Outcome(types: seq<TypeInfo>, rank: map<Addr, nat>, w: World, m: Memory, g: Progress, store: map<Addr, Object>) {
    && WellFormed(w) && Described(types, rank, w) && Exhausted(w, m, g)
    && forall x | x in g.at :: Known(w, x) && g.at[x] in store && MovedTo(w, g.at, x, store[g.at[x]])
  }

  ghost function NewRank(rank: map<Addr, nat>, w: World, m: Memory, g: Progress): map<Addr, nat>
    requires PlacesOk(w, m, g)
  {
    map e | e in g.at && e in rank && e in w.ephemerons :: g.at[e] := rank[e]
  }

  ghost function NewWorld(types: seq<TypeInfo>, rank: map<Addr, nat>, w: World, m: Memory, g: Progress, store: map<Addr, Object>): World
    requires PlacesOk(w, m, g)
  {
    MakeWorld(types, NewRank(rank, w, m, g), g.places, m.marked, store, m.roots,
              w.toBase, m.hp, w.fromBase, w.active, w.epoch + 1, w.hash, w.nbuckets)
  }

  /** The objects of the new heap are the images of the live ones. */
  lemma Origin(w: World, m: Memory, g: Progress, a: Addr) returns (x: Addr)
    requires ForwardOk(w, m, g) && PlacesOk(w, m, g) && (a in g.places || a in m.marked)
    ensures x in g.at && g.at[x] == a && (a in m.marked ==> x == a) && (a !in m.marked ==> x in w.layout)
  {
    if a in m.marked {
      x := a;
    } else {
      var i :| 0 <= i < |g.places| && g.places[i] == a;
      x := g.copies[i];
    }
  }

  lemma ImageKnown(w: World, m: Memory, g: Progress, x: Addr)
    requires ForwardOk(w, m, g) && PlacesOk(w, m, g) && x in g.at
    ensures x in w.layout ==> g.at[x] in g.places
    ensures x in w.large ==> g.at[x] in m.marked
    ensures g.at[x] in g.places || g.at[x] in m.marked
  {
    if x in w.layout {
      var i :| 0 <= i < |g.copies| && g.copies[i] == x;
      assert g.places[i] == g.at[x];
    }
  }

  lemma OutcomeTyped(types: seq<TypeInfo>, rank: map<Addr, nat>, w: World, m: Memory, g: Progress, store: map<Addr, Object>, x: Addr)
    requires Outcome(types, rank, w, m, g, store) && x in g.at
    ensures g.at[x] in store && x in w.store && Typed(types, store, g.at[x]) && |store[g.at[x]]| == |w.store[x]|
    ensures store[g.at[x]][0] == w.store[x][0]
    ensures IsEphemeron(types, store, g.at[x]) <==> x in w.ephemerons
    ensures x !in w.ephemerons ==> x in w.slots && RefWords(TypeOf(types, store[g.at[x]][0]), store[g.at[x]]) == w.slots[x]
  {
    hide WellFormed, Exhausted, RefWords, Sized, TypeOk, ChainsOk, Skip, MovedTo;
    assert DescribedAt(types, w, x);
    MovedTyped(types, w, g.at, x, store[g.at[x]]);
  }

  lemma NewTypes(types: seq<TypeInfo>, rank: map<Addr, nat>, w: World, m: Memory, g: Progress, store: map<Addr, Object>)
    requires Outcome(types, rank, w, m, g, store) && ForwardOk(w, m, g) && PlacesOk(w, m, g)
    ensures var w2 := NewWorld(types, rank, w, m, g, store);
            && (forall a | Known(w2, a) :: Typed(types, store, a))
            && (forall a | a in w2.large :: !IsEphemeron(types, store, a))
            && (forall e | e in w2.ephemerons :: Word(w2, e, STATE) == 0 && Word(w2, e, EPOCH) < w2.epoch)
            && (forall x | x in g.at :: x in w.ephemerons <==> g.at[x] in w2.ephemerons)
  {
    var w2 := NewWorld(types, rank, w, m, g, store);
    hide Outcome, ForwardOk, PlacesOk, Typed, IsEphemeron, NextOf, SlotsOf;
    forall a | Known(w2, a)
      ensures Typed(types, store, a)
      ensures a in w2.large ==> !IsEphemeron(types, store, a)
      ensures a in w2.ephemerons ==> Word(w2, a, STATE) == 0 && Word(w2, a, EPOCH) < w2.epoch
    {
      var x := Origin(w, m, g, a);
      OutcomeTyped(types, rank, w, m, g, store, x);
      if x in w.ephemerons { OutcomeEphemeron(types, rank, w, m, g, store, x); }
      LargeOutcome(types, rank, w, m, g, store, x);
    }
    forall x | x in g.at ensures x in w.ephemerons <==> g.at[x] in w2.ephemerons {
      OutcomeTyped(types, rank, w, m, g, store, x);
      ImageKnown(w, m, g, x);
      LargeOutcome(types, rank, w, m, g, store, x);
    }
  }

  lemma LargeOutcome(types: seq<TypeInfo>, rank: map<Addr, nat>, w: World, m: Memory, g: Progress, store: map<Addr, Object>, x: Addr)
    requires Outcome(types, rank, w, m, g, store) && ForwardOk(w, m, g) && x in g.at
    ensures x in w.ephemerons ==> x in w.layout
    ensures g.at[x] in m.marked && x == g.at[x] ==> x !in w.ephemerons
    ensures x in w.layout || x in w.large
  {
    hide Described, Exhausted, MovedTo, RefsOk;
  }

  lemma OutcomeEphemeron(types: seq<TypeInfo>, rank: map<Addr, nat>, w: World, m: Memory, g: Progress, store: map<Addr, Object>, x: Addr)
    requires Outcome(types, rank, w, m, g, store) && x in g.at && x in w.ephemerons
    ensures g.at[x] in store && |store[g.at[x]]| == 6 && store[g.at[x]][STATE] == 0 && store[g.at[x]][EPOCH] == w.epoch
  {
    hide Described, Exhausted, WellFormed;
  }

  lemma {:induction false} SkipRank(store: map<Addr, Object>, ephemerons: set<Addr>, rank: map<Addr, nat>, e: Addr)
    requires ChainsOk(store, ephemerons, rank) && e in ephemerons
    ensures var c := Skip(store, ephemerons, rank, e); c != 0 ==> c in rank && rank[c] <= rank[e]
    decreases rank[e]
  {
    if store[e][KEY] == 0 && store[e][CHAIN] != 0 {
      SkipRank(store, ephemerons, rank, store[e][CHAIN]);
    }
  }

  /** The chain word of a surviving ephemeron: null, or a surviving ephemeron of lower rank. */
  lemma NewChain(types: seq<TypeInfo>, rank: map<Addr, nat>, w: World, m: Memory, g: Progress, store: map<Addr, Object>, e: Addr)
    requires Outcome(types, rank, w, m, g, store) && e in g.at && e in w.ephemerons
    ensures var c := Target(w, e, CHAIN);
            && (c == 0 || (c in w.ephemerons && c in g.at && Pointer(c) && c in rank && e in rank && rank[c] < rank[e]))
            && g.at[e] in store && |store[g.at[e]]| == 6 && store[g.at[e]][CHAIN] == Image(g.at, c)
  {
    hide DescribedAt, ForwardOk, CopiesOk, PlacesOk, Contents, StatusOk, BucketsOk, QueueOk, RootsOk, KeysOk, GreyOk, Needed, RefsOk;
    var head := w.store[e][CHAIN];
    if head != 0 {
      SkipRank(w.store, w.ephemerons, rank, head);
    }
    LiveEdges(w, m, g, e);
  }

  lemma RankAt(rank: map<Addr, nat>, w: World, m: Memory, g: Progress, e: Addr)
    requires PlacesOk(w, m, g) && e in g.at && e in rank && e in w.ephemerons
    ensures g.at[e] in NewRank(rank, w, m, g) && NewRank(rank, w, m, g)[g.at[e]] == rank[e]
  {
  }

  lemma NewChainAt(types: seq<TypeInfo>, rank: map<Addr, nat>, w: World, m: Memory, g: Progress, store: map<Addr, Object>, e: Addr)
    requires Outcome(types, rank, w, m, g, store) && PlacesOk(w, m, g) && e in g.at && e in w.ephemerons
    ensures var rank2, a := NewRank(rank, w, m, g), g.at[e];
            && a in store && |store[a]| == 6 && a in rank2
            && (store[a][CHAIN] != 0 ==>
                  var c := Target(w, e, CHAIN);
                  && c in g.at && c in w.ephemerons && store[a][CHAIN] == g.at[c]
                  && g.at[c] in rank2 && rank2[g.at[c]] < rank2[a])
  {
    hide Outcome, PlacesOk, NewRank;
    NewChain(types, rank, w, m, g, store, e);
    EphemeronRanked(types, rank, w, m, g, store, e);
    RankAt(rank, w, m, g, e);
    var c := Target(w, e, CHAIN);
    if c != 0 {
      RankAt(rank, w, m, g, c);
    }
  }

  lemma NewChains(types: seq<TypeInfo>, rank: map<Addr, nat>, w: World, m: Memory, g: Progress, store: map<Addr, Object>)
    requires Outcome(types, rank, w, m, g, store) && ForwardOk(w, m, g) && PlacesOk(w, m, g)
    ensures ChainsOk(store, NewWorld(types, rank, w, m, g, store).ephemerons, NewRank(rank, w, m, g))
  {
    hide Outcome, ForwardOk, PlacesOk, Typed, IsEphemeron, NextOf, SlotsOf, NewRank;
    NewTypes(types, rank, w, m, g, store);
    var w2, rank2 := NewWorld(types, rank, w, m, g, store), NewRank(rank, w, m, g);
    forall a | a in w2.ephemerons
      ensures a in store && |store[a]| == 6 && a in rank2
      ensures store[a][CHAIN] != 0 ==> store[a][CHAIN] in w2.ephemerons && store[a][CHAIN] in rank2 && rank2[store[a][CHAIN]] < rank2[a]
    {
      var e := Origin(w, m, g, a);
      NewChainAt(types, rank, w, m, g, store, e);
    }
  }

  lemma EphemeronRanked(types: seq<TypeInfo>, rank: map<Addr, nat>, w: World, m: Memory, g: Progress, store: map<Addr, Object>, e: Addr)
    requires Outcome(types, rank, w, m, g, store) && e in w.ephemerons
    ensures e in rank
  {
    hide DescribedAt, WellFormed, Exhausted, MovedTo;
  }

  lemma NewObjects(types: seq<TypeInfo>, rank: map<Addr, nat>, w: World, m: Memory, g: Progress, store: map<Addr, Object>)
    requires Outcome(types, rank, w, m, g, store) && ForwardOk(w, m, g) && PlacesOk(w, m, g)
    ensures ObjectsOk(NewWorld(types, rank, w, m, g, store))
  {
    hide Outcome, ForwardOk, PlacesOk, Typed, IsEphemeron, NextOf, SlotsOf, NewRank;
    NewTypes(types, rank, w, m, g, store);
    var w2 := NewWorld(types, rank, w, m, g, store);
    forall a | a in g.places || a in m.marked
      ensures a in store && |store[a]| > 0 && (a in w2.ephemerons ==> |store[a]| == 6)
    {
      var x := Origin(w, m, g, a);
      OutcomeSize(types, rank, w, m, g, store, x);
    }
  }

  lemma NewTiles(types: seq<TypeInfo>, rank: map<Addr, nat>, w: World, m: Memory, g: Progress, store: map<Addr, Object>)
    requires Outcome(types, rank, w, m, g, store) && PlacesOk(w, m, g) && Tiles(w, g.copies, g.places, w.toBase, m.hp)
    ensures Tiles(NewWorld(types, rank, w, m, g, store), g.places, g.places, w.toBase, m.hp)
  {
    hide Outcome, Typed, IsEphemeron, NextOf, SlotsOf, NewRank, EphemeronsOf;
    var w2 := NewWorld(types, rank, w, m, g, store);
    forall i | 0 <= i < |g.places|
      ensures SizeOf(w2, g.places[i]) == SizeOf(w, g.copies[i])
    {
      OutcomeTyped(types, rank, w, m, g, store, g.copies[i]);
    }
  }

  lemma PlacesSay(w: World, m: Memory, g: Progress)
    requires PlacesOk(w, m, g) && Distinct(g.copies)
    ensures Distinct(g.places)
    ensures forall a | a in g.places :: w.toBase <= a < m.hp && a % 8 == 0
  {
    forall i, j | 0 <= i < j < |g.places| ensures g.places[i] != g.places[j] {
      assert g.copies[i] != g.copies[j];
    }
    forall a | a in g.places ensures w.toBase <= a < m.hp && a % 8 == 0 {
      var i :| 0 <= i < |g.places| && g.places[i] == a;
      var o := g.copies[i];
      assert o in w.layout && o in g.at && g.at[o] == g.places[i];
      assert w.toBase <= g.at[o] < m.hp && g.at[o] % 8 == 0;
    }
  }

  lemma NewSpaces(types: seq<TypeInfo>, rank: map<Addr, nat>, w: World, m: Memory, g: Progress, store: map<Addr, Object>)
    requires Outcome(types, rank, w, m, g, store) && WellFormed(w) && ForwardOk(w, m, g) && CopiesOk(w, m, g) && PlacesOk(w, m, g)
    ensures SpacesOk(NewWorld(types, rank, w, m, g, store))
  {
    hide Outcome, Typed, IsEphemeron, NextOf, SlotsOf, NewRank, EphemeronsOf, Tiles, RefsOk, ObjectsOk, PlacesOk;
    HpInside(w, m, g);
    NewTiles(types, rank, w, m, g, store);
    PlacesSay(w, m, g);
  }

  lemma OutcomeSize(types: seq<TypeInfo>, rank: map<Addr, nat>, w: World, m: Memory, g: Progress, store: map<Addr, Object>, x: Addr)
    requires Outcome(types, rank, w, m, g, store) && x in g.at
    ensures g.at[x] in store && |store[g.at[x]]| > 0 && (x in w.ephemerons ==> |store[g.at[x]]| == 6)
  {
    hide Described, Exhausted;
  }

  /** Every reference in the new heap refers to an object of the new heap. */
  lemma NewRef(types: seq<TypeInfo>, rank: map<Addr, nat>, w: World, m: Memory, g: Progress, store: map<Addr, Object>, word: int)
    requires ForwardOk(w, m, g) && PlacesOk(w, m, g) && Found(g.at, word)
    ensures RefOk(NewWorld(types, rank, w, m, g, store), Image(g.at, word))
  {
    if Pointer(word) {
      ImageKnown(w, m, g, word);
    }
  }

  lemma NewSlots(types: seq<TypeInfo>, rank: map<Addr, nat>, w: World, m: Memory, g: Progress, store: map<Addr, Object>, x: Addr, j: int)
    requires Outcome(types, rank, w, m, g, store) && ForwardOk(w, m, g) && PlacesOk(w, m, g) && x in g.at && x !in w.ephemerons
    requires var w2 := NewWorld(types, rank, w, m, g, store); g.at[x] !in w2.ephemerons && Traced(w2, g.at[x], j)
    ensures var w2 := NewWorld(types, rank, w, m, g, store);
            0 < 8 * j < SizeOf(w2, g.at[x]) && RefOk(w2, Target(w2, g.at[x], j))
  {
    hide Exhausted, WellFormed, Described, RefWords, EphemeronsOf, NextOf, MovedTo;
    var o := store[g.at[x]];
    OutcomeTyped(types, rank, w, m, g, store, x);
    WordsInside(types, o);
    assert Traced(w, x, j);
    SlotMoved(w, g.at, x, j, o);
    OutcomeFound(types, rank, w, m, g, store, x, j);
    NewRef(types, rank, w, m, g, store, Word(w, x, j));
  }

  lemma SlotMoved(w: World, at: map<Addr, Addr>, x: Addr, j: int, o: Object)
    requires MovedTo(w, at, x, o) && x !in w.ephemerons && Traced(w, x, j) && 0 <= j < |o|
    ensures o[j] == Image(at, Word(w, x, j))
  {
  }

  lemma OutcomeFound(types: seq<TypeInfo>, rank: map<Addr, nat>, w: World, m: Memory, g: Progress, store: map<Addr, Object>, x: Addr, j: int)
    requires Outcome(types, rank, w, m, g, store) && x in g.at && x !in w.ephemerons && Traced(w, x, j)
    ensures Found(g.at, Word(w, x, j))
  {
    hide Exhausted, WellFormed, Described, MovedTo, ForwardOk;
    LiveEdges(w, m, g, x);
    assert Holds(g.at.Keys, Target(w, x, j));
  }

  /** The references of a surviving ephemeron. */
  lemma NewEphemeronRefs(types: seq<TypeInfo>, rank: map<Addr, nat>, w: World, m: Memory, g: Progress, store: map<Addr, Object>, e: Addr, j: int)
    requires Outcome(types, rank, w, m, g, store) && ForwardOk(w, m, g) && PlacesOk(w, m, g) && e in g.at && e in w.ephemerons
    requires var w2 := NewWorld(types, rank, w, m, g, store);
             g.at[e] in w2.ephemerons && Traced(w2, g.at[e], j) && !(Dead(w2, g.at[e]) && j == VALUE)
    requires ChainsOk(store, NewWorld(types, rank, w, m, g, store).ephemerons, NewRank(rank, w, m, g))
    ensures var w2 := NewWorld(types, rank, w, m, g, store);
            0 < 8 * j < SizeOf(w2, g.at[e]) && RefOk(w2, Target(w2, g.at[e], j))
  {
    hide Exhausted, WellFormed, Described, RefWords, EphemeronsOf, ForwardOk, PlacesOk, NewRank, SlotsOf;
    var w2 := NewWorld(types, rank, w, m, g, store);
    var o := store[g.at[e]];
    assert |o| == 6 && SizeOf(w2, g.at[e]) == 48;
    if j == CHAIN {
      NewNext(types, rank, w, m, g, store, g.at[e]);
    } else {
      assert Target(w2, g.at[e], j) == o[j];
      if o[j] != 0 && o[KEY] != 0 {
        NewRef(types, rank, w, m, g, store, Word(w, e, KEY));
        OutcomeValue(types, rank, w, m, g, store, e);
        NewRef(types, rank, w, m, g, store, Word(w, e, VALUE));
      }
    }
  }

  lemma OutcomeValue(types: seq<TypeInfo>, rank: map<Addr, nat>, w: World, m: Memory, g: Progress, store: map<Addr, Object>, e: Addr)
    requires Outcome(types, rank, w, m, g, store) && e in g.at && e in w.ephemerons && !Dead(w, e) && Found(g.at, Word(w, e, KEY))
    ensures Found(g.at, Word(w, e, VALUE))
  {
    hide Exhausted, WellFormed, Described, MovedTo, ForwardOk;
    LiveEdges(w, m, g, e);
    assert Holds(g.at.Keys, Target(w, e, KEY));
    assert Holds(g.at.Keys, Target(w, e, VALUE));
  }

  lemma NewNext(types: seq<TypeInfo>, rank: map<Addr, nat>, w: World, m: Memory, g: Progress, store: map<Addr, Object>, a: Addr)
    requires PlacesOk(w, m, g)
    requires var w2 := NewWorld(types, rank, w, m, g, store);
             a in w2.ephemerons && ChainsOk(store, w2.ephemerons, NewRank(rank, w, m, g))
    ensures RefOk(NewWorld(types, rank, w, m, g, store), Target(NewWorld(types, rank, w, m, g, store), a, CHAIN))
  {
    hide PlacesOk, NewRank, SlotsOf, IsEphemeron;
  }

  lemma NewRoots(types: seq<TypeInfo>, rank: map<Addr, nat>, w: World, m: Memory, g: Progress, store: map<Addr, Object>)
    requires Outcome(types, rank, w, m, g, store) && ForwardOk(w, m, g) && PlacesOk(w, m, g)
    ensures |m.roots| == |w.roots|
    ensures forall i | 0 <= i < |m.roots| :: Found(g.at, w.roots[i]) && m.roots[i] == Image(g.at, w.roots[i])
    ensures forall i | 0 <= i < |m.roots| :: RefOk(NewWorld(types, rank, w, m, g, store), m.roots[i])
  {
    RootsFinally(types, rank, w, m, g, store);
    hide Outcome, ForwardOk, PlacesOk, NewRank, NextOf, SlotsOf, EphemeronsOf;
    forall i | 0 <= i < |m.roots| ensures RefOk(NewWorld(types, rank, w, m, g, store), m.roots[i]) {
      NewRef(types, rank, w, m, g, store, w.roots[i]);
    }
  }

  lemma RootsFinally(types: seq<TypeInfo>, rank: map<Addr, nat>, w: World, m: Memory, g: Progress, store: map<Addr, Object>)
    requires Outcome(types, rank, w, m, g, store)
    ensures |m.roots| == |w.roots|
    ensures forall i | 0 <= i < |m.roots| :: Found(g.at, w.roots[i]) && m.roots[i] == Image(g.at, w.roots[i])
  {
    hide WellFormed, Described, MovedTo, ForwardOk, CopiesOk, PlacesOk, Contents, BucketsOk, QueueOk, KeysOk, GreyOk, Needed, DoneOk;
  }

  /** The heap that a collection leaves behind is one that a collection can start from. */
  lemma NewHeap(types: seq<TypeInfo>, rank: map<Addr, nat>, w: World, m: Memory, g: Progress, store: map<Addr, Object>)
    requires Outcome(types, rank, w, m, g, store) && Inv(w, m, g, 0)
    ensures var w2 := NewWorld(types, rank, w, m, g, store);
            WellFormed(w2) && TypesOk(types, NewRank(rank, w, m, g), w2) && m.hp <= w.toBase + w.active
  {
    hide Exhausted, Described, MovedTo, WellFormed, ForwardOk, CopiesOk, PlacesOk, Contents, DoneOk, StatusOk, BucketsOk, QueueOk, RootsOk, KeysOk, GreyOk, Needed, NewRank, ObjectsOk, SpacesOk, Typed, IsEphemeron, EphemeronsOf, SlotsOf, NextOf, ChainsOk;
    var w2 := NewWorld(types, rank, w, m, g, store);
    NewTypes(types, rank, w, m, g, store);
    NewChains(types, rank, w, m, g, store);
    NewObjects(types, rank, w, m, g, store);
    NewSpaces(types, rank, w, m, g, store);
    NewRefs(types, rank, w, m, g, store);
    HpInside(w, m, g);
    assert WellFormed(w2) by { NewWellFormed(w2); }
  }

  lemma NewWellFormed(w: World)
    requires ObjectsOk(w) && SpacesOk(w) && RefsOk(w)
    ensures WellFormed(w)
  {
  }

  lemma NewRefAt(types: seq<TypeInfo>, rank: map<Addr, nat>, w: World, m: Memory, g: Progress, store: map<Addr, Object>, a: Addr, j: int)
    requires Outcome(types, rank, w, m, g, store) && ForwardOk(w, m, g) && PlacesOk(w, m, g)
    requires ChainsOk(store, NewWorld(types, rank, w, m, g, store).ephemerons, NewRank(rank, w, m, g))
    requires var w2 := NewWorld(types, rank, w, m, g, store);
             Known(w2, a) && Traced(w2, a, j) && !(a in w2.ephemerons && Dead(w2, a) && j == VALUE)
    ensures var w2 := NewWorld(types, rank, w, m, g, store);
            0 < 8 * j < SizeOf(w2, a) && RefOk(w2, Target(w2, a, j))
  {
    hide Outcome, ForwardOk, PlacesOk, NewRank, NextOf, SlotsOf, EphemeronsOf, ChainsOk, Typed, IsEphemeron, Traced, RefOk;
    NewTypes(types, rank, w, m, g, store);
    var x := Origin(w, m, g, a);
    if x in w.ephemerons {
      NewEphemeronRefs(types, rank, w, m, g, store, x, j);
    } else {
      NewSlots(types, rank, w, m, g, store, x, j);
    }
  }

  lemma NewRefs(types: seq<TypeInfo>, rank: map<Addr, nat>, w: World, m: Memory, g: Progress, store: map<Addr, Object>)
    requires Outcome(types, rank, w, m, g, store) && ForwardOk(w, m, g) && PlacesOk(w, m, g)
    requires ChainsOk(store, NewWorld(types, rank, w, m, g, store).ephemerons, NewRank(rank, w, m, g))
    ensures RefsOk(NewWorld(types, rank, w, m, g, store))
  {
    hide Outcome, ForwardOk, PlacesOk, NewRank, NextOf, SlotsOf, EphemeronsOf, ChainsOk, Typed, IsEphemeron, Traced, RefOk, Known, Dead, SizeOf, Target;
    NewRoots(types, rank, w, m, g, store);
    BucketsSay(types, rank, w, m, g, store);
    var w2 := NewWorld(types, rank, w, m, g, store);
    forall a, j | Known(w2, a) && Traced(w2, a, j) && !(a in w2.ephemerons && Dead(w2, a) && j == VALUE)
      ensures 0 < 8 * j < SizeOf(w2, a) && RefOk(w2, Target(w2, a, j))
    {
      NewRefAt(types, rank, w, m, g, store, a, j);
    }
  }

  lemma BucketsSay(types: seq<TypeInfo>, rank: map<Addr, nat>, w: World, m: Memory, g: Progress, store: map<Addr, Object>)
    requires Outcome(types, rank, w, m, g, store)
    ensures w.nbuckets > 0 && forall a :: 0 <= w.hash(a) < w.nbuckets
  {
    hide Exhausted, Described, MovedTo, ObjectsOk, SpacesOk;
  }

  // ----- what a program can see --------------------------------------------------------------

  /** Objects have the same reference slots where they are now as where they were. */
  ghost predicate SameShape(w: World, at: map<Addr, Addr>, w2: World) {
    forall x | x in at ::
      && Pointer(at[x])
      && (x in w.ephemerons <==> at[x] in w2.ephemerons)
      && (x !in w.ephemerons ==> x in w.slots && at[x] in w2.slots && w.slots[x] == w2.slots[at[x]])
  }

  lemma NewShape(types: seq<TypeInfo>, rank: map<Addr, nat>, w: World, m: Memory, g: Progress, store: map<Addr, Object>)
    requires Outcome(types, rank, w, m, g, store) && ForwardOk(w, m, g) && PlacesOk(w, m, g)
    requires WellFormed(NewWorld(types, rank, w, m, g, store))
    ensures SameShape(w, g.at, NewWorld(types, rank, w, m, g, store))
  {
    hide Outcome, ForwardOk, PlacesOk, NewRank, NextOf, EphemeronsOf, Typed, IsEphemeron, ObjectsOk, RefsOk, Tiles;
    var w2 := NewWorld(types, rank, w, m, g, store);
    NewTypes(types, rank, w, m, g, store);
    forall x | x in g.at
      ensures Pointer(g.at[x])
      ensures x in w.ephemerons <==> g.at[x] in w2.ephemerons
      ensures x !in w.ephemerons ==> x in w.slots && g.at[x] in w2.slots && w.slots[x] == w2.slots[g.at[x]]
    {
      ImageKnown(w, m, g, x);
      OutcomeTyped(types, rank, w, m, g, store, x);
    }
  }

  /** The word reached from `word` by following reference slots; null where there is none. */
  ghost function Walk(w: World, word: int, path: seq<int>): int
    decreases |path|
  {
    if path == [] then word
    else if Pointer(word) && word !in w.ephemerons && Traced(w, word, path[0]) then Walk(w, Word(w, word, path[0]), path[1..])
    else 0
  }

  /** Every walk from a live word leads, in the new heap, to the image of where it led before. */
  lemma {:induction false} WalksPreserved(w: World, at: map<Addr, Addr>, w2: World, word: int, path: seq<int>)
    requires Closed(w, at.Keys) && Preserved(w, at, w2.store, w2.roots) && SameShape(w, at, w2)
    requires Found(at, word)
    ensures Found(at, Walk(w, word, path)) && Walk(w2, Image(at, word), path) == Image(at, Walk(w, word, path))
    decreases |path|
  {
    if path != [] && Pointer(word) && word !in w.ephemerons && Traced(w, word, path[0]) {
      var x, j := word, path[0];
      assert x in at.Keys && EdgesClosed(w, at.Keys, x);
      assert MovedTo(w, at, x, w2.store[at[x]]);
      assert Holds(at.Keys, Target(w, x, j));
      if 0 <= j < |w2.store[at[x]]| {
        assert w2.store[at[x]][j] == Image(at, Word(w, x, j));
      }
      WalksPreserved(w, at, w2, Word(w, x, j), path[1..]);
    }
  }

  /** Walks from the roots see the same heap before and after. */
  lemma RootWalks(w: World, at: map<Addr, Addr>, w2: World, i: int, path: seq<int>)
    requires Closed(w, at.Keys) && Preserved(w, at, w2.store, w2.roots) && SameShape(w, at, w2) && 0 <= i < |w.roots|
    ensures |w2.roots| == |w.roots| && Walk(w2, w2.roots[i], path) == Image(at, Walk(w, w.roots[i], path))
  {
    WalksPreserved(w, at, w2, w.roots[i], path);
  }

  /** Objects that tile a region do not overlap. */
  lemma {:induction false} TilesDisjoint(w: World, objs: seq<Addr>, places: seq<Addr>, base: int, end: int, i: nat, j: nat)
    requires Tiles(w, objs, places, base, end) && i < j <= |objs|
    ensures places[i] + SizeOf(w, objs[i]) <= PlaceOf(places, end, j)
    decreases j
  {
    hide SizeOf;
    if i + 1 < j {
      TilesDisjoint(w, objs, places, base, end, i, j - 1);
      SizeNatural(w, objs[j - 1]);
    }
    assert places[j - 1] + SizeOf(w, objs[j - 1]) == PlaceOf(places, end, j);
  }

  lemma SizeNatural(w: World, x: Addr)
    ensures SizeOf(w, x) >= 0
  {
  }
}
