/** What the words the collector reads tell it, and how its bookkeeping moves from call to call. */
module SemispaceFacts {
  import opened Basics
  import opened ObjectModel
  import opened SemispaceInvariant
  import opened SemispaceSteps
  import opened SemispaceTrace
  import opened SemispaceResult

  // ----- sweeping ----------------------------------------------------------------------------

  /** A pending ephemeron after it has been declared dead. */
  ghost predicate ShowsDead(w: World, g: Progress, e: Addr, o: Object) {
    |o| == 6 && forall j | 0 <= j < 6 :: o[j] == if j == KEY || j == STATE then 0 else Now(w, g, e, j)
  }

  ghost predicate SweptSome(w: World, store: map<Addr, Object>, g: Progress, swept: set<Addr>) {
    && (forall e | e in swept :: e in g.status && g.status[e].Pending?)
    && (forall x | x in g.at :: g.at[x] in store && if x in swept then ShowsDead(w, g, x, store[g.at[x]]) else Shows(w, g, x, store[g.at[x]]))
  }

  ghost predicate Swept(w: World, store: map<Addr, Object>, g: Progress) {
    forall x | x in g.at :: g.at[x] in store && ShowsFinally(w, g, x, store[g.at[x]])
  }

  ghost predicate ShowsFinally(w: World, g: Progress, x: Addr, o: Object) {
    if x in g.status && g.status[x].Pending? then ShowsDead(w, g, x, o) else Shows(w, g, x, o)
  }

  ghost predicate Unswept(w: World, g: Progress, swept: set<Addr>, b: int, links: seq<Addr>) {
    forall e | e in g.status && g.status[e].Pending? && e !in swept ::
      BucketOf(w, e) > b || (BucketOf(w, e) == b && e in g.at && g.at[e] in links)
  }

  ghost predicate UnsweptFrom(w: World, g: Progress, swept: set<Addr>, b: int) {
    forall e | e in g.status && g.status[e].Pending? && e !in swept :: BucketOf(w, e) >= b
  }

  lemma SweepStart(w: World, m: Memory, g: Progress)
    requires WellFormed(w) && Inv(w, m, g, 0)
    ensures SweptSome(w, m.store, g, {}) && UnsweptFrom(w, g, {}, 0)
  {
    hide ForwardOk, CopiesOk, PlacesOk, DoneOk, StatusOk, QueueOk, RootsOk, KeysOk, GreyOk, Needed, Shows;
  }

  lemma BucketPublished(w: World, m: Memory, g: Progress, b: int)
    requires Inv(w, m, g, 0) && 0 <= b < |m.buckets|
    ensures forall k | 0 <= k < |m.buckets[b]| :: Published(g, m.buckets[b][k])
  {
    hide ForwardOk, CopiesOk, PlacesOk, Contents, DoneOk, StatusOk, QueueOk, RootsOk, KeysOk, GreyOk, Needed;
  }

  lemma UnsweptHere(w: World, m: Memory, g: Progress, swept: set<Addr>, b: int)
    requires Inv(w, m, g, 0) && UnsweptFrom(w, g, swept, b) && 0 <= b < |m.buckets|
    ensures Unswept(w, g, swept, b, m.buckets[b])
  {
    hide ForwardOk, CopiesOk, PlacesOk, Contents, DoneOk, StatusOk, QueueOk, RootsOk, KeysOk, GreyOk, Needed;
  }

  lemma UnsweptThere(w: World, g: Progress, swept: set<Addr>, b: int)
    requires Unswept(w, g, swept, b, [])
    ensures UnsweptFrom(w, g, swept, b + 1)
  {
  }

  lemma SweepSays(w: World, m0: Memory, g: Progress, store: map<Addr, Object>, swept: set<Addr>, b: int, links: seq<Addr>, i: int) returns (e: Addr)
    requires WellFormed(w) && Inv(w, m0, g, 0) && SweptSome(w, store, g, swept)
    requires 0 <= i < |links| && Published(g, links[i]) && Unswept(w, g, swept, b, links[i..])
    ensures links[i] in store && |store[links[i]]| == 6 && Names(g, links[i], e)
    ensures store[links[i]][STATE] == 2 <==> g.status[e].Pending? && e !in swept
    ensures store[links[i]][STATE] != 2 ==> Unswept(w, g, swept, b, links[i + 1..])
    ensures Unswept(w, g, swept + {e}, b, links[i + 1..])
    ensures (links[..i] + links[i + 1..])[i..] == links[i + 1..]
  {
    hide ForwardOk, CopiesOk, Contents, BucketsOk, QueueOk, RootsOk, KeysOk, GreyOk, Needed, WellFormed;
    e :| Names(g, links[i], e) && !g.status[e].Claimed?;
    assert StatusOk(w, g, e);
    var o := store[links[i]];
    EphemeronSays(w, m0, g, e);
    EphemeronInside(w, m0, g, e);
    assert SizeOf(w, e) == 8 * |m0.store[g.at[e]]|;
    if e !in swept { ShowsSays(w, g, e, o); }
    assert links[i..] == [links[i]] + links[i + 1..];
  }

  lemma SweepStep(w: World, m0: Memory, g: Progress, store: map<Addr, Object>, swept: set<Addr>, e: Addr)
    requires Inv(w, m0, g, 0) && SweptSome(w, store, g, swept)
    requires e in g.status && g.status[e].Pending? && e !in swept && e in g.at && g.at[e] in store && |store[g.at[e]]| == 6
    ensures SweptSome(w, store[g.at[e] := store[g.at[e]][KEY := 0][STATE := 0]], g, swept + {e})
  {
    hide ForwardOk, CopiesOk, Contents, BucketsOk, QueueOk, RootsOk, KeysOk, GreyOk, Needed, StatusOk, DoneOk;
  }

  lemma SweepEnd(w: World, m0: Memory, g: Progress, store: map<Addr, Object>, swept: set<Addr>)
    requires WellFormed(w) && Inv(w, m0, g, 0) && SweptSome(w, store, g, swept) && UnsweptFrom(w, g, swept, w.nbuckets)
    ensures Swept(w, store, g)
  {
    hide ForwardOk, CopiesOk, PlacesOk, Contents, DoneOk, StatusOk, QueueOk, RootsOk, KeysOk, GreyOk, Needed;
    forall x | x in g.at ensures g.at[x] in store && ShowsFinally(w, g, x, store[g.at[x]]) {
      if x in g.status && g.status[x].Pending? {
        assert BucketOf(w, x) < w.nbuckets;
      }
    }
  }

  // ----- the pending table -------------------------------------------------------------------

  /** Pending ephemerons with a live key lie in buckets after `b`, or are still to be met in `links`. */
  ghost predicate Overdue(w: World, g: Progress, b: int, links: seq<Addr>) {
    forall e | e in g.status && g.status[e].Pending? && Word(w, e, KEY) in g.at ::
      BucketOf(w, e) > b || (BucketOf(w, e) == b && e in g.at && g.at[e] in links)
  }

  ghost predicate OverdueFrom(w: World, g: Progress, b: int) {
    forall e | e in g.status && g.status[e].Pending? && Word(w, e, KEY) in g.at :: BucketOf(w, e) >= b
  }

  ghost predicate NoneOverdue(w: World, g: Progress) {
    forall e | e in g.status && g.status[e].Pending? :: Word(w, e, KEY) !in g.at
  }

  lemma TableSays(w: World, m: Memory, g: Progress)
    requires WellFormed(w) && Inv(w, m, g, 0)
    ensures |m.buckets| == w.nbuckets && w.nbuckets >= 0 && OverdueFrom(w, g, 0)
  {
    hide ForwardOk, CopiesOk, PlacesOk, Contents, DoneOk, StatusOk, QueueOk, RootsOk, KeysOk, GreyOk, Needed;
  }

  lemma OverdueHere(w: World, m: Memory, g: Progress, b: int)
    requires Inv(w, m, g, 0) && OverdueFrom(w, g, b) && 0 <= b < |m.buckets|
    ensures Overdue(w, g, b, m.buckets[b])
  {
    hide ForwardOk, CopiesOk, PlacesOk, Contents, DoneOk, StatusOk, QueueOk, RootsOk, KeysOk, GreyOk, Needed;
  }

  lemma OverdueThere(w: World, g: Progress, b: int)
    requires Overdue(w, g, b, [])
    ensures OverdueFrom(w, g, b + 1)
  {
  }

  lemma OverdueNowhere(w: World, m: Memory, g: Progress)
    requires WellFormed(w) && Inv(w, m, g, 0) && OverdueFrom(w, g, w.nbuckets)
    ensures NoneOverdue(w, g)
  {
    hide ForwardOk, CopiesOk, PlacesOk, Contents, DoneOk, StatusOk, QueueOk, RootsOk, KeysOk, GreyOk, Needed;
  }

  lemma OverdueNext(w: World, m: Memory, g: Progress, b: int, links: seq<Addr>, i: int, e: Addr)
    requires Inv(w, m, g, 0) && 0 <= i < |links| && Names(g, links[i], e) && Overdue(w, g, b, links[i..])
    ensures !g.status[e].Pending? || Word(w, e, KEY) !in g.at ==> Overdue(w, g, b, links[i + 1..])
    ensures g.status[e].Pending? ==> Overdue(w, ResolveProgress(g, e), b, links[i + 1..])
    ensures (links[..i] + links[i + 1..])[i..] == links[i + 1..]
  {
    hide ForwardOk, CopiesOk, Contents, DoneOk, StatusOk, BucketsOk, QueueOk, RootsOk, KeysOk, GreyOk, Needed;
    assert links[i..] == [links[i]] + links[i + 1..];
  }

  lemma ResolveSettled(w: World, m1: Memory, g1: Progress, g: Progress, e: Addr)
    requires WellFormed(w) && Inv(w, m1, g1, 0) && Settled(w, g1) && e in g1.status && g1.status[e].Pending?
    requires g == ResolveProgress(g1, e) || g == g1
    ensures Settled(w, g) && Extends(g1, g)
  {
    hide Inv, Complete, WellFormed;
    StartedFits(w, m1, g1);
    ResolveGrows(w, g1, e);
    GrowsSelf(w, g1);
    SettledStays(w, m1, g1, g, g1.started, {}, {});
  }

  // ----- roots -------------------------------------------------------------------------------

  lemma RootsSay(w: World, m: Memory, g: Progress)
    requires Inv(w, m, g, 0)
    ensures |m.roots| == |w.roots|
  {
    hide ForwardOk, CopiesOk, PlacesOk, Contents, DoneOk, StatusOk, BucketsOk, QueueOk, KeysOk, GreyOk, Needed;
  }

  lemma RootSays(w: World, m: Memory, g: Progress, i: int)
    requires WellFormed(w) && Inv(w, m, g, 0) && 0 <= i < |w.roots| && g.rootsDone <= i
    ensures |m.roots| == |w.roots| && m.roots[i] == w.roots[i] && RefOk(w, w.roots[i])
  {
    hide ForwardOk, CopiesOk, PlacesOk, Contents, DoneOk, StatusOk, BucketsOk, QueueOk, KeysOk, GreyOk, Needed;
  }

  lemma RootsSame(w: World, m1: Memory, g1: Progress, g: Progress)
    requires Inv(w, m1, g1, 0) && Settled(w, g1) && Grows(w, g1, g, {}, {})
    ensures Settled(w, g) && g.rootsDone == g1.rootsDone && g.started == g1.started && g.work == g1.work
    ensures Settled(w, g.(rootsDone := g.rootsDone + 1))
  {
    hide Inv, Complete;
    StartedFits(w, m1, g1);
    SettledStays(w, m1, g1, g, g1.started, {}, {});
    var g2 := g.(rootsDone := g.rootsDone + 1);
    forall y | Complete(w, g, y) ensures Complete(w, g2, y) { CompleteSame(w, g, g2, y); }
  }

  ghost function FinishedSet(g: Progress): set<Addr> {
    set e | e in g.status && g.status[e].Finished?
  }

  lemma SameWork(g: Progress, g2: Progress)
    requires Extends(g, g2)
    ensures g2.work == g.work && g2.rootsDone == g.rootsDone
  {
  }

  lemma FinishedSame(g: Progress, g2: Progress)
    requires g2.status == g.status
    ensures FinishedSet(g2) == FinishedSet(g)
  {
  }

  lemma ExtendsAs(g: Progress, g2: Progress, list: seq<Addr>)
    requires Extends(g.(work := g2.work), g2)
    ensures Extends(g.(work := list), g2.(work := list))
  {
  }

  lemma ExtendsChain(g: Progress, g1: Progress, g2: Progress, g3: Progress, list: seq<Addr>)
    requires Extends(g.(work := g1.work), g1) && Extends(g1.(work := []), g2) && Extends(g2, g3)
    ensures Extends(g.(work := list), g3.(work := list))
  {
  }

  lemma WorkOver(g: Progress, g2: Progress)
    requires Extends(g.(work := g2.work), g2) && g.work == g2.work
    ensures Extends(g, g2)
  {
  }

  /** The next resolved ephemeron to be traced. */
  lemma QueueHead(w: World, m: Memory, g: Progress) returns (e: Addr)
    requires WellFormed(w) && Inv(w, m, g, 0) && Settled(w, g) && g.work != []
    ensures e in w.ephemerons && e in g.at && g.at[e] == g.work[0] && e in g.status && g.status[e].Resolved? && Begun(g, e)
    ensures Traced(w, e, VALUE) && (e, VALUE) !in g.done && MayUpdate(w, g, e, VALUE)
  {
    hide ForwardOk, CopiesOk, PlacesOk, Contents, DoneOk, BucketsOk, RootsOk, KeysOk, Needed, WellFormed;
    var queue, n := m.resolved + g.work, |m.resolved|;
    assert queue[n] == g.work[0];
    assert Queued(g, queue[n]);
    e :| Names(g, queue[n], e) && g.status[e].Resolved?;
    assert StatusOk(w, g, e);
    StatusBegun(w, g, e);
  }

  lemma StillResolved(w: World, g1: Progress, g: Progress, e: Addr)
    requires Grows(w, g1, g, {(e, VALUE)}, {}) && e in g1.status && g1.status[e].Resolved?
    ensures e in g.status && g.status[e].Resolved? && g.work == g1.work
  {
  }

  /** Objects are only ever added at the end of to-space. */
  ghost predicate Prefix(g0: Progress, g: Progress) {
    && |g0.copies| <= |g.copies| && |g0.places| <= |g.places| && g0.started == g.started
    && (forall i | 0 <= i < |g0.copies| :: g.copies[i] == g0.copies[i])
    && (forall i | 0 <= i < |g0.places| :: g.places[i] == g0.places[i])
  }

  lemma PlaceStable(w: World, m0: Memory, g0: Progress, m: Memory, g: Progress)
    requires Inv(w, m0, g0, 0) && Inv(w, m, g, 0) && Prefix(g0, g)
    ensures PlaceOf(g.places, m.hp, g.started) == PlaceOf(g0.places, m0.hp, g0.started)
  {
    hide ForwardOk, PlacesOk, Contents, DoneOk, StatusOk, BucketsOk, QueueOk, RootsOk, KeysOk, Needed;
    if g.started > 0 {
      var i := g.started - 1;
      assert g0.places[i] + SizeOf(w, g0.copies[i]) == PlaceOf(g0.places, m0.hp, i + 1);
      assert g.places[i] + SizeOf(w, g.copies[i]) == PlaceOf(g.places, m.hp, i + 1);
    }
  }

  lemma NewlyFinished(g0: Progress, g1: Progress, g: Progress, e: Addr)
    requires Extends(g0.(work := g1.work), g1) && e in g1.status && !g1.status[e].Finished?
    requires e in g.status && g.status[e].Finished?
    ensures e in FinishedSet(g) && e !in FinishedSet(g0)
  {
  }

  lemma MoreFinished(w: World, g1: Progress, g2: Progress, g: Progress, e: Addr)
    requires Extends(g1.(work := g2.work), g2) && Extends(g2, g)
    requires e in w.ephemerons && e in FinishedSet(g2) && e !in FinishedSet(g1)
    ensures |w.ephemerons - FinishedSet(g)| < |w.ephemerons - FinishedSet(g1)|
  {
    var before, after := w.ephemerons - FinishedSet(g1), w.ephemerons - FinishedSet(g);
    forall x | x in FinishedSet(g1) || x == e ensures x in FinishedSet(g) {
      assert x in FinishedSet(g2);
    }
    assert after <= before - {e};
    SubsetSize(after, before - {e});
  }

  /** The resolved list is taken over as a whole. */
  lemma PopStep(w: World, m: Memory, g: Progress, list: seq<Addr>)
    requires Inv(w, m.(resolved := list), g, 0) && g.work == [] && m.resolved == []
    ensures Inv(w, m, g.(work := list), 0)
    ensures Settled(w, g) ==> Settled(w, g.(work := list))
  {
    hide CopiesOk, PlacesOk, ForwardOk, Contents, DoneOk, StatusOk, BucketsOk, QueueOk, RootsOk, KeysOk, GreyOk, Needed;
    var m0, g2 := m.(resolved := list), g.(work := list);
    assert list + [] == list && [] + list == list;
    QueueSame(list, g, g2);
    BucketsSame(w, m0, g, m, g2);
    RootsStable(w, m0, g, m, g2);
    StatusStable(w, g, g2);
    GreyStays(w, g, g2);
    ContentsStable(w, m0, g, m, g2);
    DoneStable(w, g, g2);
    ForwardStable(w, m0, g, m, g2);
    SpacesStable(w, m0, g, m, g2);
    KeysStable(w, m0, g, g2, 0);
    KeysOkay(w, m0, g2, m, 0);
    forall y | Complete(w, g, y) ensures Complete(w, g2, y) { CompleteSame(w, g, g2, y); }
  }

  lemma QueueSame(queue: seq<Addr>, g: Progress, g2: Progress)
    requires QueueOk(queue, g) && g2.status == g.status && g2.at == g.at
    ensures QueueOk(queue, g2)
  {
    forall link | Queued(g, link) ensures Queued(g2, link) {
      var e :| Names(g, link, e) && g.status[e].Resolved?;
      assert Names(g2, link, e);
    }
  }

  lemma BucketsSame(w: World, m: Memory, g: Progress, m2: Memory, g2: Progress)
    requires BucketsOk(w, m, g) && g2.status == g.status && g2.at == g.at && m2.buckets == m.buckets
    ensures BucketsOk(w, m2, g2)
  {
    forall link | Published(g, link) ensures Published(g2, link) {
      var e :| Names(g, link, e) && !g.status[e].Claimed?;
      assert Names(g2, link, e);
    }
  }

  lemma CompleteSame(w: World, g: Progress, g2: Progress, y: Addr)
    requires Complete(w, g, y) && g2.status == g.status && g2.done == g.done
    ensures Complete(w, g2, y)
  {
  }

  lemma StartedFits(w: World, m: Memory, g: Progress)
    requires Inv(w, m, g, 0)
    ensures g.started <= |g.copies| && |g.copies| == |g.places|
    ensures g.started == |g.copies| ==> PlaceOf(g.places, m.hp, g.started) == m.hp
  {
    hide PlacesOk, Contents, DoneOk, StatusOk, BucketsOk, QueueOk, RootsOk, KeysOk, Needed, ForwardOk;
  }

  lemma ResolvedDone(w: World, m1: Memory, g1: Progress, g2: Progress, m: Memory, g: Progress, e: Addr)
    requires WellFormed(w) && Inv(w, m1, g1, 0) && Inv(w, m, g, 0) && Settled(w, g1) && Grows(w, g1, g2, {(e, VALUE)}, {})
    requires e in w.ephemerons && e in g2.status && e in g1.status && !g1.status[e].Finished?
    requires g2.work == g1.work && g2.work != [] && g == StatusProgress(g2, e, Finished).(work := g2.work[1..])
    ensures Settled(w, g) && Extends(g1.(work := g.work), g) && g.started == g1.started
    ensures PlaceOf(g.places, m.hp, g.started) == PlaceOf(g1.places, m1.hp, g1.started)
  {
    hide Inv, WellFormed, Complete;
    var g3 := StatusProgress(g2, e, Finished);
    GrowsOver(w, g1, e);
    GrowsAbout(w, g1, g1, g2, e, VALUE);
    GrowsFinish(w, g1, g2, e, Finished);
    EphemeronComplete(w, g3, e);
    StartedFits(w, m1, g1);
    SettledStays(w, m1, g1, g3, g1.started, {}, {e});
    forall y | Complete(w, g3, y) ensures Complete(w, g, y) { CompleteSame(w, g3, g, y); }
    PlaceStable(w, m1, g1, m, g);
  }

  /** Tracing has come to rest: of the copies, the first `n` are complete. */
  ghost predicate SettledUpTo(w: World, g: Progress, n: nat) {
    && (forall i | 0 <= i < n && i < |g.copies| :: Complete(w, g, g.copies[i]))
    && (forall y | y in w.large && y in g.at :: Complete(w, g, y))
    && (forall e | e in g.status :: !g.status[e].Claimed?)
    && (forall e | e in g.status && g.status[e].Resolved? :: (e, VALUE) !in g.done)
  }

  ghost predicate Settled(w: World, g: Progress) {
    SettledUpTo(w, g, g.started)
  }

  /** What survives any amount of tracing. */
  ghost predicate Extends(g: Progress, g2: Progress) {
    && (forall y | y in g.at :: y in g2.at && g2.at[y] == g.at[y])
    && |g.copies| <= |g2.copies|
    && (forall i | 0 <= i < |g.copies| :: g2.copies[i] == g.copies[i])
    && g2.work == g.work && g2.rootsDone == g.rootsDone
    && (forall e | e in g.status && g.status[e].Finished? :: e in g2.status && g2.status[e].Finished?)
  }

  /** `x` has been dealt with between `g0` and `g`. */
  ghost predicate Handled(w: World, g0: Progress, g: Progress, x: Addr) {
    && Complete(w, g, x)
    && (x in g.status ==> g.status[x].Finished? || g.status[x].Pending?)
    && (x in g0.status && g0.status[x].Finished? ==> x in g.status && g.status[x].Finished?)
  }

  lemma SettledStays(w: World, m0: Memory, g0: Progress, g: Progress, n: nat, extra: set<(Addr, int)>, selves: set<Addr>)
    requires Inv(w, m0, g0, 0) && SettledUpTo(w, g0, n) && n <= |g0.copies| && Grows(w, g0, g, extra, selves)
    requires forall y, k | (y, k) in extra :: y in selves
    requires forall x | x in selves :: Handled(w, g0, g, x)
    ensures SettledUpTo(w, g, n) && Extends(g0, g)
  {
    hide ForwardOk, CopiesOk, PlacesOk, Contents, BucketsOk, QueueOk, RootsOk, KeysOk, GreyOk, Needed;
    forall y | Complete(w, g0, y) ensures Complete(w, g, y) {
      if y !in selves { CompleteStays(w, g0, g, extra, selves, y); }
    }
    forall e | e in g.status && g.status[e].Resolved? ensures (e, VALUE) !in g.done {
      if e !in selves {
        assert e in g0.status && StatusOk(w, g0, e);
        assert (e, VALUE) in g.done ==> MayAppear(g0, extra, selves, e, VALUE);
      }
    }
  }

  lemma EphemeronComplete(w: World, g: Progress, x: Addr)
    requires x in w.ephemerons && x in g.status && !g.status[x].Claimed?
    ensures Complete(w, g, x)
  {
  }

  lemma PlainNoStatus(w: World, m: Memory, g: Progress, x: Addr)
    requires Inv(w, m, g, 0) && x !in w.ephemerons
    ensures x !in g.status
  {
  }

  lemma ExtendsSelf(g: Progress)
    ensures Extends(g, g)
  {
  }

  lemma ExtendsTrans(g: Progress, g1: Progress, g2: Progress)
    requires Extends(g, g1) && Extends(g1, g2)
    ensures Extends(g, g2)
  {
  }

  ghost function StartProgress(g: Progress): Progress {
    g.(started := g.started + 1)
  }

  lemma StartStep(w: World, m: Memory, g: Progress)
    requires WellFormed(w) && Inv(w, m, g, 0) && g.started < |g.copies|
    ensures Inv(w, m, StartProgress(g), 0) && Begun(StartProgress(g), g.copies[g.started])
    ensures Untouched(StartProgress(g), g.copies[g.started]) && g.copies[g.started] !in g.status
  {
    hide WellFormed, Inv, Begun, Untouched;
    StartKeeps(w, m, g);
    StartBegins(w, m, g);
  }

  lemma StartKeeps(w: World, m: Memory, g: Progress)
    requires Inv(w, m, g, 0) && g.started < |g.copies|
    ensures Inv(w, m, StartProgress(g), 0)
  {
    hide Contents, BucketsOk, QueueOk, RootsOk, KeysOk, Needed, Tiles;
    var g2 := StartProgress(g);
    forall e | e in g2.status ensures StatusOk(w, g2, e) { assert StatusOk(w, g, e); }
    ListsStable(w, m, g, m, g2);
    RootsStable(w, m, g, m, g2);
    KeysStable(w, m, g, g2, 0);
    ContentsStable(w, m, g, m, g2);
    assert Untouched(g, g.copies[g.started]);
  }

  lemma StartBegins(w: World, m: Memory, g: Progress)
    requires Inv(w, m, g, 0) && g.started < |g.copies|
    ensures Begun(StartProgress(g), g.copies[g.started])
    ensures Untouched(StartProgress(g), g.copies[g.started]) && g.copies[g.started] !in g.status
  {
    hide Contents, BucketsOk, QueueOk, RootsOk, KeysOk, Needed, Tiles, StatusOk, DoneOk, PlacesOk;
    assert Untouched(g, g.copies[g.started]);
  }

  /** The copy at the grey pointer reads as the original did. */
  lemma FreshCopySays(types: seq<TypeInfo>, rank: map<Addr, nat>, w: World, m: Memory, g: Progress)
    requires WellFormed(w) && Described(types, rank, w) && Inv(w, m, g, 0) && g.started < |g.copies|
    ensures g.started < |g.places|
    ensures var x, a := g.copies[g.started], g.places[g.started];
            && x in g.at && g.at[x] == a && a in m.store && x in w.store && m.store[a] == w.store[x]
            && |w.store[x]| > 0 && KnownTag(types, w.store[x][0])
            && (IsArray(TypeOf(types, w.store[x][0]).kind) ==> |w.store[x]| >= 2)
            && (TypeOf(types, w.store[x][0]).kind.Ephemeron? <==> x in w.ephemerons)
            && SizeOf(w, x) == AlignUp(SizeInBytes(TypeOf(types, w.store[x][0]), w.store[x])) && SizeOf(w, x) > 0
  {
    hide CopiesOk, StatusOk, BucketsOk, QueueOk, RootsOk, KeysOk, Needed, RefWords, SizeInBytes, TypeOk, AlignUp, SpacesOk, RefsOk, ChainsOk;
    var x := g.copies[g.started];
    assert Known(w, x);
    FreshSays(w, m, g, x);
    SizeSays(types, rank, w, x);
    assert DescribedAt(types, w, x);
  }

  lemma SettledStart(w: World, g: Progress)
    requires Settled(w, g)
    ensures SettledUpTo(w, StartProgress(g), g.started)
  {
    forall y | Complete(w, g, y) ensures Complete(w, StartProgress(g), y) {}
  }

  lemma SettledNext(w: World, g: Progress, n: nat)
    requires SettledUpTo(w, g, n) && g.started == n + 1 && n < |g.copies| && Complete(w, g, g.copies[n])
    ensures Settled(w, g)
  {
  }

  lemma PlaceStays(w: World, m0: Memory, g0: Progress, g: Progress, extra: set<(Addr, int)>, selves: set<Addr>)
    requires Inv(w, m0, g0, 0) && g0.started < |g0.copies| && Grows(w, StartProgress(g0), g, extra, selves)
    ensures g0.started < |g0.places| <= |g.places| && g.places[g0.started] == g0.places[g0.started]
    ensures g0.started < |g0.copies| <= |g.copies| && g.copies[g0.started] == g0.copies[g0.started]
    ensures g.started == g0.started + 1
  {
    hide ForwardOk, CopiesOk, Contents, DoneOk, StatusOk, BucketsOk, QueueOk, RootsOk, KeysOk, GreyOk, Needed;
  }

  /** Scanning one copy leaves everything before it, and itself, complete. */
  lemma Scanned(w: World, m0: Memory, g0: Progress, m: Memory, g: Progress, x: Addr, extra: set<(Addr, int)>, selves: set<Addr>)
    requires WellFormed(w) && Inv(w, m0, g0, 0) && Settled(w, g0) && g0.started < |g0.copies| && x == g0.copies[g0.started]
    requires Inv(w, m, g, 0) && Grows(w, StartProgress(g0), g, extra, selves) && selves <= {x}
    requires forall y, k | (y, k) in extra :: y == x
    requires Complete(w, g, x) && (x in g.status ==> g.status[x].Finished? || g.status[x].Pending?)
    ensures Settled(w, g) && g.started == g0.started + 1 && g.started <= |g.copies| && Extends(g0, g)
    ensures g.copies[g0.started] == x
    ensures g0.started < |g0.places| <= |g.places| && g.places[g0.started] == g0.places[g0.started]
  {
    hide Inv, SettledUpTo, Settled, Complete, WellFormed;
    StartStep(w, m0, g0);
    PlaceStays(w, m0, g0, g, extra, selves);
    SettledStart(w, g0);
    assert Grows(w, StartProgress(g0), g, extra, {x});
    SettledStays(w, m0, StartProgress(g0), g, g0.started, extra, {x});
    SettledNext(w, g, g0.started);
  }

  lemma NextPlace(types: seq<TypeInfo>, rank: map<Addr, nat>, w: World, m: Memory, g: Progress, i: nat, x: Addr)
    requires Inv(w, m, g, 0) && i < |g.copies| && g.copies[i] == x && i + 1 == g.started
    ensures i < |g.places| && g.places[i] + SizeOf(w, x) == PlaceOf(g.places, m.hp, g.started)
  {
    hide ForwardOk, PlacesOk, Contents, DoneOk, StatusOk, BucketsOk, QueueOk, RootsOk, KeysOk, GreyOk, Needed;
  }

  lemma MoreToScan(w: World, m: Memory, g: Progress)
    requires Inv(w, m, g, 0) && PlaceOf(g.places, m.hp, g.started) < m.hp
    ensures g.started < |g.copies|
  {
    hide ForwardOk, PlacesOk, Contents, DoneOk, StatusOk, BucketsOk, QueueOk, RootsOk, KeysOk, GreyOk, Needed;
  }

  lemma NoMoreToScan(w: World, m: Memory, g: Progress)
    requires Inv(w, m, g, 0) && PlaceOf(g.places, m.hp, g.started) >= m.hp
    ensures g.started == |g.copies| && PlaceOf(g.places, m.hp, g.started) == m.hp
  {
    hide ForwardOk, Contents, DoneOk, StatusOk, BucketsOk, QueueOk, RootsOk, KeysOk, Needed;
    assert forall i | 0 <= i < |g.copies| :: g.copies[i] in w.layout && g.places[i] < m.hp;
  }

  /** `e` is claimed, and exactly the slots `js` of it are done. */
  ghost predicate Partway(g: Progress, e: Addr, js: set<int>) {
    && e in g.status && g.status[e].Claimed?
    && e in g.at
    && ((e, CHAIN) in g.done <==> CHAIN in js)
    && ((e, KEY) in g.done <==> KEY in js)
    && ((e, VALUE) in g.done <==> VALUE in js)
  }

  lemma GrowsOver(w: World, g: Progress, e: Addr)
    ensures Grows(w, g, g, {}, {e})
  {
  }

  lemma GrowsAbout(w: World, g0: Progress, g1: Progress, g: Progress, e: Addr, j: int)
    requires WellFormed(w) && Grows(w, g0, g1, {}, {e}) && Grows(w, g1, g, {(e, j)}, {})
    ensures Grows(w, g0, g, {}, {e})
  {
    LargeAreNotEphemerons(w);
    GrowsWeaken(w, g1, g, {(e, j)}, {(e, j)}, {e});
    GrowsTrans(w, g0, g1, g, {}, {(e, j)}, {e});
    forall y, k | (y, k) in g.done && (y, k) !in g0.done ensures MayAppear(g0, {}, {e}, y, k) {
      assert MayAppear(g0, {} + {(e, j)}, {e}, y, k);
    }
  }

  lemma GrowsFinish(w: World, g0: Progress, g: Progress, e: Addr, s: Status)
    requires WellFormed(w) && Grows(w, g0, g, {}, {e})
    ensures Grows(w, g0, StatusProgress(g, e, s), {}, {e})
  {
    LargeAreNotEphemerons(w);
    StatusGrows(w, g, e, s);
    GrowsTrans(w, g0, g, StatusProgress(g, e, s), {}, {}, {e});
    var none: set<(Addr, int)> := {};
    assert none + none == none;
  }

  lemma ClaimPartway(g: Progress, e: Addr)
    requires e in g.at && Begun(g, e) && forall k :: (e, k) !in g.done
    ensures Partway(StatusProgress(g, e, Claimed), e, {}) && Begun(StatusProgress(g, e, Claimed), e)
  {
  }

  lemma PartwayMayUpdate(w: World, g: Progress, e: Addr, j: int, js: set<int>)
    requires Partway(g, e, js) && e in w.ephemerons
    requires (j == CHAIN && js == {}) || (j == VALUE && js == {CHAIN, KEY})
    ensures Traced(w, e, j) && (e, j) !in g.done && MayUpdate(w, g, e, j)
  {
  }

  lemma PartwayNext(w: World, g1: Progress, g: Progress, e: Addr, j: int, js: set<int>)
    requires Partway(g1, e, js) && Grows(w, g1, g, {(e, j)}, {}) && (e, j) in g.done
    ensures Partway(g, e, js + {j})
  {
    forall k | k != j ensures (e, k) in g.done <==> (e, k) in g1.done {
      assert (e, k) in g.done && (e, k) !in g1.done ==> MayAppear(g1, {(e, j)}, {}, e, k);
    }
  }

  lemma PartwaySays(w: World, m: Memory, g: Progress, e: Addr, js: set<int>)
    requires WellFormed(w) && Inv(w, m, g, 0) && Partway(g, e, js) && KEY !in js && e in w.ephemerons
    ensures g.at[e] in m.store && |m.store[g.at[e]]| == 6
    ensures m.store[g.at[e]][KEY] == 0 <==> Dead(w, e)
    ensures Names(g, g.at[e], e) && (e, KEY) !in g.done
  {
    hide CopiesOk, PlacesOk, StatusOk, BucketsOk, QueueOk, RootsOk, KeysOk, GreyOk, Needed;
    EphemeronInside(w, m, g, e);
    ShowsSays(w, g, e, m.store[g.at[e]]);
  }

  lemma PartwayReady(w: World, g: Progress, e: Addr, js: set<int>)
    requires Partway(g, e, js) && js == if Dead(w, e) then {CHAIN} else {CHAIN, KEY, VALUE}
    ensures e in g.status && g.status[e].Claimed? && ReadyToFinish(w, g, e)
  {
  }

  lemma PartwayPending(w: World, g: Progress, e: Addr)
    requires Partway(g, e, {CHAIN})
    ensures e in g.status && g.status[e].Claimed? && (e, CHAIN) in g.done && (e, KEY) !in g.done
  {
  }

  /** The key of a claimed ephemeron is live, and its key slot now says where the key is. */
  lemma KeyPartway(w: World, m: Memory, g0: Progress, g: Progress, e: Addr)
    requires WellFormed(w) && Inv(w, m, g, 0) && e in w.ephemerons && Partway(g, e, {CHAIN}) && Begun(g, e)
    requires !Dead(w, e) && Found(g.at, Word(w, e, KEY)) && Grows(w, g0, g, {}, {e})
    ensures g.at[e] in m.store && |m.store[g.at[e]]| == 6
    ensures Inv(w, Write(m, g.at[e], m.store[g.at[e]][KEY := Image(g.at, Word(w, e, KEY))]), SlotProgress(g, e, KEY), 0)
    ensures Partway(SlotProgress(g, e, KEY), e, {CHAIN, KEY}) && Begun(SlotProgress(g, e, KEY), e)
    ensures Grows(w, g0, SlotProgress(g, e, KEY), {}, {e})
  {
    hide CopiesOk, PlacesOk, ForwardOk, Contents, DoneOk, StatusOk, BucketsOk, QueueOk, RootsOk, KeysOk, GreyOk, Needed, WellFormed;
    EphemeronInside(w, m, g, e);
    SlotStep(w, m, g, e, KEY, 0);
    SlotGrows(w, g, e, KEY);
    GrowsAbout(w, g0, g, SlotProgress(g, e, KEY), e, KEY);
  }

  /** Exactly the first `n` slots are done. */
  ghost predicate SlotsDone(g: Progress, x: Addr, slots: seq<int>, n: int) {
    && (forall k | 0 <= k < n && k < |slots| :: (x, slots[k]) in g.done)
    && (forall k | n <= k < |slots| && 0 <= k :: (x, slots[k]) !in g.done)
  }

  lemma SlotsStart(g: Progress, x: Addr, slots: seq<int>)
    requires Untouched(g, x)
    ensures x !in g.status && SlotsDone(g, x, slots, 0)
  {
    forall k | 0 <= k < |slots| ensures (x, slots[k]) !in g.done {
      var j := slots[k];
      assert (x, j) !in g.done;
    }
  }

  lemma SlotReady(w: World, g: Progress, x: Addr, slots: seq<int>, i: int)
    requires x !in w.ephemerons && x !in g.status && SlotsDone(g, x, slots, i) && 0 <= i < |slots|
    requires x in w.slots && slots[i] in w.slots[x]
    ensures Traced(w, x, slots[i]) && (x, slots[i]) !in g.done && MayUpdate(w, g, x, slots[i])
    ensures {(x, slots[i])} <= SlotSet(w, x)
  {
  }

  lemma SlotsNext(w: World, g1: Progress, g: Progress, x: Addr, slots: seq<int>, i: int)
    requires Distinct(slots) && SlotsDone(g1, x, slots, i) && 0 <= i < |slots|
    requires Grows(w, g1, g, {(x, slots[i])}, {}) && x in g1.at && x !in g1.status && (x, slots[i]) in g.done
    ensures SlotsDone(g, x, slots, i + 1) && x !in g.status
  {
    OthersUntouched(w, g1, g, x, slots[i]);
  }

  lemma NotPointer(ref: int)
    requires ref == 0 || ref % 2 != 0
    ensures !Pointer(ref)
  {
    if ref % 8 == 0 {
      AlignedIsEven(ref, ref / 8);
    }
  }

  /** Each of the words is in the list once. */
  ghost predicate Lists(slots: seq<int>, words: set<int>) {
    && Distinct(slots)
    && (forall i | 0 <= i < |slots| :: slots[i] in words)
    && (forall j | j in words :: j in slots)
  }

  lemma SlotListed(slots: seq<int>, words: set<int>, i: int)
    requires Lists(slots, words) && 0 <= i < |slots|
    ensures slots[i] in words && Distinct(slots)
  {
  }

  lemma PlainComplete(w: World, g: Progress, x: Addr, slots: seq<int>)
    requires x !in w.ephemerons && x in w.slots && Lists(slots, w.slots[x])
    requires SlotsDone(g, x, slots, |slots|)
    ensures Complete(w, g, x)
  {
    forall j | Traced(w, x, j) ensures (x, j) in g.done {
      assert j in slots;
    }
  }

  /** Every pending ephemeron whose key is `obj` is still to be met in `links`. */
  ghost predicate Waiting(w: World, g: Progress, obj: Addr, links: seq<Addr>) {
    forall e | e in g.status && g.status[e].Pending? && Word(w, e, KEY) == obj :: e in g.at && g.at[e] in links
  }

  lemma WaitingStart(w: World, m: Memory, g: Progress, obj: Addr)
    requires WellFormed(w) && Inv(w, m, g, obj)
    ensures 0 <= w.hash(obj) < |m.buckets| && Waiting(w, g, obj, m.buckets[w.hash(obj)][0..])
  {
    assert m.buckets[w.hash(obj)][0..] == m.buckets[w.hash(obj)];
  }

  lemma LinkPublished(w: World, m: Memory, g: Progress, busy: Addr, b: int, i: int)
    requires Inv(w, m, g, busy) && 0 <= b < |m.buckets| && 0 <= i < |m.buckets[b]|
    ensures Published(g, m.buckets[b][i])
  {
  }

  /** Once the link of `e` is past, `e` need not be waited for unless it is pending on `obj`. */
  lemma WaitingNext(w: World, m: Memory, g: Progress, obj: Addr, links: seq<Addr>, i: int, e: Addr)
    requires Inv(w, m, g, obj) && 0 <= i < |links| && Names(g, links[i], e) && Waiting(w, g, obj, links[i..])
    ensures !g.status[e].Pending? || Word(w, e, KEY) != obj ==> Waiting(w, g, obj, links[i + 1..])
    ensures g.status[e].Pending? ==> Waiting(w, ResolveProgress(g, e), obj, links[i + 1..])
    ensures (links[..i] + links[i + 1..])[i..] == links[i + 1..]
  {
    assert links[i..] == [links[i]] + links[i + 1..];
  }

  lemma WaitingEnd(w: World, m: Memory, g: Progress, obj: Addr, links: seq<Addr>)
    requires Inv(w, m, g, obj) && links == [] && Waiting(w, g, obj, links)
    ensures Inv(w, m, g, 0)
  {
    CalmStep(w, m, g, obj);
  }

  lemma GrowsThen(w: World, g: Progress, g1: Progress, g2: Progress)
    requires WellFormed(w) && Grows(w, g, g1, {}, {}) && Grows(w, g1, g2, {}, {})
    ensures Grows(w, g, g2, {}, {})
  {
    LargeAreNotEphemerons(w);
    GrowsTrans(w, g, g1, g2, {}, {}, {});
    var none: set<(Addr, int)> := {};
    assert none + none == none;
  }

  lemma LargeAreNotEphemerons(w: World)
    requires WellFormed(w)
    ensures forall x | x in w.large :: x !in w.ephemerons
  {
  }

  lemma WriteTwice(s: map<Addr, Object>, a: Addr, o: Object, o2: Object)
    ensures s[a := o][a := o2] == s[a := o2]
  {
  }

  lemma PendingSays(w: World, m: Memory, g: Progress, busy: Addr, e: Addr)
    requires WellFormed(w) && Inv(w, m, g, busy) && e in g.status && g.status[e].Pending?
    ensures e in w.ephemerons && !Dead(w, e) && (e, KEY) !in g.done && Pointer(Word(w, e, KEY))
    ensures e in g.at && g.at[e] in m.store && |m.store[g.at[e]]| == 6 && m.store[g.at[e]][STATE] == 2
  {
    hide Contents, DoneOk, StatusOk, BucketsOk, QueueOk, RootsOk, CopiesOk, PlacesOk, ForwardOk, KeysOk, GreyOk, Needed, WellFormed, Shows;
    assert StatusOk(w, g, e);
    StatusSays(w, g, e);
    EphemeronInside(w, m, g, e);
    ShowsSays(w, g, e, m.store[g.at[e]]);
  }

  lemma KeySays(w: World, m: Memory, g: Progress, busy: Addr, e: Addr)
    requires WellFormed(w) && Inv(w, m, g, busy) && e in g.status && (e, KEY) !in g.done && !Dead(w, e)
    ensures e in g.at && g.at[e] in m.store && |m.store[g.at[e]]| == 6
    ensures m.store[g.at[e]][KEY] == Word(w, e, KEY) && RefOk(w, Word(w, e, KEY)) && Word(w, e, KEY) != 0
  {
    hide Contents, DoneOk, StatusOk, BucketsOk, QueueOk, RootsOk, CopiesOk, PlacesOk, ForwardOk, KeysOk, GreyOk, Needed, WellFormed, Shows;
    StatusSays(w, g, e);
    EphemeronInside(w, m, g, e);
    ShowsSays(w, g, e, m.store[g.at[e]]);
    KeyOk(w, e);
  }

  lemma KeyOk(w: World, e: Addr)
    requires WellFormed(w) && e in w.ephemerons && !Dead(w, e)
    ensures RefOk(w, Word(w, e, KEY)) && RefOk(w, Word(w, e, VALUE))
  {
    assert Known(w, e) && Traced(w, e, KEY) && Traced(w, e, VALUE);
    assert Target(w, e, KEY) == Word(w, e, KEY) && Target(w, e, VALUE) == Word(w, e, VALUE);
  }

  lemma MarkSays(w: World, m: Memory, g: Progress, busy: Addr, x: Addr)
    requires Inv(w, m, g, busy) && x in w.large
    ensures x in m.marked <==> x in g.at
    ensures x in g.at ==> g.at[x] == x
  {
  }

  lemma SmallIsNotLarge(w: World, o: Addr)
    requires WellFormed(w) && o in w.layout
    ensures o !in w.large
  {
  }

  lemma Shrinks(large: set<Addr>, marked: set<Addr>, x: Addr)
    requires x in large && x !in marked
    ensures |large - (marked + {x})| < |large - marked|
  {
    assert large - marked == large - (marked + {x}) + {x};
  }

  lemma Fewer(large: set<Addr>, marked: set<Addr>, marked2: set<Addr>)
    requires marked <= marked2
    ensures |large - marked2| <= |large - marked|
  {
    SubsetSize(large - marked2, large - marked);
  }

  lemma LargeUntouched(w: World, m: Memory, g: Progress, x: Addr)
    requires Inv(w, m, g, 0) && x !in g.at
    ensures Untouched(g, x)
  {
    hide Contents, BucketsOk, QueueOk, RootsOk, CopiesOk, PlacesOk, ForwardOk, KeysOk, GreyOk, Needed, WellFormed, Shows;
    UnfoundUntouched(w, g, x);
  }

  lemma MarkUntouched(g: Progress, x: Addr)
    requires Untouched(g, x)
    ensures Untouched(MarkProgress(g, x), x)
  {
  }

  lemma LargeReady(w: World, m: Memory, g1: Progress, g: Progress, x: Addr)
    requires WellFormed(w) && Inv(w, m, g, 0) && x in w.large && x in g1.at && g1.at[x] == x && Untouched(g1, x)
    requires Grows(w, g1, g, {}, {})
    ensures x !in w.ephemerons && x in g.at && g.at[x] == x && Untouched(g, x) && Begun(g, x)
  {
    hide Contents, BucketsOk, QueueOk, RootsOk, CopiesOk, ForwardOk, KeysOk, GreyOk, Needed, StatusOk, DoneOk;
    LargeAreNotEphemerons(w);
  }

  ghost function SlotSet(w: World, x: Addr): set<(Addr, int)> {
    if x in w.slots then set j | j in w.slots[x] :: (x, j) else {}
  }

  lemma LargeGrows(w: World, g0: Progress, x: Addr, g2: Progress, g: Progress)
    requires WellFormed(w) && x !in g0.at
    requires Grows(w, MarkProgress(g0, x), g2, {}, {}) && Grows(w, g2, g, SlotSet(w, x), {}) && Complete(w, g, x)
    ensures Grows(w, g0, g, {}, {})
  {
    LargeAreNotEphemerons(w);
    var g1 := MarkProgress(g0, x);
    GrowsTrans(w, g1, g2, g, {}, SlotSet(w, x), {});
    forall y, k | (y, k) in g.done && (y, k) !in g0.done ensures MayAppear(g0, {}, {}, y, k) {
      assert MayAppear(g1, {} + SlotSet(w, x), {}, y, k);
    }
  }

  lemma GrowsNone(w: World, g: Progress, extra: set<(Addr, int)>)
    ensures Grows(w, g, g, extra, {})
  {
  }

  lemma GrowsAlso(w: World, g0: Progress, g1: Progress, g: Progress, extra: set<(Addr, int)>)
    requires WellFormed(w) && Grows(w, g0, g1, {}, {}) && Grows(w, g1, g, extra, {})
    ensures Grows(w, g0, g, extra, {})
  {
    LargeAreNotEphemerons(w);
    GrowsTrans(w, g0, g1, g, {}, extra, {});
    assert {} + extra == extra;
  }

  lemma GrowsMore(w: World, g0: Progress, g1: Progress, g: Progress, all: set<(Addr, int)>, some: set<(Addr, int)>)
    requires WellFormed(w) && Grows(w, g0, g1, all, {}) && Grows(w, g1, g, some, {}) && some <= all
    ensures Grows(w, g0, g, all, {})
  {
    LargeAreNotEphemerons(w);
    GrowsTrans(w, g0, g1, g, all, some, {});
    assert all + some == all;
  }

  lemma OthersUntouched(w: World, g1: Progress, g: Progress, x: Addr, j: int)
    requires Grows(w, g1, g, {(x, j)}, {}) && x in g1.at && x !in g1.status
    ensures x !in g.status && forall k | k != j :: (x, k) in g.done <==> (x, k) in g1.done
  {
  }

  /** Before it is visited, a traced slot still holds the old word. */
  lemma SlotSays(w: World, m: Memory, g: Progress, x: Addr, j: int)
    requires WellFormed(w) && Inv(w, m, g, 0) && x in g.at && Traced(w, x, j) && (x, j) !in g.done && MayUpdate(w, g, x, j)
    ensures g.at[x] in m.store && 0 < j < |m.store[g.at[x]]| && m.store[g.at[x]][j] == Target(w, x, j)
    ensures RefOk(w, Target(w, x, j))
    ensures x in w.ephemerons && j == VALUE ==> (x, KEY) in g.done && !Dead(w, x)
  {
    hide BucketsOk, QueueOk, RootsOk, CopiesOk, PlacesOk, KeysOk, GreyOk, Needed, WellFormed;
    SlotInside(w, m, g, x, j);
    if x in w.ephemerons && j == VALUE { ValueNotDead(w, g, x, j); }
    TargetOk(w, x, j);
  }

  lemma ValueNotDead(w: World, g: Progress, x: Addr, j: int)
    requires (forall e | e in g.status :: StatusOk(w, g, e)) && MayUpdate(w, g, x, j) && x in w.ephemerons && j == VALUE
    ensures (x, KEY) in g.done && !Dead(w, x)
  {
    assert StatusOk(w, g, x);
  }

  lemma TargetOk(w: World, x: Addr, j: int)
    requires WellFormed(w) && Known(w, x) && Traced(w, x, j) && (x in w.ephemerons && j == VALUE ==> !Dead(w, x))
    ensures RefOk(w, Target(w, x, j))
  {
  }

  lemma SlotStays(w: World, m0: Memory, g0: Progress, m: Memory, g: Progress, x: Addr, j: int)
    requires WellFormed(w) && Inv(w, m0, g0, 0) && Inv(w, m, g, 0) && Grows(w, g0, g, {}, {})
    requires x in g0.at && Begun(g0, x) && MayUpdate(w, g0, x, j)
    ensures x in g.at && g.at[x] == g0.at[x] && Begun(g, x) && MayUpdate(w, g, x, j)
  {
    hide Contents, BucketsOk, QueueOk, RootsOk, ForwardOk, KeysOk, GreyOk, Needed, StatusOk, DoneOk, WellFormed;
    BegunStays(w, m0, g0, g, {}, {}, x);
  }

  /** The slots read off the current version of an untouched object are its slots. */
  lemma SlotsSay(types: seq<TypeInfo>, rank: map<Addr, nat>, w: World, m: Memory, g: Progress, x: Addr)
    requires Described(types, rank, w) && WellFormed(w) && Inv(w, m, g, 0) && x in g.at && Untouched(g, x) && x !in w.ephemerons
    ensures g.at[x] in m.store && x in w.store && m.store[g.at[x]] == w.store[x]
    ensures |w.store[x]| > 0 && KnownTag(types, w.store[x][0])
    ensures IsArray(TypeOf(types, w.store[x][0]).kind) ==> |w.store[x]| >= 2
    ensures x in w.slots && Lists(RefSlots(TypeOf(types, w.store[x][0]), w.store[x]), w.slots[x])
    ensures x !in g.status && SlotsDone(g, x, RefSlots(TypeOf(types, w.store[x][0]), w.store[x]), 0)
  {
    hide RefSlots, RefWords, Sized, Lists, SizeInBytes, TypeOk, ChainsOk, Skip, SpacesOk, RefsOk, CopiesOk, PlacesOk, StatusOk, BucketsOk, QueueOk, RootsOk, Needed, KeysOk, GreyOk;
    FreshSays(w, m, g, x);
    assert Known(w, x);
    assert DescribedAt(types, w, x);
    SlotsListed(types, w.store[x]);
    SlotsStart(g, x, RefSlots(TypeOf(types, w.store[x][0]), w.store[x]));
  }

  lemma SlotsListed(types: seq<TypeInfo>, o: Object)
    requires ObjectOk(types, o)
    ensures var t := TypeOf(types, o[0]); Lists(RefSlots(t, o), RefWords(t, o))
  {
    hide RefSlots, RefWords, Sized, TypeOk;
    var t := TypeOf(types, o[0]);
    RefSlotsInside(types, o);
    var slots := RefSlots(t, o);
    forall i | 0 <= i < |slots| ensures slots[i] in RefWords(t, o) {
      assert slots[i] in slots;
      RefSlotsAre(types, o, slots[i]);
    }
    forall j | j in RefWords(t, o) ensures j in slots { RefSlotsAre(types, o, j); }
  }

  // ----- ephemerons ------------------------------------------------------------------------

  /** From-space ephemerons still hold their old key and chain words. */
  ghost predicate OldEphemerons(w: World, store: map<Addr, Object>) {
    forall e | e in w.ephemerons ::
      && e in w.store && |w.store[e]| == 6
      && e in store && |store[e]| == 6 && store[e][KEY] == w.store[e][KEY] && store[e][CHAIN] == w.store[e][CHAIN]
  }

  lemma OldKept(w: World, m: Memory, g: Progress, e: Addr, store: map<Addr, Object>)
    requires WellFormed(w) && Inv(w, m, g, 0) && e in g.at && e in w.ephemerons
    requires g.at[e] in store && store == m.store[g.at[e] := store[g.at[e]]]
    ensures OldEphemerons(w, store)
  {
    hide CopiesOk, Contents, DoneOk, StatusOk, BucketsOk, QueueOk, RootsOk, KeysOk, GreyOk, Needed;
    assert Known(w, e);
    HpBelow(w, m, g);
  }

  lemma HpBelow(w: World, m: Memory, g: Progress)
    requires WellFormed(w) && Inv(w, m, g, 0)
    ensures m.hp <= w.toBase + w.active && g.started <= |g.copies|
  {
    hide PlacesOk, Contents, DoneOk, StatusOk, BucketsOk, QueueOk, RootsOk, KeysOk, Needed, ForwardOk;
    HpInside(w, m, g);
  }

  lemma ChainSays(types: seq<TypeInfo>, rank: map<Addr, nat>, w: World, e: Addr)
    requires WellFormed(w) && Described(types, rank, w) && e in w.ephemerons
    ensures ChainsOk(w.store, w.ephemerons, rank) && e in w.store && |w.store[e]| == 6
    ensures w.store[e][CHAIN] == 0 || w.store[e][CHAIN] in w.ephemerons
    ensures Target(w, e, CHAIN) == Skip(w.store, w.ephemerons, rank, w.store[e][CHAIN])
    ensures Word(w, e, STATE) == 0 && Word(w, e, EPOCH) < w.epoch
  {
    hide DescribedAt, SpacesOk, RefsOk;
  }

  /** What the words of an ephemeron say about how far its tracing has got. */
  lemma EphemeronSays(w: World, m: Memory, g: Progress, e: Addr)
    requires WellFormed(w) && Inv(w, m, g, 0) && e in w.ephemerons && e in g.at
    ensures g.at[e] in m.store && |m.store[g.at[e]]| == 6
    ensures e !in g.status ==> m.store[g.at[e]][STATE] == Word(w, e, STATE) && m.store[g.at[e]][EPOCH] == Word(w, e, EPOCH)
    ensures e !in g.status ==> m.store[g.at[e]][CHAIN] == Word(w, e, CHAIN)
    ensures e in g.status ==> m.store[g.at[e]][EPOCH] == w.epoch && m.store[g.at[e]][STATE] == Code(g.status[e])
    ensures e !in g.status ==> forall k :: (e, k) !in g.done
  {
    hide CopiesOk, PlacesOk, StatusOk, BucketsOk, QueueOk, RootsOk, KeysOk, GreyOk, Needed, WellFormed;
    EphemeronInside(w, m, g, e);
  }

  lemma Undone(s: map<Addr, Object>, a: Addr)
    requires a in s && |s[a]| > STATE && s[a][STATE] == 0
    ensures s[a := s[a][STATE := 1]][a := s[a][STATE := 1][STATE := 0]] == s
  {
    assert s[a][STATE := 1][STATE := 0] == s[a];
  }

  // ----- collection --------------------------------------------------------------------------

  lemma NothingSettled(w: World, m: Memory)
    requires Inv(w, m, NOTHING, 0) && m.hp == w.toBase
    ensures Settled(w, NOTHING) && m.hp == PlaceOf(NOTHING.places, m.hp, 0)
  {
  }

  lemma StartPlace(w: World, m: Memory, g: Progress)
    requires Inv(w, m, g, 0) && g.started == 0
    ensures w.toBase == PlaceOf(g.places, m.hp, 0)
  {
    hide ForwardOk, PlacesOk, Contents, DoneOk, StatusOk, BucketsOk, QueueOk, RootsOk, KeysOk, GreyOk, Needed;
  }

  /** Once the table has been scanned, keys can be checked eagerly. */
  lemma CheckStep(w: World, m: Memory, g: Progress)
    requires Inv(w, m, g, 0) && NoneOverdue(w, g)
    ensures Inv(w, m.(checking := true), g, 0)
  {
  }

  lemma TracingEnds(w: World, m: Memory, g: Progress)
    requires WellFormed(w) && Inv(w, m, g, 0) && Settled(w, g) && g.started == |g.copies|
    requires m.resolved == [] && g.work == [] && m.checking && g.rootsDone == |w.roots|
    ensures Exhausted(w, m, g)
  {
    hide CopiesOk, Contents, DoneOk, BucketsOk, QueueOk, RootsOk, GreyOk, Needed, Complete, WellFormed;
    EverythingComplete(w, m, g);
    forall e | e in g.status ensures g.status[e].Pending? || g.status[e].Finished? {
      NothingQueued(w, m, g, e);
    }
    forall e | e in g.status && g.status[e].Pending? ensures Word(w, e, KEY) !in g.at {
      assert StatusOk(w, g, e);
    }
  }

  /** From the end of tracing to the guarantees of a collection. */
  lemma CollectionEnds(types: seq<TypeInfo>, rank: map<Addr, nat>, w: World, m: Memory, g: Progress, store: map<Addr, Object>)
    requires WellFormed(w) && Described(types, rank, w) && Inv(w, m, g, 0) && Exhausted(w, m, g) && Swept(w, store, g)
    ensures PlacesOk(w, m, g)
    ensures Live(w, g.at.Keys) && Preserved(w, g.at, store, m.roots)
    ensures m.marked == w.large * g.at.Keys
    ensures forall a | a in g.places :: exists x :: x in g.at && g.at[x] == a
    ensures var w2 := NewWorld(types, rank, w, m, g, store);
            WellFormed(w2) && TypesOk(types, NewRank(rank, w, m, g), w2) && SameShape(w, g.at, w2)
  {
    hide WellFormed, Described, Exhausted, Swept, CopiesOk, Contents, DoneOk, StatusOk, BucketsOk, QueueOk, RootsOk, KeysOk, GreyOk, Needed, MovedTo, NewRank, MakeWorld, TypesOk;
    assert Outcome(types, rank, w, m, g, store) by { SweptOutcome(types, rank, w, m, g, store); }
    FoundIsLive(w, m, g);
    MarkedIsLive(w, m, g);
    NewRoots(types, rank, w, m, g, store);
    NewHeap(types, rank, w, m, g, store);
    NewShape(types, rank, w, m, g, store);
    forall a | a in g.places ensures exists x :: x in g.at && g.at[x] == a {
      var x := Origin(w, m, g, a);
    }
  }

  lemma MarkedIsLive(w: World, m: Memory, g: Progress)
    requires ForwardOk(w, m, g)
    ensures m.marked == w.large * g.at.Keys
  {
    forall x | x in w.large * g.at.Keys ensures x in m.marked {}
    forall x | x in m.marked ensures x in w.large * g.at.Keys {
      assert x in w.large && x in g.at;
    }
  }

  lemma SweptOutcome(types: seq<TypeInfo>, rank: map<Addr, nat>, w: World, m: Memory, g: Progress, store: map<Addr, Object>)
    requires WellFormed(w) && Described(types, rank, w) && Inv(w, m, g, 0) && Exhausted(w, m, g) && Swept(w, store, g)
    ensures Outcome(types, rank, w, m, g, store)
  {
    hide WellFormed, Described, Exhausted, CopiesOk, PlacesOk, Contents, DoneOk, StatusOk, BucketsOk, QueueOk, RootsOk, KeysOk, GreyOk, Needed, MovedTo;
    forall x | x in g.at ensures Known(w, x) && g.at[x] in store && MovedTo(w, g.at, x, store[g.at[x]]) {
      assert ShowsFinally(w, g, x, store[g.at[x]]);
      if x in g.status && g.status[x].Pending? { PendingSize(w, m, g, x); }
      FinallyMoved(w, m, g, x, store[g.at[x]]);
    }
  }

  lemma PendingSize(w: World, m: Memory, g: Progress, x: Addr)
    requires WellFormed(w) && Inv(w, m, g, 0) && x in g.status && g.status[x].Pending?
    ensures SizeOf(w, x) == 48
  {
    hide CopiesOk, PlacesOk, Contents, DoneOk, BucketsOk, QueueOk, RootsOk, KeysOk, GreyOk, Needed;
    assert StatusOk(w, g, x);
  }
}
