/** The race over ephemerons can always come to rest: from every state each worker can come to the end of
    what it is doing, and what has been resolved can be traced. */
module EphemeronRest {
  import opened Basics
  import opened Runs
  import opened EphemeronRace

  ghost function Steps(c: Table): (State, State) -> bool {
    (s: State, s2: State) => Next(c, s, s2)
  }

  // ----- how far a worker is from its end --------------------------------------------------

  function StampOf(l: Lists, n: Eph): int {
    if n in l.stamp then l.stamp[n] else 0
  }

  /** Every ephemeron behind a link was published before this. */
  function Bound(l: Lists, loc: Loc): int {
    match loc
    case Bucket => l.clock
    case After(n) => StampOf(l, n)
  }

  /** Buckets a walk has left. */
  function Buckets(c: Table, w: Walk): int {
    match w
    case Seek(_, _) => 0
    case Scan(b) => c.buckets - b
  }

  function ThenBuckets(c: Table, after: Then): int {
    match after
    case Stop => 0
    case Continue(w) => Buckets(c, w)
  }

  function Far(c: Table, pc: Pc): int {
    match pc
    case Load(w, _) => Buckets(c, w)
    case Skip(w, _, _, _) => Buckets(c, w)
    case Advance(w, _, _, _) => Buckets(c, w)
    case Update(w, _, _, _) => Buckets(c, w)
    case Visit(w, _) => Buckets(c, w)
    case Resolve(_, after) => ThenBuckets(c, after)
    case JoinLoad(_, after) => ThenBuckets(c, after)
    case JoinLink(_, _, after) => ThenBuckets(c, after)
    case JoinCas(_, _, after) => ThenBuckets(c, after)
    case _ => 0
  }

  function ThenBound(l: Lists, e: Eph, after: Then): int {
    if after.Continue? then StampOf(l, e) else 0
  }

  /** How much of its list is before it. */
  function Near(l: Lists, pc: Pc): int {
    match pc
    case Load(_, loc) => Bound(l, loc)
    case Skip(_, loc, _, _) => Bound(l, loc)
    case Advance(_, loc, _, _) => Bound(l, loc)
    case Update(_, loc, _, _) => Bound(l, loc)
    case Visit(_, e) => StampOf(l, e)
    case Resolve(e, after) => ThenBound(l, e, after)
    case JoinLoad(e, after) => ThenBound(l, e, after)
    case JoinLink(e, _, after) => ThenBound(l, e, after)
    case JoinCas(e, _, after) => ThenBound(l, e, after)
    case _ => 0
  }

  function Above(l: Lists, after: Then): int {
    if after.Continue? then 4 * l.clock + 40 else 0
  }

  /** A cursor whose link no longer holds what was loaded has to start over. */
  function Cursor(l: Lists, w: Walk, loc: Loc, h: Eph, n: Eph): int {
    (if At(l, w, loc) == h then 0 else 2 * l.clock + 10) + if n == 0 then 0 else 2 * StampOf(l, n) + 2
  }

  function Minor(c: Table, s: State, pc: Pc): int {
    var l, top := s.lists, s.stack.top;
    match pc
    case Idle => 0
    case Epoch(_) => 19
    case FirstVisit(_) => 18
    case SetPending(_) => 17
    case PushLoad(_) => 16
    case PushLink(e, tail) => if LinkOf(l.heads, BucketOf(c, e)) == tail then 13 else 15
    case PushCas(e, tail) => if LinkOf(l.heads, BucketOf(c, e)) == tail then 12 else 14
    case Direct(_) => 12
    case Recheck(_) => 11
    case Resolve(_, after) => Above(l, after) + 10
    case JoinLoad(_, after) => Above(l, after) + 9
    case JoinLink(_, tail, after) => Above(l, after) + if top == tail then 6 else 8
    case JoinCas(_, tail, after) => Above(l, after) + if top == tail then 5 else 7
    case Load(_, _) => 4 * l.clock + 40
    case Skip(w, loc, h, n) => Cursor(l, w, loc, h, n) + 2
    case Advance(w, loc, h, n) => Cursor(l, w, loc, h, n) + 1
    case Update(w, loc, h, n) => (if At(l, w, loc) == h then 0 else 2 * l.clock + 10) + 1
    case Visit(_, _) => 4 * l.clock + 51
  }

  ghost predicate Nearer(c: Table, s: State, pc: Pc, s2: State, pc2: Pc) {
    && 0 <= Far(c, pc2) && 0 <= Near(s2.lists, pc2) && 0 <= Minor(c, s2, pc2)
    && Far(c, pc2) <= Far(c, pc)
    && (Far(c, pc2) == Far(c, pc) ==> Near(s2.lists, pc2) <= Near(s.lists, pc))
    && (Far(c, pc2) == Far(c, pc) && Near(s2.lists, pc2) == Near(s.lists, pc) ==> Minor(c, s2, pc2) < Minor(c, s, pc))
  }

  // ----- a worker can go on ----------------------------------------------------------------

  /** The worker alone moves. */
  ghost predicate OnlyMoves(s: State, s2: State, id: int) {
    id in s.workers && id in s2.workers && s2.workers == s.workers[id := s2.workers[id]]
  }

  lemma EpochCan(c: Table, s: State, id: int) returns (s2: State)
    requires id in s.workers && (s.workers[id].Epoch?)
    ensures OnlyMoves(s, s2, id) && Publish(c, s, s2, id) && s2.checking == s.checking
    ensures Nearer(c, s, s.workers[id], s2, s2.workers[id])
  {
    hide KeyOf, BucketOf, Published, LinkOf;
    var e := s.workers[id].e;
    if e in s.visited {
      s2 := Go(s, id, Idle).(status := s.status[e := Traced], owner := s.owner - {e});
    } else {
      s2 := Go(s, id, FirstVisit(e)).(visited := s.visited + {e}, lists := s.lists.(pend := s.lists.pend[e := 0]),
                                      stack := s.stack.(res := s.stack.res[e := 0]));
    }
  }

  lemma FirstVisitCan(c: Table, s: State, id: int) returns (s2: State)
    requires id in s.workers && (s.workers[id].FirstVisit?)
    ensures OnlyMoves(s, s2, id) && Publish(c, s, s2, id) && s2.checking == s.checking
    ensures Nearer(c, s, s.workers[id], s2, s2.workers[id])
  {
    hide KeyOf, BucketOf, Published, LinkOf;
    var e := s.workers[id].e;
    if e in c.dead {
      s2 := Go(s, id, Idle).(status := s.status[e := Traced], owner := s.owner - {e});
    } else if KeyOf(c, e) in s.marked {
      s2 := Go(s, id, Direct(e)).(direct := s.direct + multiset{e});
    } else {
      s2 := Go(s, id, SetPending(e));
    }
  }

  lemma QuietCan(c: Table, s: State, id: int) returns (s2: State)
    requires id in s.workers && (s.workers[id].Direct? || s.workers[id].SetPending? || s.workers[id].Recheck?)
    ensures OnlyMoves(s, s2, id) && Publish(c, s, s2, id) && s2.checking == s.checking
    ensures Nearer(c, s, s.workers[id], s2, s2.workers[id])
  {
    hide KeyOf, BucketOf, Published, LinkOf;
    var pc, e := s.workers[id], s.workers[id].e;
    if pc.Direct? {
      s2 := Go(s, id, Idle).(status := s.status[e := Traced], owner := s.owner - {e});
    } else if pc.SetPending? {
      s2 := Go(s, id, PushLoad(e)).(status := s.status[e := Pending]);
    } else {
      s2 := Go(s, id, if KeyOf(c, e) in s.marked then Resolve(e, Stop) else Idle);
    }
  }

  lemma PushCan(c: Table, s: State, id: int) returns (s2: State)
    requires id in s.workers && (s.workers[id].PushLoad? || s.workers[id].PushLink?)
    ensures OnlyMoves(s, s2, id) && Publish(c, s, s2, id) && s2.checking == s.checking
    ensures Nearer(c, s, s.workers[id], s2, s2.workers[id])
  {
    hide KeyOf, BucketOf, Published, LinkOf;
    var pc, e := s.workers[id], s.workers[id].e;
    if pc.PushLoad? {
      s2 := Go(s, id, PushLink(e, LinkOf(s.lists.heads, BucketOf(c, e))));
    } else {
      s2 := Go(s, id, PushCas(e, pc.tail)).(lists := s.lists.(pend := s.lists.pend[e := pc.tail]));
    }
  }

  lemma PushCasCan(c: Table, s: State, id: int) returns (s2: State)
    requires id in s.workers && (s.workers[id].PushCas?)
    ensures OnlyMoves(s, s2, id) && Publish(c, s, s2, id) && s2.checking == s.checking
    ensures Nearer(c, s, s.workers[id], s2, s2.workers[id])
  {
    hide KeyOf, BucketOf, Published, LinkOf;
    var PushCas(e, tail) := s.workers[id];
    var b := BucketOf(c, e);
    if LinkOf(s.lists.heads, b) == tail {
      s2 := Go(s, id, Recheck(e)).(lists := Published(s.lists, b, e), owner := s.owner - {e});
    } else {
      s2 := Go(s, id, PushLink(e, LinkOf(s.lists.heads, b)));
    }
  }

  lemma PublishCan(c: Table, s: State, id: int) returns (s2: State)
    requires id in s.workers
    requires var pc := s.workers[id]; Owned(pc) != 0 || pc.Recheck?
    ensures OnlyMoves(s, s2, id) && Publish(c, s, s2, id) && s2.checking == s.checking
    ensures Nearer(c, s, s.workers[id], s2, s2.workers[id])
  {
    hide OnlyMoves, Publish, Nearer;
    match s.workers[id]
    case Epoch(_) => s2 := EpochCan(c, s, id);
    case FirstVisit(_) => s2 := FirstVisitCan(c, s, id);
    case PushCas(_, _) => s2 := PushCasCan(c, s, id);
    case PushLoad(_) => s2 := PushCan(c, s, id);
    case PushLink(_, _) => s2 := PushCan(c, s, id);
    case _ => s2 := QuietCan(c, s, id);
  }

  lemma ResolveCan(c: Table, s: State, id: int) returns (s2: State)
    requires id in s.workers && (s.workers[id].Resolve?)
    requires 0 <= Far(c, s.workers[id]) && 0 <= Near(s.lists, s.workers[id]) && s.lists.clock >= 0
    ensures OnlyMoves(s, s2, id) && Join(c, s, s2, id) && s2.checking == s.checking
    ensures Nearer(c, s, s.workers[id], s2, s2.workers[id])
  {
    hide Joined, StampOf, Buckets;
    var Resolve(e, after) := s.workers[id];
    if StatusOf(s.status, e) == Pending {
      s2 := Go(s, id, JoinLoad(e, after)).(status := s.status[e := Resolved], resolves := s.resolves + multiset{e},
                                           stack := s.stack.(joining := s.stack.joining[e := id]));
    } else {
      s2 := Go(s, id, Resume(e, after));
    }
  }

  lemma JoinLinkCan(c: Table, s: State, id: int) returns (s2: State)
    requires id in s.workers && (s.workers[id].JoinLoad? || s.workers[id].JoinLink?)
    requires 0 <= Far(c, s.workers[id]) && 0 <= Near(s.lists, s.workers[id]) && s.lists.clock >= 0
    ensures OnlyMoves(s, s2, id) && Join(c, s, s2, id) && s2.checking == s.checking
    ensures Nearer(c, s, s.workers[id], s2, s2.workers[id])
  {
    hide Joined, StampOf, Buckets;
    var pc, e, after := s.workers[id], s.workers[id].e, s.workers[id].after;
    if pc.JoinLoad? {
      s2 := Go(s, id, JoinLink(e, s.stack.top, after));
    } else {
      s2 := Go(s, id, JoinCas(e, pc.tail, after)).(stack := s.stack.(res := s.stack.res[e := pc.tail]));
    }
  }

  lemma JoinCasCan(c: Table, s: State, id: int) returns (s2: State)
    requires id in s.workers && (s.workers[id].JoinCas?)
    requires 0 <= Far(c, s.workers[id]) && 0 <= Near(s.lists, s.workers[id]) && s.lists.clock >= 0
    ensures OnlyMoves(s, s2, id) && Join(c, s, s2, id) && s2.checking == s.checking
    ensures Nearer(c, s, s.workers[id], s2, s2.workers[id])
  {
    hide Joined, StampOf, Buckets;
    var JoinCas(e, tail, after) := s.workers[id];
    if s.stack.top == tail {
      s2 := Go(s, id, Resume(e, after)).(stack := Joined(s.stack, e));
    } else {
      s2 := Go(s, id, JoinLink(e, s.stack.top, after));
    }
  }

  lemma JoinCan(c: Table, s: State, id: int) returns (s2: State)
    requires id in s.workers
    requires var pc := s.workers[id]; pc.Resolve? || pc.JoinLoad? || pc.JoinLink? || pc.JoinCas?
    requires 0 <= Far(c, s.workers[id]) && 0 <= Near(s.lists, s.workers[id]) && s.lists.clock >= 0
    ensures OnlyMoves(s, s2, id) && Join(c, s, s2, id) && s2.checking == s.checking
    ensures Nearer(c, s, s.workers[id], s2, s2.workers[id])
  {
    hide OnlyMoves, Join, Nearer, Far, Near;
    match s.workers[id]
    case Resolve(_, _) => s2 := ResolveCan(c, s, id);
    case JoinCas(_, _, _) => s2 := JoinCasCan(c, s, id);
    case _ => s2 := JoinLinkCan(c, s, id);
  }

  // ----- down a list -----------------------------------------------------------------------

  /** `n` is null or was published before the bound. */
  ghost predicate Before(l: Lists, n: Eph, bound: int) {
    n != 0 ==> n in l.stamp && 0 <= l.stamp[n] < bound
  }

  lemma SkipsBefore(c: Table, l: Lists, status: map<Eph, Status>, b: int, hi: int, v: Eph)
    requires ListsOk(c, l, status) && SkipsDead(c, l, status, b, hi, v)
    ensures Before(l, v, hi)
  {
    hide BucketOf, Live, LinkOf;
  }

  lemma LocBound(c: Table, l: Lists, status: map<Eph, Status>, marked: set<Key>, w: Walk, loc: Loc)
    requires ListsOk(c, l, status) && LocOk(c, l, marked, w, loc)
    ensures Bound(l, loc) == (if loc.Bucket? then l.clock else l.stamp[loc.node]) && 0 <= Bound(l, loc) <= l.clock
    ensures Buckets(c, w) >= 0 && (w.Scan? ==> Buckets(c, w) > 0)
  {
    hide SkipsDead, BucketOf, BucketFor;
  }

  lemma CursorBound(c: Table, l: Lists, status: map<Eph, Status>, marked: set<Key>, w: Walk, loc: Loc, h: Eph, n: Eph)
    requires ListsOk(c, l, status) && CursorOk(c, l, status, marked, w, loc, h, n)
    ensures Before(l, n, Bound(l, loc)) && LocOk(c, l, marked, w, loc)
  {
    LocBound(c, l, status, marked, w, loc);
    if h != 0 { SkipsBefore(c, l, status, w.bucket, l.stamp[h] + 1, n); }
    hide SkipsDead, BucketOf, WalkOk, LinkOf, Live;
  }

  /** What the invariant says to a walk. */
  ghost predicate WalkSays(c: Table, l: Lists, w: Walk, loc: Loc, n: Eph) {
    && 0 <= Bound(l, loc) <= l.clock && Before(l, n, Bound(l, loc))
    && Buckets(c, w) >= 0 && (w.Scan? ==> Buckets(c, w) > 0)
  }

  lemma LoadSays(c: Table, s: State, id: int)
    requires Inv(c, s) && id in s.workers && s.workers[id].Load?
    ensures var Load(w, loc) := s.workers[id]; WalkSays(c, s.lists, w, loc, At(s.lists, w, loc))
  {
    hide ListsOk, HeldOk, StackOk, MovedOk, CoverOk, OwnersOk, EphsOk, At, Bound, Buckets, LocOk;
    var Load(w, loc) := s.workers[id];
    assert WalkerOk(c, s.lists, s.status, s.marked, s.workers[id]);
    LocBound(c, s.lists, s.status, s.marked, w, loc);
    LoadLink(c, s.lists, s.status, s.marked, w, loc);
  }

  lemma LoadLink(c: Table, l: Lists, status: map<Eph, Status>, marked: set<Key>, w: Walk, loc: Loc)
    requires ListsOk(c, l, status) && LocOk(c, l, marked, w, loc)
    ensures Before(l, At(l, w, loc), if loc.Bucket? then l.clock else l.stamp[loc.node])
  {
    hide SkipsDead, BucketOf, Live, At, ListsOk;
    LinkSkips(c, l, status, marked, w, loc);
    SkipsBefore(c, l, status, w.bucket, if loc.Bucket? then l.clock else l.stamp[loc.node], At(l, w, loc));
  }

  lemma CursorSays(c: Table, s: State, id: int)
    requires Inv(c, s) && id in s.workers
    requires s.workers[id].Skip? || s.workers[id].Advance? || s.workers[id].Update?
    ensures var pc := s.workers[id]; WalkSays(c, s.lists, pc.w, pc.loc, pc.next)
    ensures s.workers[id].Advance? ==>
      s.workers[id].next in s.lists.stamp && Before(s.lists, LinkOf(s.lists.pend, s.workers[id].next), StampOf(s.lists, s.workers[id].next))
  {
    hide ListsOk, HeldOk, StackOk, MovedOk, CoverOk, OwnersOk, EphsOk, Bound, Buckets, CursorOk, LocOk, Live, SkipsDead;
    var pc := s.workers[id];
    assert WalkerOk(c, s.lists, s.status, s.marked, pc);
    CursorBound(c, s.lists, s.status, s.marked, pc.w, pc.loc, pc.head, pc.next);
    LocBound(c, s.lists, s.status, s.marked, pc.w, pc.loc);
    if pc.Advance? { NextSkips(c, s.lists, s.status, pc.next); }
  }

  lemma NextSkips(c: Table, l: Lists, status: map<Eph, Status>, n: Eph)
    requires ListsOk(c, l, status) && n in l.stamp
    ensures Before(l, LinkOf(l.pend, n), StampOf(l, n))
  {
    hide SkipsDead;
    SkipsBefore(c, l, status, BucketOf(c, n), l.stamp[n], LinkOf(l.pend, n));
  }

  lemma LoadCan(c: Table, s: State, id: int) returns (s2: State)
    requires id in s.workers && s.workers[id].Load? && s.lists.clock >= 0
    requires var Load(w, loc) := s.workers[id]; WalkSays(c, s.lists, w, loc, At(s.lists, w, loc))
    ensures OnlyMoves(s, s2, id) && Follow(c, s, s2, id) && s2.checking == s.checking
    ensures Nearer(c, s, s.workers[id], s2, s2.workers[id])
  {
    hide At;
    var Load(w, loc) := s.workers[id];
    var v := At(s.lists, w, loc);
    s2 := Go(s, id, if v == 0 then Return(c, w, 0) else Skip(w, loc, v, v));
  }

  lemma SkipCan(c: Table, s: State, id: int) returns (s2: State)
    requires id in s.workers && (s.workers[id].Skip? || s.workers[id].Advance?) && s.lists.clock >= 0
    requires var pc := s.workers[id]; WalkSays(c, s.lists, pc.w, pc.loc, pc.next)
    requires s.workers[id].Advance? ==>
      s.workers[id].next in s.lists.stamp && Before(s.lists, LinkOf(s.lists.pend, s.workers[id].next), StampOf(s.lists, s.workers[id].next))
    requires s.workers[id].Advance? ==> s.workers[id].next != 0
    ensures OnlyMoves(s, s2, id) && Follow(c, s, s2, id) && s2.checking == s.checking
    ensures Nearer(c, s, s.workers[id], s2, s2.workers[id])
  {
    hide At, Bound, Buckets, LinkOf;
    var pc := s.workers[id];
    var w, loc, h, n := pc.w, pc.loc, pc.head, pc.next;
    if pc.Skip? {
      s2 := Go(s, id, if n != 0 && StatusOf(s.status, n) != Pending then Advance(w, loc, h, n) else Update(w, loc, h, n));
    } else {
      s2 := Go(s, id, Skip(w, loc, h, LinkOf(s.lists.pend, n)));
    }
  }

  lemma UpdateCan(c: Table, s: State, id: int) returns (s2: State)
    requires id in s.workers && s.workers[id].Update? && s.lists.clock >= 0
    requires var pc := s.workers[id]; WalkSays(c, s.lists, pc.w, pc.loc, pc.next) && WalkSays(c, s.lists, pc.w, pc.loc, At(s.lists, pc.w, pc.loc))
    ensures OnlyMoves(s, s2, id) && Follow(c, s, s2, id) && s2.checking == s.checking
    ensures Nearer(c, s, s.workers[id], s2, s2.workers[id])
  {
    hide At;
    var Update(w, loc, h, n) := s.workers[id];
    var cur := At(s.lists, w, loc);
    if h == n || (cur != h && cur == n) {
      s2 := Go(s, id, Return(c, w, n));
    } else if cur == h {
      s2 := Go(s, id, Return(c, w, n)).(lists := Store(s.lists, w, loc, n));
    } else {
      s2 := Go(s, id, Skip(w, loc, cur, cur));
    }
  }

  lemma VisitCan(c: Table, s: State, id: int) returns (s2: State)
    requires id in s.workers && s.workers[id].Visit? && s.lists.clock >= 0
    requires Buckets(c, s.workers[id].w) >= 0 && StampOf(s.lists, s.workers[id].e) >= 0
    ensures OnlyMoves(s, s2, id) && Follow(c, s, s2, id) && s2.checking == s.checking
    ensures Nearer(c, s, s.workers[id], s2, s2.workers[id])
  {
    hide Matches, Buckets, StampOf;
    var Visit(w, e) := s.workers[id];
    s2 := Go(s, id, if Matches(c, s, w, e) then Resolve(e, Continue(w)) else Load(w, After(e)));
  }

  // ----- everybody comes to an end ---------------------------------------------------------

  lemma Clock(c: Table, s: State)
    requires Inv(c, s)
    ensures s.lists.clock >= 0
  {
    hide TableOk, WalkersOk, HeldOk, StackOk, MovedOk, CoverOk, OwnersOk, EphsOk, SkipsDead;
  }

  lemma UpdateSays(c: Table, s: State, id: int)
    requires Inv(c, s) && id in s.workers && s.workers[id].Update?
    ensures var pc := s.workers[id]; WalkSays(c, s.lists, pc.w, pc.loc, At(s.lists, pc.w, pc.loc))
  {
    hide ListsOk, HeldOk, StackOk, MovedOk, CoverOk, OwnersOk, EphsOk, At, Bound, Buckets, LocOk;
    var pc := s.workers[id];
    assert WalkerOk(c, s.lists, s.status, s.marked, pc);
    LocBound(c, s.lists, s.status, s.marked, pc.w, pc.loc);
    LoadLink(c, s.lists, s.status, s.marked, pc.w, pc.loc);
  }

  lemma StampNatural(c: Table, l: Lists, status: map<Eph, Status>, n: Eph)
    requires ListsOk(c, l, status)
    ensures StampOf(l, n) >= 0
  {
    hide SkipsDead;
  }

  lemma VisitSays(c: Table, s: State, id: int)
    requires Inv(c, s) && id in s.workers
    ensures s.workers[id].Visit? ==> Buckets(c, s.workers[id].w) >= 0 && StampOf(s.lists, s.workers[id].e) >= 0
    ensures var pc := s.workers[id];
      pc.Resolve? || pc.JoinLoad? || pc.JoinLink? || pc.JoinCas? ==> 0 <= Far(c, pc) && 0 <= Near(s.lists, pc)
  {
    hide ListsOk, HeldOk, StackOk, MovedOk, CoverOk, OwnersOk, EphsOk, StampOf, BucketOf;
    var pc := s.workers[id];
    assert WalkerOk(c, s.lists, s.status, s.marked, pc);
    if pc.Visit? || pc.Resolve? || pc.JoinLoad? || pc.JoinLink? || pc.JoinCas? { StampNatural(c, s.lists, s.status, pc.e); }
  }

  lemma AdvanceNext(c: Table, s: State, id: int)
    requires Inv(c, s) && id in s.workers
    ensures s.workers[id].Advance? ==> s.workers[id].next != 0
  {
    hide ListsOk, HeldOk, StackOk, MovedOk, CoverOk, OwnersOk, EphsOk, CursorOk;
    assert WalkerOk(c, s.lists, s.status, s.marked, s.workers[id]);
  }

  lemma FollowCan(c: Table, s: State, id: int) returns (s2: State)
    requires Inv(c, s) && id in s.workers
    requires var pc := s.workers[id]; pc.Load? || pc.Skip? || pc.Advance? || pc.Update? || pc.Visit?
    ensures OnlyMoves(s, s2, id) && Follow(c, s, s2, id) && s2.checking == s.checking
    ensures Nearer(c, s, s.workers[id], s2, s2.workers[id])
  {
    hide Inv, OnlyMoves, Follow, Nearer, WalkSays, At, Before, StampOf, Buckets;
    Clock(c, s);
    match s.workers[id]
    case Load(_, _) => LoadSays(c, s, id); s2 := LoadCan(c, s, id);
    case Update(_, _, _, _) => CursorSays(c, s, id); UpdateSays(c, s, id); s2 := UpdateCan(c, s, id);
    case Visit(_, _) => VisitSays(c, s, id); s2 := VisitCan(c, s, id);
    case _ => CursorSays(c, s, id); AdvanceNext(c, s, id); s2 := SkipCan(c, s, id);
  }

  /** A worker that is not idle can go on, and comes nearer to its end. */
  lemma WorkerCan(c: Table, s: State, id: int) returns (s2: State)
    requires Inv(c, s) && id in s.workers && !s.workers[id].Idle?
    ensures OnlyMoves(s, s2, id) && Step(c, s, s2, id) && Inv(c, s2) && s2.checking == s.checking
    ensures Nearer(c, s, s.workers[id], s2, s2.workers[id])
  {
    hide Inv, OnlyMoves, Publish, Follow, Join, Nearer, Start, Far, Near;
    var pc := s.workers[id];
    Clock(c, s);
    if pc.Resolve? || pc.JoinLoad? || pc.JoinLink? || pc.JoinCas? {
      VisitSays(c, s, id);
      s2 := JoinCan(c, s, id);
    } else if pc.Load? || pc.Skip? || pc.Advance? || pc.Update? || pc.Visit? {
      s2 := FollowCan(c, s, id);
    } else {
      HoldsSome(c, s, id);
      s2 := PublishCan(c, s, id);
    }
    StepKeepsInv(c, s, s2, id);
  }

  lemma HoldsSome(c: Table, s: State, id: int)
    requires Inv(c, s) && id in s.workers
    ensures Named(s.workers[id]) && Joining(s.workers[id]) == 0 ==> Owned(s.workers[id]) != 0
  {
    hide ListsOk, HeldOk, StackOk, MovedOk, CoverOk, EphsOk, OwnerKnows;
    assert OwnerOk(c, s, s.workers[id]);
  }

  /** Left alone a worker becomes idle. */
  lemma RunsAlone(c: Table, s: State, id: int) returns (t: State)
    requires Inv(c, s) && id in s.workers && !s.workers[id].Idle?
    ensures CanReach(Steps(c), s, t) && Inv(c, t) && OnlyMoves(s, t, id) && t.workers[id].Idle? && t.checking == s.checking
    decreases Far(c, s.workers[id]), Near(s.lists, s.workers[id]), Minor(c, s, s.workers[id])
  {
    hide Inv, Step, Far, Near, Minor;
    var s2 := WorkerCan(c, s, id);
    assert Steps(c)(s, s2);
    if s2.workers[id].Idle? {
      t := s2;
      ReachesStep(Steps(c), s, t);
    } else {
      t := RunsAlone(c, s2, id);
      ReachesNext(Steps(c), s, s2, t);
    }
  }

  ghost function Going(s: State): set<int> {
    set id | id in s.workers && !s.workers[id].Idle?
  }

  predicate AllIdle(s: State) {
    forall id | id in s.workers :: s.workers[id] == Idle
  }

  lemma OneLess(s: State, t: State, id: int)
    requires OnlyMoves(s, t, id) && !s.workers[id].Idle? && t.workers[id].Idle?
    ensures |Going(t)| < |Going(s)|
  {
    assert Going(s) == Going(t) + {id};
  }

  lemma SomeGoing(s: State) returns (id: int)
    requires Going(s) != {}
    ensures id in s.workers && !s.workers[id].Idle?
  {
    id := Pick(Going(s));
  }

  lemma NoneGoing(s: State)
    requires Going(s) == {}
    ensures AllIdle(s)
  {
    assert forall id | id in s.workers && !s.workers[id].Idle? :: id in Going(s);
  }

  lemma AllCanIdle(c: Table, s: State) returns (t: State)
    requires Inv(c, s)
    ensures CanReach(Steps(c), s, t) && Inv(c, t) && AllIdle(t) && t.checking == s.checking && t.workers.Keys == s.workers.Keys
    decreases |Going(s)|
  {
    hide Inv, AllIdle;
    if Going(s) == {} {
      NoneGoing(s);
      ReachesSelf(Steps(c), s);
      t := s;
    } else {
      var id := SomeGoing(s);
      var s2 := RunsAlone(c, s, id);
      OneLess(s, s2, id);
      t := AllCanIdle(c, s2);
      ReachesTrans(Steps(c), s, s2, t);
    }
  }

  // ----- rest ------------------------------------------------------------------------------

  /** The values of what has been popped can all be traced. */
  lemma CanTraceAll(c: Table, s: State, id: int) returns (t: State)
    requires Inv(c, s) && AllIdle(s) && id in s.workers && s.checking && s.stack.items == []
    ensures CanReach(Steps(c), s, t) && Quiescent(t)
    decreases |s.stack.popped|
  {
    hide Inv;
    if s.stack.popped == [] {
      ReachesSelf(Steps(c), s);
      t := s;
    } else {
      var e := s.stack.popped[0];
      var s2 := s.(stack := s.stack.(popped := s.stack.popped[1..], traced := s.stack.traced + multiset{e}),
                   status := s.status[e := Traced]);
      assert TraceStep(c, s, s2);
      hide TraceStep;
      IdleSteps(c, s, s2, id);
      StepKeepsInv(c, s, s2, id);
      t := CanTraceAll(c, s2, id);
      ReachesNext(Steps(c), s, s2, t);
    }
  }

  lemma IdleSteps(c: Table, s: State, s2: State, id: int)
    requires id in s.workers && s.workers[id].Idle? && Start(c, s, s2, id)
    ensures Step(c, s, s2, id) && Steps(c)(s, s2)
  {
    hide Start, Publish, Follow, Join;
    assert Step(c, s, s2, id);
  }

  lemma CanRestChecking(c: Table, s: State, id: int) returns (t: State)
    requires Inv(c, s) && s.checking && id in s.workers
    ensures CanReach(Steps(c), s, t) && Quiescent(t)
  {
    hide Inv, Quiescent;
    var a := AllCanIdle(c, s);
    var b := a.(stack := a.stack.(top := 0, items := [], popped := a.stack.popped + a.stack.items));
    assert PopStep(c, a, b);
    hide PopStep;
    IdleSteps(c, a, b, id);
    StepKeepsInv(c, a, b, id);
    t := CanTraceAll(c, b, id);
    ReachesNext(Steps(c), a, b, t);
    ReachesTrans(Steps(c), s, a, t);
  }

  /** From every state of every run the collection can come to rest. */
  lemma CanRest(c: Table, run: seq<State>, i: nat, id: int) returns (t: State)
    requires Run(c, run) && i < |run| && id in run[i].workers
    ensures CanReach(Steps(c), run[i], t) && Quiescent(t)
  {
    RunKeepsInv(c, run, i);
    hide Inv, Run, Quiescent;
    var s := run[i];
    if s.checking {
      t := CanRestChecking(c, s, id);
    } else {
      var a := AllCanIdle(c, s);
      var b := Go(a, id, Load(Scan(0), Bucket)).(checking := true);
      assert ScanStep(c, a, b, id);
      hide ScanStep;
      IdleSteps(c, a, b, id);
      StepKeepsInv(c, a, b, id);
      t := CanRestChecking(c, b, id);
      ReachesNext(Steps(c), a, b, t);
      ReachesTrans(Steps(c), s, a, t);
    }
  }

  /** An idle worker can claim any ephemeron that is TRACED, and mark any key that is not marked. */
  lemma IdleCan(c: Table, s: State, id: int)
    requires id in s.workers && s.workers[id].Idle?
    ensures forall e | e in c.keys && StatusOf(s.status, e) == Traced :: CanClaim(c, s, id, e)
    ensures forall k | k in c.hash && k !in s.marked :: CanMark(c, s, id, k)
  {
    forall e | e in c.keys && StatusOf(s.status, e) == Traced ensures CanClaim(c, s, id, e) {
      var s2 := Go(s, id, Epoch(e)).(status := s.status[e := Claimed], owner := s.owner[e := id]);
      assert ClaimStep(c, s, s2, id, e);
      IdleSteps(c, s, s2, id);
      assert StatusOf(s2.status, e) == Claimed;
    }
    forall k | k in c.hash && k !in s.marked ensures CanMark(c, s, id, k) {
      var s2 := Go(s, id, if s.checking then Load(Seek(k, BucketFor(c, k)), Bucket) else Idle).(marked := s.marked + {k});
      assert MarkStep(c, s, s2, id, k);
      IdleSteps(c, s, s2, id);
    }
  }

  ghost predicate CanClaim(c: Table, s: State, id: int, e: Eph) {
    exists s2 :: Step(c, s, s2, id) && StatusOf(s2.status, e) == Claimed
  }

  ghost predicate CanMark(c: Table, s: State, id: int, k: Key) {
    exists s2 :: Step(c, s, s2, id) && k in s2.marked
  }
}
