/** Workers that mark keys race with workers that publish ephemerons.  Every shared access is a step
    of its own: the claim, the pushes with a CAS that may fail spuriously, the traversal that cuts out
    dead nodes, the second look at the key, and the stack of resolved ephemerons. */
module EphemeronRace {
  type Eph = int   // 0 is the null link
  type Key = int

  datatype Status = Traced | Claimed | Pending | Resolved

  /** What does not change: the keys as they were before any object moved, the bucket each key hashes
      to, and the ephemerons that were dead already. */
  datatype Table = Table(keys: map<Eph, Key>, hash: map<Key, int>, buckets: int, dead: set<Eph>)

  /** A walk down one bucket for a key just marked, or down every bucket in turn. */
  datatype Walk = Seek(key: Key, bucket: int) | Scan(bucket: int)
  datatype Loc = Bucket | After(node: Eph)
  datatype Then = Stop | Continue(walk: Walk)

  datatype Pc =
    | Idle
    | Epoch(e: Eph)
    | FirstVisit(e: Eph)
    | Direct(e: Eph)
    | SetPending(e: Eph)
    | PushLoad(e: Eph)
    | PushLink(e: Eph, tail: Eph)
    | PushCas(e: Eph, tail: Eph)
    | Recheck(e: Eph)
    | Load(w: Walk, loc: Loc)
    | Skip(w: Walk, loc: Loc, head: Eph, next: Eph)
    | Advance(w: Walk, loc: Loc, head: Eph, next: Eph)
    | Update(w: Walk, loc: Loc, head: Eph, next: Eph)
    | Visit(w: Walk, e: Eph)
    | Resolve(e: Eph, after: Then)
    | JoinLoad(e: Eph, after: Then)
    | JoinLink(e: Eph, tail: Eph, after: Then)
    | JoinCas(e: Eph, tail: Eph, after: Then)

  /** The bucket lists: `pending` links and bucket heads.  `stamp` records the order of publication. */
  datatype Lists = Lists(pend: map<Eph, Eph>, heads: map<int, Eph>, stamp: map<Eph, int>, clock: int)

  /** The resolved stack: links and top.  The rest is recorded for the proof: its content, what was
      popped and not yet traced, which worker is pushing what, all that ever joined, and all traced. */
  datatype Stack = Stack(
    res: map<Eph, Eph>, top: Eph,
    items: seq<Eph>, popped: seq<Eph>, joining: map<Eph, int>, joins: multiset<Eph>, traced: multiset<Eph>)

  /** `visited`: epoch is this collection's.  `marked`: key is traced.  `moved`: key edge rewritten.
      `owner`, `resolves` (PENDING to RESOLVED) and `direct` (value traced without publishing) are
      recorded for the proof. */
  datatype State = State(
    workers: map<int, Pc>, lists: Lists, stack: Stack, status: map<Eph, Status>, visited: set<Eph>,
    marked: set<Key>, moved: set<Eph>, checking: bool,
    owner: map<Eph, int>, resolves: multiset<Eph>, direct: multiset<Eph>)

  ghost predicate TableOk(c: Table) {
    && 0 !in c.keys && c.buckets > 0
    && (forall e | e in c.keys :: c.keys[e] in c.hash)
    && (forall k | k in c.hash :: 0 <= c.hash[k] < c.buckets)
  }

  function KeyOf(c: Table, e: Eph): Key {
    if e in c.keys then c.keys[e] else 0
  }

  function BucketFor(c: Table, k: Key): int {
    if k in c.hash then c.hash[k] else 0
  }

  function BucketOf(c: Table, e: Eph): int {
    BucketFor(c, KeyOf(c, e))
  }

  function StatusOf(status: map<Eph, Status>, e: Eph): Status {
    if e in status then status[e] else Traced
  }

  function LinkOf(m: map<int, Eph>, i: int): Eph {
    if i in m then m[i] else 0
  }

  ghost predicate Init(c: Table, s: State) {
    && TableOk(c)
    && (forall id | id in s.workers :: s.workers[id] == Idle)
    && (forall e :: StatusOf(s.status, e) == Traced)
    && (forall b :: LinkOf(s.lists.heads, b) == 0)
    && s.lists.stamp == map[] && s.lists.clock == 0
    && s.stack == Stack(s.stack.res, 0, [], [], map[], multiset{}, multiset{})
    && s.visited == s.moved == {} && s.marked == {} && !s.checking
    && s.owner == map[] && s.resolves == s.direct == multiset{}
  }

  function Go(s: State, id: int, pc: Pc): State {
    s.(workers := s.workers[id := pc])
  }

  function At(l: Lists, w: Walk, loc: Loc): Eph {
    match loc
    case Bucket => LinkOf(l.heads, w.bucket)
    case After(n) => LinkOf(l.pend, n)
  }

  function Store(l: Lists, w: Walk, loc: Loc, v: Eph): Lists {
    match loc
    case Bucket => l.(heads := l.heads[w.bucket := v])
    case After(n) => l.(pend := l.pend[n := v])
  }

  /** Where a walk goes with the link it followed. */
  function Return(c: Table, w: Walk, v: Eph): Pc {
    if v != 0 then Visit(w, v)
    else match w
      case Seek(_, _) => Idle
      case Scan(b) => if b + 1 < c.buckets then Load(Scan(b + 1), Bucket) else Idle
  }

  function Resume(e: Eph, after: Then): Pc {
    match after
    case Stop => Idle
    case Continue(w) => Load(w, After(e))
  }

  // ----- the steps of one worker -----------------------------------------------------------

  ghost predicate ClaimStep(c: Table, s: State, s2: State, id: int, e: Eph) {
    && e in c.keys && StatusOf(s.status, e) == Traced
    && s2 == Go(s, id, Epoch(e)).(status := s.status[e := Claimed], owner := s.owner[e := id])
  }

  ghost predicate MarkStep(c: Table, s: State, s2: State, id: int, k: Key) {
    && k in c.hash && k !in s.marked
    && s2 == Go(s, id, if s.checking then Load(Seek(k, BucketFor(c, k)), Bucket) else Idle).(marked := s.marked + {k})
  }

  ghost predicate ScanStep(c: Table, s: State, s2: State, id: int) {
    && !s.checking && (forall i | i in s.workers :: s.workers[i] == Idle)
    && s2 == Go(s, id, Load(Scan(0), Bucket)).(checking := true)
  }

  ghost predicate PopStep(c: Table, s: State, s2: State) {
    s2 == s.(stack := s.stack.(top := 0, items := [], popped := s.stack.popped + s.stack.items))
  }

  ghost predicate TraceStep(c: Table, s: State, s2: State) {
    && s.stack.popped != []
    && s2 == s.(stack := s.stack.(popped := s.stack.popped[1..], traced := s.stack.traced + multiset{s.stack.popped[0]}),
                status := s.status[s.stack.popped[0] := Traced])
  }

  ghost predicate Start(c: Table, s: State, s2: State, id: int) {
    || (exists e :: ClaimStep(c, s, s2, id, e))
    || (exists k :: MarkStep(c, s, s2, id, k))
    || ScanStep(c, s, s2, id)
    || PopStep(c, s, s2)
    || TraceStep(c, s, s2)
  }

  /** A visit to a key edge whose key is traced may rewrite the edge to the key's new address. */
  ghost predicate MayMove(s: State, s2: State, e: Eph) {
    s2 == s || s2 == s.(moved := s.moved + {e})
  }

  ghost predicate Publish(c: Table, s: State, s2: State, id: int)
    requires id in s.workers
  {
    match s.workers[id]
    case Epoch(e) =>
      if e in s.visited then s2 == Go(s, id, Idle).(status := s.status[e := Traced], owner := s.owner - {e})
      else s2 == Go(s, id, FirstVisit(e)).(visited := s.visited + {e}, lists := s.lists.(pend := s.lists.pend[e := 0]),
                                           stack := s.stack.(res := s.stack.res[e := 0]))
    case FirstVisit(e) =>
      if e in c.dead then s2 == Go(s, id, Idle).(status := s.status[e := Traced], owner := s.owner - {e})
      else if KeyOf(c, e) in s.marked then MayMove(Go(s, id, Direct(e)).(direct := s.direct + multiset{e}), s2, e)
      else s2 == Go(s, id, SetPending(e))
    case Direct(e) => s2 == Go(s, id, Idle).(status := s.status[e := Traced], owner := s.owner - {e})
    case SetPending(e) => s2 == Go(s, id, PushLoad(e)).(status := s.status[e := Pending])
    case PushLoad(e) => s2 == Go(s, id, PushLink(e, LinkOf(s.lists.heads, BucketOf(c, e))))
    case PushLink(e, tail) => s2 == Go(s, id, PushCas(e, tail)).(lists := s.lists.(pend := s.lists.pend[e := tail]))
    case PushCas(e, tail) =>
      var b := BucketOf(c, e);
      // another push won, or the CAS failed spuriously
      || s2 == Go(s, id, PushLink(e, LinkOf(s.lists.heads, b)))
      || (LinkOf(s.lists.heads, b) == tail
          && s2 == Go(s, id, Recheck(e)).(lists := Published(s.lists, b, e), owner := s.owner - {e}))
    case Recheck(e) =>
      if KeyOf(c, e) in s.marked then MayMove(Go(s, id, Resolve(e, Stop)), s2, e)
      else s2 == Go(s, id, Idle)
    case _ => false
  }

  function Published(l: Lists, b: int, e: Eph): Lists {
    l.(heads := l.heads[b := e], stamp := l.stamp[e := l.clock], clock := l.clock + 1)
  }

  ghost predicate Matches(c: Table, s: State, w: Walk, e: Eph) {
    match w
    case Seek(k, _) => e !in s.moved && KeyOf(c, e) == k
    case Scan(_) => KeyOf(c, e) in s.marked
  }

  ghost predicate Follow(c: Table, s: State, s2: State, id: int)
    requires id in s.workers
  {
    match s.workers[id]
    case Load(w, loc) =>
      var v := At(s.lists, w, loc);
      s2 == Go(s, id, if v == 0 then Return(c, w, 0) else Skip(w, loc, v, v))
    case Skip(w, loc, h, n) =>
      s2 == Go(s, id, if n != 0 && StatusOf(s.status, n) != Pending then Advance(w, loc, h, n) else Update(w, loc, h, n))
    case Advance(w, loc, h, n) => s2 == Go(s, id, Skip(w, loc, h, LinkOf(s.lists.pend, n)))
    case Update(w, loc, h, n) =>
      var cur := At(s.lists, w, loc);
      if h == n then s2 == Go(s, id, Return(c, w, n))
      else if cur == h then s2 == Go(s, id, Return(c, w, n)).(lists := Store(s.lists, w, loc, n))
      else if cur == n then s2 == Go(s, id, Return(c, w, n))
      else s2 == Go(s, id, Skip(w, loc, cur, cur))
    case Visit(w, e) =>
      if Matches(c, s, w, e) then MayMove(Go(s, id, Resolve(e, Continue(w))), s2, e)
      else s2 == Go(s, id, Load(w, After(e)))
    case _ => false
  }

  ghost predicate Join(c: Table, s: State, s2: State, id: int)
    requires id in s.workers
  {
    match s.workers[id]
    case Resolve(e, after) =>
      if StatusOf(s.status, e) == Pending then
        s2 == Go(s, id, JoinLoad(e, after)).(status := s.status[e := Resolved], resolves := s.resolves + multiset{e},
                                             stack := s.stack.(joining := s.stack.joining[e := id]))
      else s2 == Go(s, id, Resume(e, after))
    case JoinLoad(e, after) => s2 == Go(s, id, JoinLink(e, s.stack.top, after))
    case JoinLink(e, tail, after) =>
      s2 == Go(s, id, JoinCas(e, tail, after)).(stack := s.stack.(res := s.stack.res[e := tail]))
    case JoinCas(e, tail, after) =>
      || s2 == Go(s, id, JoinLink(e, s.stack.top, after))
      || (s.stack.top == tail && s2 == Go(s, id, Resume(e, after)).(stack := Joined(s.stack, e)))
    case _ => false
  }

  function Joined(k: Stack, e: Eph): Stack {
    k.(top := e, items := [e] + k.items, joining := k.joining - {e}, joins := k.joins + multiset{e})
  }

  ghost predicate Step(c: Table, s: State, s2: State, id: int) {
    id in s.workers &&
    ((s.workers[id].Idle? && Start(c, s, s2, id)) || Publish(c, s, s2, id) || Follow(c, s, s2, id) || Join(c, s, s2, id))
  }

  // ----- the bucket lists ------------------------------------------------------------------

  ghost predicate Live(status: map<Eph, Status>, e: Eph) {
    StatusOf(status, e) == Pending
  }

  /** Every published ephemeron of the bucket older than `hi` and newer than `v` has left PENDING. */
  ghost predicate SkipsDead(c: Table, l: Lists, status: map<Eph, Status>, b: int, hi: int, v: Eph) {
    && (v != 0 ==> v in l.stamp && BucketOf(c, v) == b && l.stamp[v] < hi)
    && forall n | n in l.stamp && BucketOf(c, n) == b && l.stamp[n] < hi && Live(status, n) ::
         v != 0 && v in l.stamp && l.stamp[n] <= l.stamp[v]
  }

  ghost predicate ListsOk(c: Table, l: Lists, status: map<Eph, Status>) {
    && l.clock >= 0 && (forall n | n in l.stamp :: n in c.keys && 0 <= l.stamp[n] < l.clock)
    && (forall m, n | m in l.stamp && n in l.stamp && l.stamp[m] == l.stamp[n] :: m == n)
    && (forall b :: SkipsDead(c, l, status, b, l.clock, LinkOf(l.heads, b)))
    && (forall n | n in l.stamp :: SkipsDead(c, l, status, BucketOf(c, n), l.stamp[n], LinkOf(l.pend, n)))
  }

  /** What time keeps: published stays published, dead stays dead. */
  ghost predicate Ages(l: Lists, l2: Lists, status: map<Eph, Status>, status2: map<Eph, Status>) {
    && l.clock <= l2.clock
    && (forall n | n in l.stamp :: n in l2.stamp && l2.stamp[n] == l.stamp[n])
    && (forall n | n in l2.stamp && n !in l.stamp :: l2.stamp[n] >= l.clock)
    && (forall n | n in l.stamp && Live(status2, n) :: Live(status, n))
  }

  lemma SkipsDeadAges(c: Table, l: Lists, l2: Lists, status: map<Eph, Status>, status2: map<Eph, Status>,
                      b: int, hi: int, v: Eph)
    requires Ages(l, l2, status, status2) && SkipsDead(c, l, status, b, hi, v) && hi <= l.clock
    ensures SkipsDead(c, l2, status2, b, hi, v)
  {
    hide Live, BucketOf;
  }

  /** Skipping to `v` and from there to `v2` skips dead ones only. */
  lemma SkipsDeadTrans(c: Table, l: Lists, status: map<Eph, Status>, b: int, hi: int, v: Eph, v2: Eph)
    requires SkipsDead(c, l, status, b, hi, v) && v != 0 && v in l.stamp
    requires SkipsDead(c, l, status, b, l.stamp[v] + 1, v2)
    ensures SkipsDead(c, l, status, b, hi, v2)
  {
    hide Live, BucketOf;
  }

  /** A status change that revives nothing published keeps the lists. */
  lemma ListsAge(c: Table, l: Lists, status: map<Eph, Status>, status2: map<Eph, Status>)
    requires ListsOk(c, l, status) && Ages(l, l, status, status2)
    ensures ListsOk(c, l, status2)
  {
    hide SkipsDead, Ages;
    forall b ensures SkipsDead(c, l, status2, b, l.clock, LinkOf(l.heads, b)) {
      SkipsDeadAges(c, l, l, status, status2, b, l.clock, LinkOf(l.heads, b));
    }
    forall n | n in l.stamp ensures SkipsDead(c, l, status2, BucketOf(c, n), l.stamp[n], LinkOf(l.pend, n)) {
      SkipsDeadAges(c, l, l, status, status2, BucketOf(c, n), l.stamp[n], LinkOf(l.pend, n));
    }
  }

  /** A link written into an unpublished ephemeron is no one's business yet. */
  lemma LinkUnpublished(c: Table, l: Lists, status: map<Eph, Status>, e: Eph, v: Eph)
    requires ListsOk(c, l, status) && e !in l.stamp
    ensures ListsOk(c, l.(pend := l.pend[e := v]), status)
  {
    hide SkipsDead, BucketOf, LinkOf;
    var l2 := l.(pend := l.pend[e := v]);
    forall b, hi, x | SkipsDead(c, l, status, b, hi, x) ensures SkipsDead(c, l2, status, b, hi, x) {
      SameStamps(c, l, l2, status, b, hi, x);
    }
    forall n | n in l.stamp ensures LinkOf(l2.pend, n) == LinkOf(l.pend, n) { LinkElsewhere(l.pend, e, v, n); }
  }

  lemma LinkElsewhere(m: map<int, Eph>, i: int, v: Eph, j: int)
    ensures LinkOf(m[i := v], j) == if i == j then v else LinkOf(m, j)
  {
  }

  lemma SameStamps(c: Table, l: Lists, l2: Lists, status: map<Eph, Status>, b: int, hi: int, v: Eph)
    requires SkipsDead(c, l, status, b, hi, v) && l2.stamp == l.stamp
    ensures SkipsDead(c, l2, status, b, hi, v)
  {
  }

  /** Publishing at the head. */
  lemma PublishKeepsLists(c: Table, l: Lists, status: map<Eph, Status>, e: Eph)
    requires ListsOk(c, l, status) && e !in l.stamp && e in c.keys && e != 0
    requires LinkOf(l.heads, BucketOf(c, e)) == LinkOf(l.pend, e)
    ensures ListsOk(c, Published(l, BucketOf(c, e), e), status)
    ensures Ages(l, Published(l, BucketOf(c, e), e), status, status)
  {
    hide SkipsDead, BucketOf, LinkOf, Live;
    var l2 := Published(l, BucketOf(c, e), e);
    forall b ensures SkipsDead(c, l2, status, b, l2.clock, LinkOf(l2.heads, b)) {
      LinkElsewhere(l.heads, BucketOf(c, e), e, b);
      if b == BucketOf(c, e) {
        NewestSkips(c, l2, status, e);
      } else {
        OtherBucket(c, l, l2, status, e, b);
      }
    }
    forall n | n in l2.stamp ensures SkipsDead(c, l2, status, BucketOf(c, n), l2.stamp[n], LinkOf(l2.pend, n)) {
      if n != e {
        SkipsDeadAges(c, l, l2, status, status, BucketOf(c, n), l.stamp[n], LinkOf(l.pend, n));
      } else {
        SkipsDeadAges(c, l, l2, status, status, BucketOf(c, e), l.clock, LinkOf(l.pend, e));
      }
    }
  }

  lemma NewestSkips(c: Table, l: Lists, status: map<Eph, Status>, e: Eph)
    requires e in l.stamp && e != 0 && l.stamp[e] == l.clock - 1 && forall n | n in l.stamp :: l.stamp[n] < l.clock
    ensures SkipsDead(c, l, status, BucketOf(c, e), l.clock, e)
  {
  }

  lemma OtherBucket(c: Table, l: Lists, l2: Lists, status: map<Eph, Status>, e: Eph, b: int)
    requires b != BucketOf(c, e) && l2 == Published(l, BucketOf(c, e), e) && e !in l.stamp
    requires forall n | n in l.stamp :: l.stamp[n] < l.clock
    requires SkipsDead(c, l, status, b, l.clock, LinkOf(l.heads, b))
    ensures SkipsDead(c, l2, status, b, l2.clock, LinkOf(l.heads, b))
  {
    hide LinkOf, BucketOf, Live;
  }

  /** A walk that has come past dead nodes to `n` leaves the link it came by at `n`, unless the link was
      changed meanwhile. */
  lemma CutsOut(c: Table, s: State, s2: State, id: int, w: Walk, loc: Loc, h: Eph, n: Eph)
    requires id in s.workers && s.workers[id] == Update(w, loc, h, n) && Follow(c, s, s2, id) && At(s.lists, w, loc) == h
    ensures At(s2.lists, w, loc) == n
  {
  }

  /** Cutting dead nodes out of a list. */
  lemma CutKeepsLists(c: Table, l: Lists, status: map<Eph, Status>, w: Walk, loc: Loc, v: Eph)
    requires ListsOk(c, l, status)
    requires loc.Bucket? ==> SkipsDead(c, l, status, w.bucket, l.clock, v)
    requires loc.After? ==> loc.node in l.stamp && SkipsDead(c, l, status, BucketOf(c, loc.node), l.stamp[loc.node], v)
    ensures ListsOk(c, Store(l, w, loc, v), status)
  {
    hide SkipsDead, BucketOf, LinkOf;
    var l2 := Store(l, w, loc, v);
    forall b, hi, x | SkipsDead(c, l, status, b, hi, x) ensures SkipsDead(c, l2, status, b, hi, x) {
      SameStamps(c, l, l2, status, b, hi, x);
    }
    forall b ensures SkipsDead(c, l2, status, b, l2.clock, LinkOf(l2.heads, b)) {
      if loc.Bucket? { LinkElsewhere(l.heads, w.bucket, v, b); }
    }
    forall n | n in l2.stamp ensures SkipsDead(c, l2, status, BucketOf(c, n), l2.stamp[n], LinkOf(l2.pend, n)) {
      if loc.After? { LinkElsewhere(l.pend, loc.node, v, n); }
    }
  }

  // ----- walkers ---------------------------------------------------------------------------

  ghost predicate WalkOk(c: Table, marked: set<Key>, w: Walk) {
    && 0 <= w.bucket < c.buckets
    && (w.Seek? ==> w.key in marked && w.key in c.hash && BucketFor(c, w.key) == w.bucket)
  }

  ghost predicate LocOk(c: Table, l: Lists, marked: set<Key>, w: Walk, loc: Loc) {
    WalkOk(c, marked, w) && (loc.After? ==> loc.node in l.stamp && BucketOf(c, loc.node) == w.bucket)
  }

  /** A walk holds a head of its list, and `next` skips only what is dead from there. */
  ghost predicate CursorOk(c: Table, l: Lists, status: map<Eph, Status>, marked: set<Key>,
                           w: Walk, loc: Loc, head: Eph, next: Eph) {
    && LocOk(c, l, marked, w, loc)
    && (head == 0 ==> next == 0)
    && (head != 0 ==>
          && head in l.stamp && BucketOf(c, head) == w.bucket
          && (loc.After? ==> l.stamp[head] < l.stamp[loc.node])
          && SkipsDead(c, l, status, w.bucket, l.stamp[head] + 1, next))
  }

  ghost predicate ThenOk(c: Table, l: Lists, marked: set<Key>, e: Eph, after: Then) {
    && e in l.stamp && KeyOf(c, e) in marked
    && (after.Continue? ==> LocOk(c, l, marked, after.walk, After(e)))
  }

  /** What a worker's position says about the lists. */
  ghost predicate WalkerOk(c: Table, l: Lists, status: map<Eph, Status>, marked: set<Key>, pc: Pc) {
    match pc
    case Recheck(e) => e in l.stamp
    case Load(w, loc) => LocOk(c, l, marked, w, loc)
    case Skip(w, loc, h, n) => CursorOk(c, l, status, marked, w, loc, h, n)
    case Advance(w, loc, h, n) => CursorOk(c, l, status, marked, w, loc, h, n) && n != 0 && !Live(status, n)
    case Update(w, loc, h, n) => CursorOk(c, l, status, marked, w, loc, h, n)
    case Visit(w, e) => LocOk(c, l, marked, w, After(e))
    case Resolve(e, after) => ThenOk(c, l, marked, e, after)
    case JoinLoad(e, after) => ThenOk(c, l, marked, e, after)
    case JoinLink(e, tail, after) => ThenOk(c, l, marked, e, after)
    case JoinCas(e, tail, after) => ThenOk(c, l, marked, e, after)
    case _ => true
  }

  ghost predicate WalkersOk(c: Table, l: Lists, status: map<Eph, Status>, marked: set<Key>, workers: map<int, Pc>) {
    forall id | id in workers :: WalkerOk(c, l, status, marked, workers[id])
  }

  lemma CursorAges(c: Table, l: Lists, l2: Lists, status: map<Eph, Status>, status2: map<Eph, Status>,
                   marked: set<Key>, marked2: set<Key>, w: Walk, loc: Loc, head: Eph, next: Eph)
    requires ListsOk(c, l, status) && Ages(l, l2, status, status2) && marked <= marked2
    requires CursorOk(c, l, status, marked, w, loc, head, next)
    ensures CursorOk(c, l2, status2, marked2, w, loc, head, next)
  {
    hide SkipsDead, BucketOf, Live;
    if head != 0 {
      SkipsDeadAges(c, l, l2, status, status2, w.bucket, l.stamp[head] + 1, next);
    }
  }

  lemma WalkerAges(c: Table, l: Lists, l2: Lists, status: map<Eph, Status>, status2: map<Eph, Status>,
                   marked: set<Key>, marked2: set<Key>, pc: Pc)
    requires ListsOk(c, l, status) && Ages(l, l2, status, status2) && marked <= marked2
    requires WalkerOk(c, l, status, marked, pc)
    ensures WalkerOk(c, l2, status2, marked2, pc)
  {
    hide ListsOk, SkipsDead, BucketOf, CursorOk;
    match pc
    case Skip(w, loc, h, n) => CursorAges(c, l, l2, status, status2, marked, marked2, w, loc, h, n);
    case Advance(w, loc, h, n) =>
      CursorAges(c, l, l2, status, status2, marked, marked2, w, loc, h, n);
      NextPublished(c, l, status, marked, w, loc, h, n);
    case Update(w, loc, h, n) => CursorAges(c, l, l2, status, status2, marked, marked2, w, loc, h, n);
    case _ =>
  }

  lemma NextPublished(c: Table, l: Lists, status: map<Eph, Status>, marked: set<Key>, w: Walk, loc: Loc, h: Eph, n: Eph)
    requires CursorOk(c, l, status, marked, w, loc, h, n) && n != 0
    ensures n in l.stamp && BucketOf(c, n) == w.bucket && h in l.stamp && l.stamp[n] <= l.stamp[h]
  {
  }

  /** One worker moves; the others see time pass. */
  lemma WalkersAge(c: Table, l: Lists, l2: Lists, status: map<Eph, Status>, status2: map<Eph, Status>,
                   marked: set<Key>, marked2: set<Key>, workers: map<int, Pc>, id: int, pc: Pc)
    requires ListsOk(c, l, status) && Ages(l, l2, status, status2) && marked <= marked2
    requires WalkersOk(c, l, status, marked, workers) && WalkerOk(c, l2, status2, marked2, pc)
    ensures WalkersOk(c, l2, status2, marked2, workers[id := pc])
  {
    hide ListsOk, Ages, WalkerOk;
    forall i | i in workers && i != id ensures WalkerOk(c, l2, status2, marked2, workers[i]) {
      WalkerAges(c, l, l2, status, status2, marked, marked2, workers[i]);
    }
  }

  // ----- owners and joiners ----------------------------------------------------------------

  /** The ephemeron a worker has claimed and not yet published. */
  function Owned(pc: Pc): Eph {
    match pc
    case Epoch(e) => e
    case FirstVisit(e) => e
    case Direct(e) => e
    case SetPending(e) => e
    case PushLoad(e) => e
    case PushLink(e, _) => e
    case PushCas(e, _) => e
    case _ => 0
  }

  /** The ephemeron a worker is pushing on the resolved stack. */
  function Joining(pc: Pc): Eph {
    match pc
    case JoinLoad(e, _) => e
    case JoinLink(e, _, _) => e
    case JoinCas(e, _, _) => e
    case _ => 0
  }

  predicate Named(pc: Pc) {
    || pc.Epoch? || pc.FirstVisit? || pc.Direct? || pc.SetPending? || pc.PushLoad? || pc.PushLink? || pc.PushCas?
    || pc.JoinLoad? || pc.JoinLink? || pc.JoinCas?
  }

  /** `held` names, for each ephemeron some worker holds, the one worker that holds it. */
  ghost predicate HeldOk(workers: map<int, Pc>, held: map<Eph, int>, hold: Pc -> Eph) {
    && 0 !in held
    && (forall e | e in held :: held[e] in workers && hold(workers[held[e]]) == e)
    && (forall id | id in workers && hold(workers[id]) != 0 ::
          hold(workers[id]) in held && held[hold(workers[id])] == id)
  }

  lemma HeldStays(workers: map<int, Pc>, held: map<Eph, int>, hold: Pc -> Eph, id: int, pc: Pc)
    requires HeldOk(workers, held, hold) && id in workers && hold(pc) == hold(workers[id])
    ensures HeldOk(workers[id := pc], held, hold)
  {
  }

  lemma HeldTaken(workers: map<int, Pc>, held: map<Eph, int>, hold: Pc -> Eph, id: int, pc: Pc, e: Eph)
    requires HeldOk(workers, held, hold) && id in workers && hold(workers[id]) == 0
    requires e !in held && hold(pc) == e != 0
    ensures HeldOk(workers[id := pc], held[e := id], hold)
  {
  }

  lemma HeldDropped(workers: map<int, Pc>, held: map<Eph, int>, hold: Pc -> Eph, id: int, pc: Pc, e: Eph)
    requires HeldOk(workers, held, hold) && id in workers && hold(workers[id]) == e != 0 && hold(pc) == 0
    ensures HeldOk(workers[id := pc], held - {e}, hold)
  {
  }

  // ----- the history of one ephemeron ------------------------------------------------------

  datatype View = View(status: Status, visited: bool, published: bool, resolves: nat, joins: nat, direct: nat, traced: nat,
                       joining: bool, owned: bool, moved: bool, marked: bool, dead: bool)

  function ViewOf(c: Table, s: State, e: Eph): View {
    View(StatusOf(s.status, e), e in s.visited, e in s.lists.stamp, s.resolves[e], s.stack.joins[e], s.direct[e], s.stack.traced[e],
         e in s.stack.joining, e in s.owner, e in s.moved, KeyOf(c, e) in s.marked, e in c.dead)
  }

  ghost predicate Fresh(v: View) {
    !v.published && v.resolves == 0 && v.direct == 0 && !v.moved
  }

  ghost predicate EphOk(v: View) {
    && (!v.visited ==> Fresh(v) && (v.status == Traced || v.status == Claimed))
    && (v.status == Claimed || (v.status == Pending && !v.published) ==> v.owned)
    && (v.status == Pending ==> v.resolves == 0 && v.direct == 0)
    && v.joins + (if v.joining then 1 else 0) == v.resolves
    && v.direct + v.resolves <= 1
    && (v.resolves > v.traced ==> v.status == Resolved)
    && v.traced <= v.joins
    && (v.resolves > 0 ==> v.published)
    && (v.resolves > 0 || v.direct > 0 || v.moved ==> v.marked)
    && (v.published ==> v.direct == 0)
    && (v.dead ==> v.direct == 0 && !v.published)
    && (v.visited && !v.dead && v.resolves == v.direct == 0 ==> v.status == Pending || v.owned)
  }

  /** What the owner knows of its ephemeron. */
  ghost predicate OwnerKnows(pc: Pc, v: View) {
    match pc
    case Epoch(e) => v.status == Claimed && (v.visited ==> v.dead || v.resolves > 0 || v.direct > 0)
    case FirstVisit(e) => v.status == Claimed && v.visited && Fresh(v)
    case Direct(e) => v.status == Claimed && v.direct == 1
    case SetPending(e) => v.status == Claimed && v.visited && Fresh(v) && !v.dead
    case PushLoad(e) => v.status == Pending && v.visited && Fresh(v) && !v.dead
    case PushLink(e, tail) => v.status == Pending && v.visited && Fresh(v) && !v.dead
    case PushCas(e, tail) => v.status == Pending && v.visited && Fresh(v) && !v.dead
    case _ => true
  }

  ghost predicate OwnerOk(c: Table, s: State, pc: Pc) {
    && (Named(pc) ==> pc.e != 0)
    && (Owned(pc) != 0 ==> Owned(pc) in c.keys && OwnerKnows(pc, ViewOf(c, s, Owned(pc))))
    && (pc.PushCas? ==> LinkOf(s.lists.pend, pc.e) == pc.tail)
    && (pc.JoinCas? ==> LinkOf(s.stack.res, pc.e) == pc.tail)
  }

  ghost predicate OwnersOk(c: Table, s: State) {
    forall id | id in s.workers :: OwnerOk(c, s, s.workers[id])
  }

  ghost predicate EphsOk(c: Table, s: State) {
    forall e :: EphOk(ViewOf(c, s, e))
  }

  /** A step that touches only `e` leaves every other ephemeron's history alone. */
  ghost predicate OnlyTouches(c: Table, s: State, s2: State, e: Eph) {
    && (forall x | x != e :: ViewOf(c, s2, x) == ViewOf(c, s, x))
    && (forall x | x != e :: LinkOf(s2.stack.res, x) == LinkOf(s.stack.res, x))
    && (forall x | x != e && x !in s.lists.stamp :: LinkOf(s2.lists.pend, x) == LinkOf(s.lists.pend, x))
  }

  lemma EphsKeep(c: Table, s: State, s2: State, e: Eph)
    requires EphsOk(c, s) && OnlyTouches(c, s, s2, e) && EphOk(ViewOf(c, s2, e))
    ensures EphsOk(c, s2)
  {
    hide EphOk, ViewOf, LinkOf;
    forall x ensures EphOk(ViewOf(c, s2, x)) {
      if x != e { assert EphOk(ViewOf(c, s, x)); }
    }
  }

  /** The worker `id` is the only one that holds `e`. */
  ghost predicate HoldsAlone(s: State, id: int, e: Eph) {
    forall i | i in s.workers && i != id :: Owned(s.workers[i]) != e && Joining(s.workers[i]) != e
  }

  lemma OwnersKeep(c: Table, s: State, s2: State, id: int, pc: Pc, e: Eph)
    requires OwnersOk(c, s) && OnlyTouches(c, s, s2, e) && HoldsAlone(s, id, e) && e != 0
    requires s2.workers == s.workers[id := pc] && OwnerOk(c, s2, pc)
    ensures OwnersOk(c, s2)
  {
    hide ViewOf, LinkOf, OwnerKnows;
    forall i | i in s2.workers ensures OwnerOk(c, s2, s2.workers[i]) {
      if i != id { OwnerKeeps(c, s, s2, s.workers[i], e); }
    }
  }

  lemma OwnerKeeps(c: Table, s: State, s2: State, pc: Pc, e: Eph)
    requires OwnerOk(c, s, pc) && OnlyTouches(c, s, s2, e) && Owned(pc) != e && Joining(pc) != e && e != 0
    ensures OwnerOk(c, s2, pc)
  {
    hide LinkOf;
  }

  // ----- the stack, the moved keys, the promises -------------------------------------------

  ghost predicate Chain(res: map<Eph, Eph>, v: Eph, q: seq<Eph>)
    decreases |q|
  {
    if q == [] then v == 0 else v == q[0] && v != 0 && Chain(res, LinkOf(res, v), q[1..])
  }

  ghost predicate StackOk(k: Stack) {
    && Chain(k.res, k.top, k.items)
    && k.joins == multiset(k.items) + multiset(k.popped) + k.traced
  }

  ghost predicate Resolving(workers: map<int, Pc>, e: Eph) {
    exists id :: id in workers && workers[id].Resolve? && workers[id].e == e
  }

  /** A key edge is rewritten only by a worker about to resolve its ephemeron. */
  ghost predicate MovedOk(workers: map<int, Pc>, moved: set<Eph>, status: map<Eph, Status>) {
    forall e | e in moved && Live(status, e) :: Resolving(workers, e)
  }

  ghost predicate Wants(c: Table, w: Walk, e: Eph) {
    BucketOf(c, e) == w.bucket && (w.Seek? ==> KeyOf(c, e) == w.key)
  }

  /** The bucket of `e` is one this walk has yet to start. */
  ghost predicate Ahead(c: Table, w: Walk, e: Eph) {
    w.Scan? && w.bucket < BucketOf(c, e)
  }

  ghost predicate CoversFrom(c: Table, l: Lists, w: Walk, loc: Loc, e: Eph) {
    || Ahead(c, w, e)
    || (Wants(c, w, e) && e in l.stamp && (loc.After? ==> loc.node in l.stamp && l.stamp[e] < l.stamp[loc.node]))
  }

  ghost predicate CoversUpTo(c: Table, l: Lists, w: Walk, n: Eph, e: Eph) {
    || Ahead(c, w, e)
    || (Wants(c, w, e) && e in l.stamp && n != 0 && n in l.stamp && l.stamp[e] <= l.stamp[n])
  }

  ghost predicate CoversThen(c: Table, l: Lists, n: Eph, after: Then, e: Eph) {
    after.Continue? && CoversFrom(c, l, after.walk, After(n), e)
  }

  /** This worker will yet look at `e` with its key marked. */
  ghost predicate Covers(c: Table, l: Lists, pc: Pc, e: Eph) {
    match pc
    case Recheck(n) => n == e
    case Load(w, loc) => CoversFrom(c, l, w, loc, e)
    case Skip(w, loc, h, n) => CoversUpTo(c, l, w, n, e)
    case Advance(w, loc, h, n) => CoversUpTo(c, l, w, n, e)
    case Update(w, loc, h, n) => CoversUpTo(c, l, w, n, e)
    case Visit(w, n) => CoversUpTo(c, l, w, n, e)
    case Resolve(n, after) => n == e || CoversThen(c, l, n, after, e)
    case JoinLoad(n, after) => CoversThen(c, l, n, after, e)
    case JoinLink(n, tail, after) => CoversThen(c, l, n, after, e)
    case JoinCas(n, tail, after) => CoversThen(c, l, n, after, e)
    case _ => false
  }

  ghost predicate Covered(c: Table, l: Lists, workers: map<int, Pc>, e: Eph) {
    exists id :: id in workers && Covers(c, l, workers[id], e)
  }

  /** Published, still pending, key marked: someone must come by. */
  ghost predicate Obliged(c: Table, s: State, e: Eph) {
    s.checking && e in s.lists.stamp && Live(s.status, e) && KeyOf(c, e) in s.marked
  }

  ghost predicate CoverOk(c: Table, s: State) {
    forall e | Obliged(c, s, e) :: Covered(c, s.lists, s.workers, e)
  }

  ghost predicate Inv(c: Table, s: State) {
    && TableOk(c)
    && ListsOk(c, s.lists, s.status)
    && WalkersOk(c, s.lists, s.status, s.marked, s.workers)
    && HeldOk(s.workers, s.owner, Owned)
    && HeldOk(s.workers, s.stack.joining, Joining)
    && OwnersOk(c, s)
    && EphsOk(c, s)
    && StackOk(s.stack)
    && MovedOk(s.workers, s.moved, s.status)
    && CoverOk(c, s)
  }

  lemma InitInv(c: Table, s: State)
    requires Init(c, s)
    ensures Inv(c, s)
  {
    forall b ensures SkipsDead(c, s.lists, s.status, b, 0, 0) {}
  }

  lemma CoversAges(c: Table, l: Lists, l2: Lists, pc: Pc, e: Eph)
    requires Covers(c, l, pc, e) && forall n | n in l.stamp :: n in l2.stamp && l2.stamp[n] == l.stamp[n]
    ensures Covers(c, l2, pc, e)
  {
    hide BucketOf, KeyOf;
  }

  lemma CoverKeeps(c: Table, s: State, s2: State, id: int, pc: Pc)
    requires CoverOk(c, s) && id in s.workers && s2.workers == s.workers[id := pc]
    requires forall n | n in s.lists.stamp :: n in s2.lists.stamp && s2.lists.stamp[n] == s.lists.stamp[n]
    requires forall e | Obliged(c, s2, e) ::
      || Covers(c, s2.lists, pc, e)
      || (Obliged(c, s, e) && !Covers(c, s.lists, s.workers[id], e))
      || Covered(c, s2.lists, s2.workers, e)
    ensures CoverOk(c, s2)
  {
    hide Covers, Obliged;
    forall e | Obliged(c, s2, e) ensures Covered(c, s2.lists, s2.workers, e) {
      if Covers(c, s2.lists, pc, e) {
        assert s2.workers[id] == pc;
      } else if Obliged(c, s, e) && !Covers(c, s.lists, s.workers[id], e) {
        assert Covered(c, s.lists, s.workers, e);
        var i :| i in s.workers && Covers(c, s.lists, s.workers[i], e);
        CoversAges(c, s.lists, s2.lists, s.workers[i], e);
        assert s2.workers[i] == s.workers[i];
      }
    }
  }

  lemma MovedKeeps(workers: map<int, Pc>, moved: set<Eph>, status: map<Eph, Status>, status2: map<Eph, Status>, id: int, pc: Pc)
    requires MovedOk(workers, moved, status) && id in workers
    requires forall e | e in moved && Live(status2, e) ::
      Live(status, e) && !(workers[id].Resolve? && workers[id].e == e && pc != workers[id])
    ensures MovedOk(workers[id := pc], moved, status2)
  {
    hide Live;
    forall e | e in moved && Live(status2, e) ensures Resolving(workers[id := pc], e) {
      assert Resolving(workers, e);
      var i :| i in workers && workers[i].Resolve? && workers[i].e == e;
      assert workers[id := pc][i] == workers[i];
    }
  }

  lemma AgesRefl(l: Lists, status: map<Eph, Status>)
    ensures Ages(l, l, status, status)
  {
  }

  /** A worker that only changes its own position. */
  lemma QuietKeeps(c: Table, s: State, s2: State, id: int, pc: Pc)
    requires Inv(c, s) && id in s.workers && s2 == Go(s, id, pc)
    requires Owned(pc) == Owned(s.workers[id]) && Joining(pc) == Joining(s.workers[id])
    requires WalkerOk(c, s.lists, s.status, s.marked, pc) && OwnerOk(c, s, pc)
    requires forall e | Obliged(c, s, e) && Covers(c, s.lists, s.workers[id], e) ::
      Covers(c, s.lists, pc, e) || Covered(c, s.lists, s2.workers, e)
    requires s.workers[id].Resolve? ==> !Live(s.status, s.workers[id].e)
    ensures Inv(c, s2)
  {
    hide TableOk, ListsOk, WalkersOk, HeldOk, EphOk, OwnerKnows, StackOk, MovedOk, CoverOk, Ages, WalkerOk, Covers, Covered, Live, LinkOf, Owned, Joining;
    AgesRefl(s.lists, s.status);
    WalkersAge(c, s.lists, s.lists, s.status, s.status, s.marked, s.marked, s.workers, id, pc);
    HeldStays(s.workers, s.owner, Owned, id, pc);
    HeldStays(s.workers, s.stack.joining, Joining, id, pc);
    MovedKeeps(s.workers, s.moved, s.status, s.status, id, pc);
    CoverKeeps(c, s, s2, id, pc);
    forall e ensures ViewOf(c, s2, e) == ViewOf(c, s, e) {}
    forall i | i in s2.workers ensures OwnerOk(c, s2, s2.workers[i]) {
      assert i != id ==> OwnerOk(c, s, s.workers[i]);
    }
  }

  /** Rewriting the key edge of an ephemeron that is about to be resolved or was traced directly. */
  lemma MoveKeeps(c: Table, s: State, s2: State, e: Eph)
    requires Inv(c, s) && s2 == s.(moved := s.moved + {e}) && KeyOf(c, e) in s.marked
    requires e in s.lists.stamp || s.direct[e] == 1
    requires Live(s.status, e) ==> Resolving(s.workers, e)
    ensures Inv(c, s2)
  {
    hide TableOk, ListsOk, WalkersOk, HeldOk, StackOk, CoverOk, Covers, Live, LinkOf, Owned;
    assert CoverOk(c, s2) by { MoveCover(c, s, s2); }
    forall x ensures EphOk(ViewOf(c, s2, x)) { assert EphOk(ViewOf(c, s, x)); }
    forall i | i in s2.workers ensures OwnerOk(c, s2, s2.workers[i]) {
      assert OwnerOk(c, s, s.workers[i]);
    }
  }

  lemma MoveCover(c: Table, s: State, s2: State)
    requires CoverOk(c, s) && s2 == s.(moved := s2.moved)
    ensures CoverOk(c, s2)
  {
    hide Covered, Live;
    forall e | Obliged(c, s2, e) ensures Covered(c, s2.lists, s2.workers, e) { assert Obliged(c, s, e); }
  }

  // ----- steps with an effect on shared memory ---------------------------------------------

  /** Most steps touch one ephemeron that no other worker holds. */
  lemma EffectKeeps(c: Table, s: State, s2: State, id: int, pc: Pc, e: Eph)
    requires Inv(c, s) && id in s.workers && s2.workers == s.workers[id := pc] && e != 0
    requires s2.marked == s.marked && s2.moved == s.moved && s2.checking == s.checking
    requires ListsOk(c, s2.lists, s2.status) && Ages(s.lists, s2.lists, s.status, s2.status)
    requires WalkerOk(c, s2.lists, s2.status, s2.marked, pc)
    requires HeldOk(s2.workers, s2.owner, Owned) && HeldOk(s2.workers, s2.stack.joining, Joining)
    requires OnlyTouches(c, s, s2, e) && HoldsAlone(s, id, e) && OwnerOk(c, s2, pc) && EphOk(ViewOf(c, s2, e))
    requires StackOk(s2.stack)
    requires forall x | x in s.moved && Live(s2.status, x) ::
      Live(s.status, x) && !(s.workers[id].Resolve? && s.workers[id].e == x && pc != s.workers[id])
    requires forall x | Obliged(c, s2, x) ::
      Covers(c, s2.lists, pc, x) || (Obliged(c, s, x) && !Covers(c, s.lists, s.workers[id], x))
    ensures Inv(c, s2)
  {
    hide TableOk, ListsOk, WalkersOk, HeldOk, OwnersOk, EphsOk, StackOk, MovedOk, CoverOk, OwnerOk, OnlyTouches, HoldsAlone,
      WalkerOk, EphOk, ViewOf, Covers, Live, Obliged, Owned, Joining;
    WalkersAge(c, s.lists, s2.lists, s.status, s2.status, s.marked, s2.marked, s.workers, id, pc);
    OwnersKeep(c, s, s2, id, pc, e);
    EphsKeep(c, s, s2, e);
    MovedKeeps(s.workers, s.moved, s.status, s2.status, id, pc);
    AgedStamps(s, s2);
    CoverKeeps(c, s, s2, id, pc);
  }

  lemma AgedStamps(s: State, s2: State)
    requires Ages(s.lists, s2.lists, s.status, s2.status)
    ensures forall n | n in s.lists.stamp :: n in s2.lists.stamp && s2.lists.stamp[n] == s.lists.stamp[n]
  {
  }

  lemma OwnedAlone(c: Table, s: State, id: int, e: Eph)
    requires Inv(c, s) && id in s.workers && Owned(s.workers[id]) == e && e != 0
    ensures HoldsAlone(s, id, e) && e in c.keys && OwnerKnows(s.workers[id], ViewOf(c, s, e)) && EphOk(ViewOf(c, s, e))
    ensures e in s.owner && s.owner[e] == id && Joining(s.workers[id]) == 0
    ensures e !in s.stack.joining
  {
    hide ListsOk, WalkersOk, StackOk, MovedOk, CoverOk, TableOk;
    assert OwnerOk(c, s, s.workers[id]);
    assert EphOk(ViewOf(c, s, e));
  }

  lemma JoiningAlone(c: Table, s: State, id: int, e: Eph)
    requires Inv(c, s) && id in s.workers && Joining(s.workers[id]) == e && e != 0
    ensures HoldsAlone(s, id, e) && EphOk(ViewOf(c, s, e)) && StatusOf(s.status, e) == Resolved
    ensures e in s.stack.joining && s.stack.joining[e] == id && Owned(s.workers[id]) == 0
    ensures e !in s.owner && s.stack.joins[e] == 0 && s.resolves[e] == 1
  {
    hide ListsOk, WalkersOk, StackOk, MovedOk, CoverOk, TableOk;
    assert EphOk(ViewOf(c, s, e));
    forall i | i in s.workers ensures Owned(s.workers[i]) != e && (i != id ==> Joining(s.workers[i]) != e) {
      assert OwnerOk(c, s, s.workers[i]);
    }
  }

  /** Nobody holds an ephemeron that is traced, or published and pending, or resolved and joined. */
  lemma Unheld(c: Table, s: State, e: Eph)
    requires Inv(c, s) && e != 0
    requires || StatusOf(s.status, e) == Traced
             || (StatusOf(s.status, e) == Pending && e in s.lists.stamp)
             || (StatusOf(s.status, e) == Resolved && e !in s.stack.joining)
    ensures e !in s.owner && e !in s.stack.joining && EphOk(ViewOf(c, s, e))
    ensures forall i | i in s.workers :: Owned(s.workers[i]) != e && Joining(s.workers[i]) != e
  {
    hide ListsOk, WalkersOk, StackOk, MovedOk, CoverOk, TableOk;
    assert EphOk(ViewOf(c, s, e));
    forall i | i in s.workers ensures Owned(s.workers[i]) != e && Joining(s.workers[i]) != e {
      assert OwnerOk(c, s, s.workers[i]);
    }
  }

  /** Setting the status of an ephemeron that is unpublished, or to something other than PENDING. */
  lemma StatusAges(c: Table, l: Lists, status: map<Eph, Status>, e: Eph, v: Status)
    requires ListsOk(c, l, status) && (e in l.stamp ==> v != Pending)
    ensures Ages(l, l, status, status[e := v]) && ListsOk(c, l, status[e := v])
  {
    hide SkipsDead, ListsOk;
    ListsAge(c, l, status, status[e := v]);
  }

  lemma ClaimKeeps(c: Table, s: State, s2: State, id: int, e: Eph)
    requires Inv(c, s) && id in s.workers && s.workers[id].Idle? && ClaimStep(c, s, s2, id, e)
    ensures Inv(c, s2)
  {
    hide ListsOk, WalkersOk, StackOk, MovedOk, CoverOk, OwnersOk, EphsOk, HeldOk;
    Unheld(c, s, e);
    StatusAges(c, s.lists, s.status, e, Claimed);
    HeldTaken(s.workers, s.owner, Owned, id, Epoch(e), e);
    HeldStays(s.workers, s.stack.joining, Joining, id, Epoch(e));
    EffectKeeps(c, s, s2, id, Epoch(e), e);
  }

  lemma ReleaseKeeps(c: Table, s: State, s2: State, id: int, e: Eph)
    requires Inv(c, s) && id in s.workers && Owned(s.workers[id]) == e && e != 0 && StatusOf(s.status, e) == Claimed
    requires s2 == Go(s, id, Idle).(status := s.status[e := Traced], owner := s.owner - {e})
    requires e in s.visited && (e in c.dead || s.resolves[e] > 0 || s.direct[e] > 0)
    ensures Inv(c, s2)
  {
    hide ListsOk, WalkersOk, StackOk, MovedOk, CoverOk, OwnersOk, EphsOk, HeldOk;
    OwnedAlone(c, s, id, e);
    StatusAges(c, s.lists, s.status, e, Traced);
    HeldDropped(s.workers, s.owner, Owned, id, Idle, e);
    HeldStays(s.workers, s.stack.joining, Joining, id, Idle);
    EffectKeeps(c, s, s2, id, Idle, e);
  }

  lemma {:induction false} ChainElsewhere(res: map<Eph, Eph>, v: Eph, q: seq<Eph>, e: Eph, x: Eph)
    requires Chain(res, v, q) && e !in q
    ensures Chain(res[e := x], v, q)
    decreases |q|
  {
    if q != [] {
      ChainElsewhere(res, LinkOf(res, v), q[1..], e, x);
      LinkElsewhere(res, e, x, v);
    }
  }

  lemma RelinkKeepsStack(k: Stack, e: Eph, x: Eph)
    requires StackOk(k) && k.joins[e] == 0
    ensures StackOk(k.(res := k.res[e := x]))
  {
    assert multiset(k.items)[e] == 0;
    ChainElsewhere(k.res, k.top, k.items, e, x);
  }

  lemma FirstEpochKeeps(c: Table, s: State, s2: State, id: int, e: Eph)
    requires Inv(c, s) && id in s.workers && s.workers[id] == Epoch(e) && e != 0 && e !in s.visited
    requires s2 == Go(s, id, FirstVisit(e)).(visited := s.visited + {e}, lists := s.lists.(pend := s.lists.pend[e := 0]),
                                             stack := s.stack.(res := s.stack.res[e := 0]))
    ensures Inv(c, s2)
  {
    hide ListsOk, WalkersOk, StackOk, MovedOk, CoverOk, OwnersOk, EphsOk, HeldOk;
    OwnedAlone(c, s, id, e);
    LinkUnpublished(c, s.lists, s.status, e, 0);
    RelinkKeepsStack(s.stack, e, 0);
    HeldStays(s.workers, s.owner, Owned, id, FirstVisit(e));
    HeldStays(s.workers, s.stack.joining, Joining, id, FirstVisit(e));
    EffectKeeps(c, s, s2, id, FirstVisit(e), e);
  }

  lemma DirectKeeps(c: Table, s: State, s2: State, id: int, e: Eph)
    requires Inv(c, s) && id in s.workers && s.workers[id] == FirstVisit(e) && e != 0
    requires e !in c.dead && KeyOf(c, e) in s.marked
    requires MayMove(Go(s, id, Direct(e)).(direct := s.direct + multiset{e}), s2, e)
    ensures Inv(c, s2)
  {
    hide ListsOk, WalkersOk, StackOk, MovedOk, CoverOk, OwnersOk, EphsOk, HeldOk;
    var s1 := Go(s, id, Direct(e)).(direct := s.direct + multiset{e});
    OwnedAlone(c, s, id, e);
    AgesRefl(s.lists, s.status);
    HeldStays(s.workers, s.owner, Owned, id, Direct(e));
    HeldStays(s.workers, s.stack.joining, Joining, id, Direct(e));
    EffectKeeps(c, s, s1, id, Direct(e), e);
    if s2 != s1 { MoveKeeps(c, s1, s2, e); }
  }

  lemma SetPendingKeeps(c: Table, s: State, s2: State, id: int, e: Eph)
    requires Inv(c, s) && id in s.workers && s.workers[id] == SetPending(e) && e != 0
    requires s2 == Go(s, id, PushLoad(e)).(status := s.status[e := Pending])
    ensures Inv(c, s2)
  {
    hide ListsOk, WalkersOk, StackOk, MovedOk, CoverOk, OwnersOk, EphsOk, HeldOk;
    OwnedAlone(c, s, id, e);
    StatusAges(c, s.lists, s.status, e, Pending);
    HeldStays(s.workers, s.owner, Owned, id, PushLoad(e));
    HeldStays(s.workers, s.stack.joining, Joining, id, PushLoad(e));
    EffectKeeps(c, s, s2, id, PushLoad(e), e);
  }

  lemma PushLinkKeeps(c: Table, s: State, s2: State, id: int, e: Eph, tail: Eph)
    requires Inv(c, s) && id in s.workers && s.workers[id] == PushLink(e, tail) && e != 0
    requires s2 == Go(s, id, PushCas(e, tail)).(lists := s.lists.(pend := s.lists.pend[e := tail]))
    ensures Inv(c, s2)
  {
    hide ListsOk, WalkersOk, StackOk, MovedOk, CoverOk, OwnersOk, EphsOk, HeldOk;
    OwnedAlone(c, s, id, e);
    LinkUnpublished(c, s.lists, s.status, e, tail);
    HeldStays(s.workers, s.owner, Owned, id, PushCas(e, tail));
    HeldStays(s.workers, s.stack.joining, Joining, id, PushCas(e, tail));
    EffectKeeps(c, s, s2, id, PushCas(e, tail), e);
  }

  lemma PublishKeeps(c: Table, s: State, s2: State, id: int, e: Eph, tail: Eph)
    requires Inv(c, s) && id in s.workers && s.workers[id] == PushCas(e, tail) && e != 0
    requires LinkOf(s.lists.heads, BucketOf(c, e)) == tail
    requires s2 == Go(s, id, Recheck(e)).(lists := Published(s.lists, BucketOf(c, e), e), owner := s.owner - {e})
    ensures Inv(c, s2)
  {
    hide ListsOk, WalkersOk, StackOk, MovedOk, CoverOk, EphsOk, HeldOk, Ages;
    assert OwnerOk(c, s, s.workers[id]);
    OwnedAlone(c, s, id, e);
    PublishKeepsLists(c, s.lists, s.status, e);
    HeldDropped(s.workers, s.owner, Owned, id, Recheck(e), e);
    HeldStays(s.workers, s.stack.joining, Joining, id, Recheck(e));
    EffectKeeps(c, s, s2, id, Recheck(e), e);
  }

  /** The one CAS that moves an ephemeron from PENDING to RESOLVED. */
  lemma ResolveKeeps(c: Table, s: State, s2: State, id: int, e: Eph, after: Then)
    requires Inv(c, s) && id in s.workers && s.workers[id] == Resolve(e, after) && Live(s.status, e)
    requires s2 == Go(s, id, JoinLoad(e, after)).(status := s.status[e := Resolved], resolves := s.resolves + multiset{e},
                                                  stack := s.stack.(joining := s.stack.joining[e := id]))
    ensures Inv(c, s2)
  {
    hide ListsOk, StackOk, MovedOk, CoverOk, OwnersOk, EphsOk, HeldOk, ThenOk;
    assert WalkerOk(c, s.lists, s.status, s.marked, s.workers[id]);
    ThenPublished(c, s.lists, s.status, s.marked, e, after);
    Unheld(c, s, e);
    StatusAges(c, s.lists, s.status, e, Resolved);
    HeldStays(s.workers, s.owner, Owned, id, JoinLoad(e, after));
    HeldTaken(s.workers, s.stack.joining, Joining, id, JoinLoad(e, after), e);
    assert StackOk(s2.stack) by { StackFrame(s.stack, s2.stack); }
    EffectKeeps(c, s, s2, id, JoinLoad(e, after), e);
  }

  lemma ThenPublished(c: Table, l: Lists, status: map<Eph, Status>, marked: set<Key>, e: Eph, after: Then)
    requires ThenOk(c, l, marked, e, after) && ListsOk(c, l, status) && TableOk(c)
    ensures e in l.stamp && KeyOf(c, e) in marked && e in c.keys && e != 0
  {
  }

  lemma StackFrame(k: Stack, k2: Stack)
    requires StackOk(k) && k2 == k.(joining := k2.joining)
    ensures StackOk(k2)
  {
  }

  lemma JoinLinkKeeps(c: Table, s: State, s2: State, id: int, e: Eph, tail: Eph, after: Then)
    requires Inv(c, s) && id in s.workers && s.workers[id] == JoinLink(e, tail, after) && e != 0
    requires s2 == Go(s, id, JoinCas(e, tail, after)).(stack := s.stack.(res := s.stack.res[e := tail]))
    ensures Inv(c, s2)
  {
    hide ListsOk, StackOk, MovedOk, CoverOk, OwnersOk, EphsOk, HeldOk, ThenOk;
    assert WalkerOk(c, s.lists, s.status, s.marked, s.workers[id]);
    JoiningAlone(c, s, id, e);
    AgesRefl(s.lists, s.status);
    RelinkKeepsStack(s.stack, e, tail);
    HeldStays(s.workers, s.owner, Owned, id, JoinCas(e, tail, after));
    HeldStays(s.workers, s.stack.joining, Joining, id, JoinCas(e, tail, after));
    EffectKeeps(c, s, s2, id, JoinCas(e, tail, after), e);
  }

  lemma JoinedKeepsStack(k: Stack, e: Eph)
    requires StackOk(k) && e != 0 && LinkOf(k.res, e) == k.top
    ensures StackOk(Joined(k, e))
  {
    var q := [e] + k.items;
    assert q[1..] == k.items;
    assert multiset(q) == multiset{e} + multiset(k.items);
  }

  lemma JoinedKeeps(c: Table, s: State, s2: State, id: int, e: Eph, tail: Eph, after: Then)
    requires Inv(c, s) && id in s.workers && s.workers[id] == JoinCas(e, tail, after) && s.stack.top == tail
    requires s2 == Go(s, id, Resume(e, after)).(stack := Joined(s.stack, e))
    ensures Inv(c, s2)
  {
    hide ListsOk, StackOk, MovedOk, CoverOk, EphsOk, HeldOk;
    assert WalkerOk(c, s.lists, s.status, s.marked, s.workers[id]);
    assert OwnerOk(c, s, s.workers[id]);
    JoiningAlone(c, s, id, e);
    AgesRefl(s.lists, s.status);
    JoinedKeepsStack(s.stack, e);
    HeldStays(s.workers, s.owner, Owned, id, Resume(e, after));
    HeldDropped(s.workers, s.stack.joining, Joining, id, Resume(e, after), e);
    EffectKeeps(c, s, s2, id, Resume(e, after), e);
  }

  lemma PopKeeps(c: Table, s: State, s2: State)
    requires Inv(c, s) && PopStep(c, s, s2)
    ensures Inv(c, s2)
  {
    hide ListsOk, WalkersOk, MovedOk, HeldOk, EphOk, OwnerKnows, Chain, Covered, Live, LinkOf;
    assert Chain(s2.stack.res, 0, []) by { EmptyChain(s2.stack.res); }
    assert multiset(s.stack.popped + s.stack.items) == multiset(s.stack.popped) + multiset(s.stack.items);
    forall e ensures ViewOf(c, s2, e) == ViewOf(c, s, e) {}
    forall e | Obliged(c, s2, e) ensures Covered(c, s2.lists, s2.workers, e) { assert Obliged(c, s, e); }
    forall i | i in s2.workers ensures OwnerOk(c, s2, s2.workers[i]) { assert OwnerOk(c, s, s.workers[i]); }
  }

  lemma EmptyChain(res: map<Eph, Eph>)
    ensures Chain(res, 0, [])
  {
  }

  lemma TracedKeepsStack(k: Stack)
    requires StackOk(k) && k.popped != []
    ensures StackOk(k.(popped := k.popped[1..], traced := k.traced + multiset{k.popped[0]}))
    ensures k.joins[k.popped[0]] > k.traced[k.popped[0]]
  {
    hide Chain;
    assert k.popped == [k.popped[0]] + k.popped[1..];
    assert multiset(k.popped) == multiset{k.popped[0]} + multiset(k.popped[1..]);
  }

  lemma JoinedIsResolved(c: Table, s: State, e: Eph)
    requires Inv(c, s) && s.stack.joins[e] > s.stack.traced[e]
    ensures StatusOf(s.status, e) == Resolved && e !in s.stack.joining && s.stack.traced[e] == 0 && e in s.lists.stamp
    ensures e != 0
  {
    hide WalkersOk, StackOk, MovedOk, CoverOk, OwnersOk, HeldOk;
    assert EphOk(ViewOf(c, s, e));
  }

  lemma TraceKeeps(c: Table, s: State, s2: State, id: int)
    requires Inv(c, s) && id in s.workers && s.workers[id].Idle? && TraceStep(c, s, s2)
    ensures Inv(c, s2)
  {
    hide ListsOk, WalkersOk, StackOk, MovedOk, CoverOk, OwnersOk, EphsOk, HeldOk;
    var e := s.stack.popped[0];
    TracedKeepsStack(s.stack);
    JoinedIsResolved(c, s, e);
    Unheld(c, s, e);
    StatusAges(c, s.lists, s.status, e, Traced);
    assert s2.workers == s.workers[id := Idle];
    HeldStays(s.workers, s.owner, Owned, id, Idle);
    HeldStays(s.workers, s.stack.joining, Joining, id, Idle);
    EffectKeeps(c, s, s2, id, Idle, e);
  }

  /** Marking a key: in the checking phase the marker goes looking for the key's ephemerons. */
  lemma MarkKeeps(c: Table, s: State, s2: State, id: int, k: Key)
    requires Inv(c, s) && id in s.workers && s.workers[id].Idle? && MarkStep(c, s, s2, id, k)
    ensures Inv(c, s2)
  {
    hide ListsOk, WalkersOk, HeldOk, StackOk, MovedOk, CoverOk, Ages, Live, LinkOf;
    var pc := if s.checking then Load(Seek(k, BucketFor(c, k)), Bucket) else Idle;
    AgesRefl(s.lists, s.status);
    WalkersAge(c, s.lists, s.lists, s.status, s.status, s.marked, s2.marked, s.workers, id, pc);
    HeldStays(s.workers, s.owner, Owned, id, pc);
    HeldStays(s.workers, s.stack.joining, Joining, id, pc);
    MovedKeeps(s.workers, s.moved, s.status, s.status, id, pc);
    CoverKeeps(c, s, s2, id, pc);
    forall e ensures EphOk(ViewOf(c, s2, e)) { assert EphOk(ViewOf(c, s, e)); }
    forall i | i in s2.workers ensures OwnerOk(c, s2, s2.workers[i]) {
      assert i != id ==> OwnerOk(c, s, s.workers[i]);
    }
  }

  /** The scan that starts the checking phase, when every worker is idle. */
  lemma ScanKeeps(c: Table, s: State, s2: State, id: int)
    requires Inv(c, s) && id in s.workers && ScanStep(c, s, s2, id)
    ensures Inv(c, s2)
  {
    hide ListsOk, WalkersOk, HeldOk, StackOk, MovedOk, CoverOk, Ages, Live, LinkOf;
    var pc := Load(Scan(0), Bucket);
    AgesRefl(s.lists, s.status);
    WalkersAge(c, s.lists, s.lists, s.status, s.status, s.marked, s.marked, s.workers, id, pc);
    HeldStays(s.workers, s.owner, Owned, id, pc);
    HeldStays(s.workers, s.stack.joining, Joining, id, pc);
    MovedKeeps(s.workers, s.moved, s.status, s.status, id, pc);
    CoverKeeps(c, s, s2, id, pc);
    forall e ensures ViewOf(c, s2, e) == ViewOf(c, s, e) {}
    forall i | i in s2.workers ensures OwnerOk(c, s2, s2.workers[i]) {
      assert i != id ==> OwnerOk(c, s, s.workers[i]);
    }
  }

  // ----- steps down a list -----------------------------------------------------------------

  /** What a link holds skips only dead ones. */
  lemma LinkSkips(c: Table, l: Lists, status: map<Eph, Status>, marked: set<Key>, w: Walk, loc: Loc)
    requires ListsOk(c, l, status) && LocOk(c, l, marked, w, loc)
    ensures SkipsDead(c, l, status, w.bucket, if loc.Bucket? then l.clock else l.stamp[loc.node], At(l, w, loc))
  {
    hide SkipsDead;
  }

  lemma SkipsNone(c: Table, l: Lists, status: map<Eph, Status>, v: Eph)
    requires v in l.stamp && v != 0
    ensures SkipsDead(c, l, status, BucketOf(c, v), l.stamp[v] + 1, v)
  {
  }

  /** A walk that loads `v` from a link holds a good cursor there, and still covers all it covered. */
  lemma LoadCursor(c: Table, l: Lists, status: map<Eph, Status>, marked: set<Key>, w: Walk, loc: Loc, v: Eph)
    requires ListsOk(c, l, status) && LocOk(c, l, marked, w, loc) && v == At(l, w, loc)
    ensures CursorOk(c, l, status, marked, w, loc, v, v)
    ensures forall x | x in l.stamp && Live(status, x) && CoversFrom(c, l, w, loc, x) :: CoversUpTo(c, l, w, v, x)
  {
    hide BucketOf, Live, At;
    LinkSkips(c, l, status, marked, w, loc);
    if v != 0 { SkipsNone(c, l, status, v); }
  }

  lemma ReturnCovers(c: Table, l: Lists, w: Walk, v: Eph, x: Eph)
    requires TableOk(c) && x in c.keys && x in l.stamp && CoversUpTo(c, l, w, v, x)
    ensures Covers(c, l, Return(c, w, v), x)
  {
  }

  lemma ReturnOk(c: Table, l: Lists, status: map<Eph, Status>, marked: set<Key>, w: Walk, v: Eph)
    requires TableOk(c) && WalkOk(c, marked, w) && (v != 0 ==> v in l.stamp && BucketOf(c, v) == w.bucket)
    ensures WalkerOk(c, l, status, marked, Return(c, w, v))
    ensures Owned(Return(c, w, v)) == 0 && Joining(Return(c, w, v)) == 0 && !Named(Return(c, w, v))
  {
    hide BucketOf;
  }

  lemma LoadKeeps(c: Table, s: State, s2: State, id: int)
    requires Inv(c, s) && id in s.workers && s.workers[id].Load? && Follow(c, s, s2, id)
    ensures Inv(c, s2)
  {
    hide ListsOk, HeldOk, StackOk, MovedOk, CoverOk, OwnersOk, EphsOk, At, BucketOf, Live, CursorOk, CoversFrom, CoversUpTo;
    var Load(w, loc) := s.workers[id];
    var v := At(s.lists, w, loc);
    assert WalkerOk(c, s.lists, s.status, s.marked, s.workers[id]);
    LoadCursor(c, s.lists, s.status, s.marked, w, loc, v);
    ReturnOk(c, s.lists, s.status, s.marked, w, 0);
    forall x | Obliged(c, s, x) && CoversFrom(c, s.lists, w, loc, x) && v == 0
      ensures Covers(c, s.lists, Return(c, w, 0), x)
    {
      PublishedKeyed(c, s.lists, s.status, x);
      ReturnCovers(c, s.lists, w, 0, x);
    }
    QuietKeeps(c, s, s2, id, if v == 0 then Return(c, w, 0) else Skip(w, loc, v, v));
  }

  lemma PublishedKeyed(c: Table, l: Lists, status: map<Eph, Status>, x: Eph)
    requires ListsOk(c, l, status) && x in l.stamp
    ensures x in c.keys
  {
  }

  lemma SkipKeeps(c: Table, s: State, s2: State, id: int)
    requires Inv(c, s) && id in s.workers && s.workers[id].Skip? && Follow(c, s, s2, id)
    ensures Inv(c, s2)
  {
    hide TableOk, ListsOk, HeldOk, StackOk, MovedOk, CoverOk, OwnersOk, EphsOk, CursorOk, CoversUpTo;
    var Skip(w, loc, h, n) := s.workers[id];
    assert WalkerOk(c, s.lists, s.status, s.marked, s.workers[id]);
    QuietKeeps(c, s, s2, id, if n != 0 && StatusOf(s.status, n) != Pending then Advance(w, loc, h, n) else Update(w, loc, h, n));
  }

  lemma AdvanceCursor(c: Table, l: Lists, status: map<Eph, Status>, marked: set<Key>, w: Walk, loc: Loc, h: Eph, n: Eph)
    requires ListsOk(c, l, status) && CursorOk(c, l, status, marked, w, loc, h, n) && n != 0 && !Live(status, n)
    ensures CursorOk(c, l, status, marked, w, loc, h, LinkOf(l.pend, n))
    ensures forall x | x in l.stamp && Live(status, x) && CoversUpTo(c, l, w, n, x) :: CoversUpTo(c, l, w, LinkOf(l.pend, n), x)
  {
    hide SkipsDead, BucketOf, Live, LinkOf, CoversUpTo;
    NextPublished(c, l, status, marked, w, loc, h, n);
    var v := LinkOf(l.pend, n);
    assert SkipsDead(c, l, status, w.bucket, l.stamp[n], v);
    DeadOneSkipped(c, l, status, w.bucket, n, v);
    SkipsDeadTrans(c, l, status, w.bucket, l.stamp[h] + 1, n, v);
    forall x | x in l.stamp && Live(status, x) && CoversUpTo(c, l, w, n, x) ensures CoversUpTo(c, l, w, v, x) {
      AdvanceCovers(c, l, status, w, n, v, x);
    }
  }

  lemma DeadOneSkipped(c: Table, l: Lists, status: map<Eph, Status>, b: int, n: Eph, v: Eph)
    requires n in l.stamp && BucketOf(c, n) == b && !Live(status, n) && SkipsDead(c, l, status, b, l.stamp[n], v)
    requires forall i, j | i in l.stamp && j in l.stamp && l.stamp[i] == l.stamp[j] :: i == j
    ensures SkipsDead(c, l, status, b, l.stamp[n] + 1, v)
  {
    hide BucketOf, Live;
  }

  lemma AdvanceCovers(c: Table, l: Lists, status: map<Eph, Status>, w: Walk, n: Eph, v: Eph, x: Eph)
    requires n in l.stamp && SkipsDead(c, l, status, w.bucket, l.stamp[n] + 1, v)
    requires x in l.stamp && Live(status, x) && CoversUpTo(c, l, w, n, x)
    ensures CoversUpTo(c, l, w, v, x)
  {
    hide BucketOf, Live;
  }

  lemma AdvanceKeeps(c: Table, s: State, s2: State, id: int)
    requires Inv(c, s) && id in s.workers && s.workers[id].Advance? && Follow(c, s, s2, id)
    ensures Inv(c, s2)
  {
    hide TableOk, ListsOk, HeldOk, StackOk, MovedOk, CoverOk, OwnersOk, EphsOk, CursorOk, CoversUpTo, Live;
    var Advance(w, loc, h, n) := s.workers[id];
    assert WalkerOk(c, s.lists, s.status, s.marked, s.workers[id]);
    AdvanceCursor(c, s.lists, s.status, s.marked, w, loc, h, n);
    QuietKeeps(c, s, s2, id, Skip(w, loc, h, LinkOf(s.lists.pend, n)));
  }

  /** From its cursor a walk covers no more than from the link it started at. */
  lemma CursorBelowLink(c: Table, l: Lists, status: map<Eph, Status>, marked: set<Key>,
                        w: Walk, loc: Loc, h: Eph, n: Eph, x: Eph)
    requires CursorOk(c, l, status, marked, w, loc, h, n) && CoversUpTo(c, l, w, n, x)
    ensures CoversFrom(c, l, w, loc, x)
  {
    hide BucketOf, KeyOf, Live, WalkOk;
  }

  /** The CAS lost to someone who wrote something else: start over from what is there now. */
  lemma RetryKeeps(c: Table, s: State, s2: State, id: int)
    requires Inv(c, s) && id in s.workers && s.workers[id].Update?
    requires var Update(w, loc, h, n) := s.workers[id];
      s2 == Go(s, id, Skip(w, loc, At(s.lists, w, loc), At(s.lists, w, loc)))
    ensures Inv(c, s2)
  {
    hide TableOk, ListsOk, HeldOk, StackOk, MovedOk, CoverOk, OwnersOk, EphsOk, At, BucketOf, Live, CursorOk, CoversFrom, CoversUpTo;
    var Update(w, loc, h, n) := s.workers[id];
    var v := At(s.lists, w, loc);
    assert WalkerOk(c, s.lists, s.status, s.marked, s.workers[id]);
    CursorLoc(c, s.lists, s.status, s.marked, w, loc, h, n);
    LoadCursor(c, s.lists, s.status, s.marked, w, loc, v);
    forall x | Obliged(c, s, x) && CoversUpTo(c, s.lists, w, n, x) ensures CoversUpTo(c, s.lists, w, v, x) {
      CursorBelowLink(c, s.lists, s.status, s.marked, w, loc, h, n, x);
    }
    QuietKeeps(c, s, s2, id, Skip(w, loc, v, v));
  }

  lemma CursorLoc(c: Table, l: Lists, status: map<Eph, Status>, marked: set<Key>, w: Walk, loc: Loc, h: Eph, n: Eph)
    requires CursorOk(c, l, status, marked, w, loc, h, n)
    ensures LocOk(c, l, marked, w, loc) && WalkOk(c, marked, w)
    ensures n != 0 ==> n in l.stamp && BucketOf(c, n) == w.bucket
  {
  }

  /** The walk settles on `n`. */
  lemma SettleKeeps(c: Table, s: State, s2: State, id: int)
    requires Inv(c, s) && id in s.workers && s.workers[id].Update? && s2 == Go(s, id, Return(c, s.workers[id].w, s.workers[id].next))
    ensures Inv(c, s2)
  {
    hide ListsOk, HeldOk, StackOk, MovedOk, CoverOk, OwnersOk, EphsOk, BucketOf, Live, CursorOk, CoversUpTo, Return;
    var Update(w, loc, h, n) := s.workers[id];
    assert WalkerOk(c, s.lists, s.status, s.marked, s.workers[id]);
    CursorLoc(c, s.lists, s.status, s.marked, w, loc, h, n);
    ReturnOk(c, s.lists, s.status, s.marked, w, n);
    forall x | Obliged(c, s, x) && CoversUpTo(c, s.lists, w, n, x) ensures Covers(c, s.lists, Return(c, w, n), x) {
      PublishedKeyed(c, s.lists, s.status, x);
      ReturnCovers(c, s.lists, w, n, x);
    }
    QuietKeeps(c, s, s2, id, Return(c, w, n));
  }

  /** The CAS that cuts out the dead nodes between the link and `n` leaves the lists good. */
  lemma CutKeeps(c: Table, s: State, s2: State, id: int)
    requires Inv(c, s) && id in s.workers && s.workers[id].Update? && s.workers[id].head != s.workers[id].next
    requires var Update(w, loc, h, n) := s.workers[id];
      At(s.lists, w, loc) == h && s2 == s.(lists := Store(s.lists, w, loc, n))
    ensures Inv(c, s2)
  {
    hide TableOk, ListsOk, HeldOk, StackOk, MovedOk, EphOk, OwnerKnows, BucketOf, Live, At, LinkOf, WalkerOk, SkipsDead, Covered;
    var Update(w, loc, h, n) := s.workers[id];
    assert WalkerOk(c, s.lists, s.status, s.marked, s.workers[id]);
    CutLists(c, s.lists, s.status, s.marked, w, loc, h, n);
    forall pc | WalkerOk(c, s.lists, s.status, s.marked, pc) ensures WalkerOk(c, s2.lists, s.status, s.marked, pc) {
      WalkerAges(c, s.lists, s2.lists, s.status, s.status, s.marked, s.marked, pc);
    }
    forall e ensures ViewOf(c, s2, e) == ViewOf(c, s, e) {}
    forall e | Obliged(c, s2, e) ensures Covered(c, s2.lists, s2.workers, e) {
      assert Obliged(c, s, e);
      CoveredSame(c, s.lists, s2.lists, s.workers, e);
    }
    forall i | i in s2.workers ensures OwnerOk(c, s2, s2.workers[i]) { CutOwner(c, s, s2, w, loc, n, s.workers[i]); }
  }

  lemma CoveredSame(c: Table, l: Lists, l2: Lists, workers: map<int, Pc>, e: Eph)
    requires Covered(c, l, workers, e) && l2.stamp == l.stamp
    ensures Covered(c, l2, workers, e)
  {
    hide Covers;
    var id :| id in workers && Covers(c, l, workers[id], e);
    CoversAges(c, l, l2, workers[id], e);
  }

  lemma CutOwner(c: Table, s: State, s2: State, w: Walk, loc: Loc, n: Eph, pc: Pc)
    requires OwnerOk(c, s, pc) && s2 == s.(lists := Store(s.lists, w, loc, n)) && (loc.After? ==> loc.node in s.lists.stamp)
    ensures OwnerOk(c, s2, pc)
  {
  }

  lemma CutLists(c: Table, l: Lists, status: map<Eph, Status>, marked: set<Key>, w: Walk, loc: Loc, h: Eph, n: Eph)
    requires ListsOk(c, l, status) && WalkerOk(c, l, status, marked, Update(w, loc, h, n)) && At(l, w, loc) == h && h != n
    ensures ListsOk(c, Store(l, w, loc, n), status) && Ages(l, Store(l, w, loc, n), status, status)
    ensures loc.After? ==> loc.node in l.stamp
  {
    hide SkipsDead, BucketOf, Live, ListsOk, At;
    LinkSkips(c, l, status, marked, w, loc);
    SkipsDeadTrans(c, l, status, w.bucket, if loc.Bucket? then l.clock else l.stamp[loc.node], h, n);
    CutKeepsLists(c, l, status, w, loc, n);
  }

  lemma UpdateKeeps(c: Table, s: State, s2: State, id: int)
    requires Inv(c, s) && id in s.workers && s.workers[id].Update? && Follow(c, s, s2, id)
    ensures Inv(c, s2)
  {
    hide Inv, At, Store, Return;
    var Update(w, loc, h, n) := s.workers[id];
    var cur := At(s.lists, w, loc);
    if h == n || (cur != h && cur == n) {
      SettleKeeps(c, s, s2, id);
    } else if cur == h {
      var s1 := s.(lists := Store(s.lists, w, loc, n));
      CutKeeps(c, s, s1, id);
      SettleKeeps(c, s1, s2, id);
    } else {
      RetryKeeps(c, s, s2, id);
    }
  }

  lemma VisitKeeps(c: Table, s: State, s2: State, id: int)
    requires Inv(c, s) && id in s.workers && s.workers[id].Visit? && Follow(c, s, s2, id)
    ensures Inv(c, s2)
  {
    hide TableOk, ListsOk, HeldOk, StackOk, CoverOk, OwnersOk, BucketOf, KeyOf, Live, Resolving, Covered, EphOk;
    var Visit(w, e) := s.workers[id];
    assert WalkerOk(c, s.lists, s.status, s.marked, s.workers[id]);
    assert EphOk(ViewOf(c, s, e));
    if Matches(c, s, w, e) {
      var s1 := Go(s, id, Resolve(e, Continue(w)));
      forall x | Obliged(c, s, x) && Covers(c, s.lists, Visit(w, e), x)
        ensures Covers(c, s.lists, Resolve(e, Continue(w)), x)
      {
        VisitCovers(c, s.lists, s.status, w, e, x);
      }
      QuietKeeps(c, s, s1, id, Resolve(e, Continue(w)));
      if s2 != s1 {
        NowResolving(s.workers, id, e, Continue(w));
        MoveKeeps(c, s1, s2, e);
      }
    } else {
      forall x | Obliged(c, s, x) && Covers(c, s.lists, s.workers[id], x) && !Covers(c, s.lists, Load(w, After(e)), x)
        ensures Covered(c, s.lists, s2.workers, x)
      {
        MissedMoved(c, s, w, e, x);
        ResolverCovers(c, s.lists, s.workers, id, e, Load(w, After(e)));
      }
      QuietKeeps(c, s, s2, id, Load(w, After(e)));
    }
  }

  lemma VisitCovers(c: Table, l: Lists, status: map<Eph, Status>, w: Walk, e: Eph, x: Eph)
    requires ListsOk(c, l, status) && Covers(c, l, Visit(w, e), x)
    ensures Covers(c, l, Resolve(e, Continue(w)), x)
  {
    hide SkipsDead, BucketOf, KeyOf;
  }

  lemma NowResolving(workers: map<int, Pc>, id: int, e: Eph, after: Then)
    ensures Resolving(workers[id := Resolve(e, after)], e)
  {
    assert workers[id := Resolve(e, after)][id] == Resolve(e, after);
  }

  /** The only pending ephemeron with this marked key that the comparison misses is one whose key
      edge another worker has already rewritten. */
  lemma MissedMoved(c: Table, s: State, w: Walk, e: Eph, x: Eph)
    requires ListsOk(c, s.lists, s.status) && MovedOk(s.workers, s.moved, s.status)
    requires Obliged(c, s, x) && Covers(c, s.lists, Visit(w, e), x) && !Covers(c, s.lists, Load(w, After(e)), x)
    requires !Matches(c, s, w, e)
    ensures x == e && Resolving(s.workers, e)
  {
    hide SkipsDead, BucketOf, KeyOf, Live, Resolving;
  }

  lemma ResolverCovers(c: Table, l: Lists, workers: map<int, Pc>, id: int, e: Eph, pc: Pc)
    requires id in workers && workers[id].Visit? && Resolving(workers, e)
    ensures Covered(c, l, workers[id := pc], e)
  {
    var i :| i in workers && workers[i].Resolve? && workers[i].e == e;
    assert workers[id := pc][i] == workers[i];
    assert Covers(c, l, workers[i], e);
  }

  lemma RecheckKeeps(c: Table, s: State, s2: State, id: int)
    requires Inv(c, s) && id in s.workers && s.workers[id].Recheck? && Publish(c, s, s2, id)
    ensures Inv(c, s2)
  {
    hide TableOk, ListsOk, HeldOk, StackOk, CoverOk, OwnersOk, KeyOf, Live, Resolving, Covered, EphOk;
    var e := s.workers[id].e;
    assert WalkerOk(c, s.lists, s.status, s.marked, s.workers[id]);
    if KeyOf(c, e) in s.marked {
      var s1 := Go(s, id, Resolve(e, Stop));
      QuietKeeps(c, s, s1, id, Resolve(e, Stop));
      if s2 != s1 {
        NowResolving(s.workers, id, e, Stop);
        MoveKeeps(c, s1, s2, e);
      }
    } else {
      QuietKeeps(c, s, s2, id, Idle);
    }
  }

  lemma FollowKeeps(c: Table, s: State, s2: State, id: int)
    requires Inv(c, s) && id in s.workers && Follow(c, s, s2, id)
    ensures Inv(c, s2)
  {
    hide Inv, At, Return, Matches, MayMove;
    match s.workers[id]
    case Load(_, _) => LoadKeeps(c, s, s2, id);
    case Skip(_, _, _, _) => SkipKeeps(c, s, s2, id);
    case Advance(_, _, _, _) => AdvanceKeeps(c, s, s2, id);
    case Update(_, _, _, _) => UpdateKeeps(c, s, s2, id);
    case Visit(_, _) => VisitKeeps(c, s, s2, id);
    case _ =>
  }

  lemma PublishKeepsInv(c: Table, s: State, s2: State, id: int)
    requires Inv(c, s) && id in s.workers && Publish(c, s, s2, id)
    ensures Inv(c, s2)
  {
    hide TableOk, ListsOk, WalkersOk, HeldOk, EphsOk, StackOk, MovedOk, CoverOk, Published, BucketOf, KeyOf, LinkOf;
    assert OwnerOk(c, s, s.workers[id]);
    match s.workers[id]
    case Epoch(e) =>
      if e in s.visited { OwnedAlone(c, s, id, e); ReleaseKeeps(c, s, s2, id, e); }
      else { FirstEpochKeeps(c, s, s2, id, e); }
    case FirstVisit(e) =>
      if e in c.dead { ReleaseKeeps(c, s, s2, id, e); }
      else if KeyOf(c, e) in s.marked { DirectKeeps(c, s, s2, id, e); }
      else { OwnerMoves(c, s, s2, id, SetPending(e)); }
    case Direct(e) => OwnedAlone(c, s, id, e); ReleaseKeeps(c, s, s2, id, e);
    case SetPending(e) => SetPendingKeeps(c, s, s2, id, e);
    case PushLoad(e) => OwnerMoves(c, s, s2, id, PushLink(e, LinkOf(s.lists.heads, BucketOf(c, e))));
    case PushLink(e, tail) => PushLinkKeeps(c, s, s2, id, e, tail);
    case PushCas(e, tail) =>
      if s2 == Go(s, id, PushLink(e, LinkOf(s.lists.heads, BucketOf(c, e)))) {
        OwnerMoves(c, s, s2, id, PushLink(e, LinkOf(s.lists.heads, BucketOf(c, e))));
      } else {
        PublishKeeps(c, s, s2, id, e, tail);
      }
    case Recheck(e) => RecheckKeeps(c, s, s2, id);
    case _ =>
  }

  lemma OwnerMoves(c: Table, s: State, s2: State, id: int, pc: Pc)
    requires Inv(c, s) && id in s.workers && s2 == Go(s, id, pc)
    requires Owned(pc) == Owned(s.workers[id]) != 0 && OwnerOk(c, s, pc)
    ensures Inv(c, s2)
  {
    hide TableOk, ListsOk, HeldOk, EphsOk, StackOk, MovedOk, CoverOk, OwnersOk, OwnerOk;
    QuietKeeps(c, s, s2, id, pc);
  }

  lemma JoinKeepsInv(c: Table, s: State, s2: State, id: int)
    requires Inv(c, s) && id in s.workers && Join(c, s, s2, id)
    ensures Inv(c, s2)
  {
    hide TableOk, ListsOk, HeldOk, EphsOk, StackOk, MovedOk, CoverOk, KeyOf, LinkOf, Joined, CoversFrom;
    assert OwnerOk(c, s, s.workers[id]);
    assert WalkerOk(c, s.lists, s.status, s.marked, s.workers[id]);
    match s.workers[id]
    case Resolve(e, after) =>
      if Live(s.status, e) { ResolveKeeps(c, s, s2, id, e, after); }
      else { QuietKeeps(c, s, s2, id, Resume(e, after)); }
    case JoinLoad(e, after) => QuietKeeps(c, s, s2, id, JoinLink(e, s.stack.top, after));
    case JoinLink(e, tail, after) => JoinLinkKeeps(c, s, s2, id, e, tail, after);
    case JoinCas(e, tail, after) =>
      if s2 == Go(s, id, JoinLink(e, s.stack.top, after)) {
        QuietKeeps(c, s, s2, id, JoinLink(e, s.stack.top, after));
      } else {
        JoinedKeeps(c, s, s2, id, e, tail, after);
      }
    case _ =>
  }

  lemma StartKeepsInv(c: Table, s: State, s2: State, id: int)
    requires Inv(c, s) && id in s.workers && s.workers[id].Idle? && Start(c, s, s2, id)
    ensures Inv(c, s2)
  {
    hide Inv, ClaimStep, MarkStep, ScanStep, PopStep, TraceStep;
    if e :| ClaimStep(c, s, s2, id, e) {
      ClaimKeeps(c, s, s2, id, e);
    } else if k :| MarkStep(c, s, s2, id, k) {
      MarkKeeps(c, s, s2, id, k);
    } else if ScanStep(c, s, s2, id) {
      ScanKeeps(c, s, s2, id);
    } else if PopStep(c, s, s2) {
      PopKeeps(c, s, s2);
    } else {
      TraceKeeps(c, s, s2, id);
    }
  }

  lemma StepKeepsInv(c: Table, s: State, s2: State, id: int)
    requires Inv(c, s) && Step(c, s, s2, id)
    ensures Inv(c, s2)
  {
    hide Inv, Start, Publish, Follow, Join;
    if Publish(c, s, s2, id) {
      PublishKeepsInv(c, s, s2, id);
    } else if Follow(c, s, s2, id) {
      FollowKeeps(c, s, s2, id);
    } else if Join(c, s, s2, id) {
      JoinKeepsInv(c, s, s2, id);
    } else {
      StartKeepsInv(c, s, s2, id);
    }
  }

  // ----- what every run keeps --------------------------------------------------------------

  ghost predicate Next(c: Table, s: State, s2: State) {
    exists id :: Step(c, s, s2, id)
  }

  ghost predicate Run(c: Table, run: seq<State>) {
    && |run| > 0 && Init(c, run[0])
    && forall i | 0 <= i < |run| - 1 :: Next(c, run[i], run[i + 1])
  }

  lemma {:induction false} RunKeepsInv(c: Table, run: seq<State>, i: nat)
    requires Run(c, run) && i < |run|
    ensures Inv(c, run[i])
  {
    hide Inv, Init, Step;
    if i == 0 {
      InitInv(c, run[0]);
    } else {
      RunKeepsInv(c, run, i - 1);
      var id :| Step(c, run[i - 1], run[i], id);
      StepKeepsInv(c, run[i - 1], run[i], id);
    }
  }

  /** At every point of every run: an ephemeron has moved from PENDING to RESOLVED at most once, has
      joined the stack at most that often, and only if its key is marked; and every ephemeron that
      ever joined is on the stack, popped, or traced, as often as it joined. */
  lemma ResolvedAtMostOnce(c: Table, run: seq<State>, i: nat, e: Eph)
    requires Run(c, run) && i < |run|
    ensures run[i].stack.joins[e] <= run[i].resolves[e] <= 1
    ensures run[i].resolves[e] > 0 ==> KeyOf(c, e) in run[i].marked
    ensures run[i].direct[e] + run[i].resolves[e] <= 1
    ensures run[i].stack.joins == multiset(run[i].stack.items) + multiset(run[i].stack.popped) + run[i].stack.traced
  {
    RunKeepsInv(c, run, i);
    hide ListsOk, WalkersOk, HeldOk, MovedOk, CoverOk, OwnersOk, Chain;
    assert EphOk(ViewOf(c, run[i], e));
  }

  /** The checking phase has come to rest. */
  ghost predicate Quiescent(s: State) {
    && s.checking && (forall id | id in s.workers :: s.workers[id] == Idle)
    && s.stack.items == [] && s.stack.popped == []
  }

  /** A worker gives up an ephemeron only when it has been visited in this collection. */
  lemma GivenUpVisited(c: Table, s: State, s2: State, id: int, e: Eph)
    requires Inv(c, s) && Step(c, s, s2, id) && e in s.owner && e !in s2.owner
    ensures e in s2.visited
  {
    hide TableOk, ListsOk, WalkersOk, StackOk, MovedOk, CoverOk, HeldOk, Start, Follow, Join, Published, BucketOf, KeyOf, LinkOf;
    if Publish(c, s, s2, id) {
      assert OwnerOk(c, s, s.workers[id]);
      assert EphOk(ViewOf(c, s, e));
    } else {
      OwnerKept(c, s, s2, id);
    }
  }

  lemma OwnerKept(c: Table, s: State, s2: State, id: int)
    requires Step(c, s, s2, id) && !Publish(c, s, s2, id)
    ensures forall e | e in s.owner :: e in s2.owner
  {
    hide Publish, At, Store, Return, Matches, Resume, Joined;
  }

  lemma VisitedStays(c: Table, s: State, s2: State, id: int)
    requires Step(c, s, s2, id)
    ensures s.visited <= s2.visited
  {
    hide At, Store, Return, Matches, Resume, Joined, Published, LinkOf, BucketOf, KeyOf;
  }

  /** What a worker has claimed it holds, until it has been visited. */
  lemma {:induction false} ClaimedThen(c: Table, run: seq<State>, i: nat, k: nat, e: Eph)
    requires Run(c, run) && k <= i < |run| && StatusOf(run[k].status, e) == Claimed
    ensures e in run[i].owner || e in run[i].visited
    decreases i
  {
    hide Run, Inv, Step;
    RunKeepsInv(c, run, i);
    if i == k {
      ClaimedOwned(c, run[k], e);
    } else {
      ClaimedThen(c, run, i - 1, k, e);
      RunKeepsInv(c, run, i - 1);
      var id := Stepper(c, run, i - 1);
      VisitedStays(c, run[i - 1], run[i], id);
      if e in run[i - 1].owner && e !in run[i].owner { GivenUpVisited(c, run[i - 1], run[i], id, e); }
    }
  }

  lemma ClaimedOwned(c: Table, s: State, e: Eph)
    requires Inv(c, s) && StatusOf(s.status, e) == Claimed
    ensures e in s.owner
  {
    hide TableOk, ListsOk, WalkersOk, StackOk, MovedOk, CoverOk, OwnersOk, HeldOk;
    assert EphOk(ViewOf(c, s, e));
  }

  lemma Stepper(c: Table, run: seq<State>, k: nat) returns (id: int)
    requires Run(c, run) && k + 1 < |run|
    ensures Step(c, run[k], run[k + 1], id)
  {
    hide Step, Init;
    assert Next(c, run[k], run[k + 1]);
    id :| Step(c, run[k], run[k + 1], id);
  }

  /** At rest every ephemeron that was ever claimed has been visited. */
  lemma ClaimedVisited(c: Table, run: seq<State>, i: nat, k: nat, e: Eph)
    requires Run(c, run) && k <= i < |run| && Quiescent(run[i]) && StatusOf(run[k].status, e) == Claimed
    ensures e in run[i].visited
  {
    ClaimedThen(c, run, i, k, e);
    RunKeepsInv(c, run, i);
    hide Run, TableOk, ListsOk, WalkersOk, StackOk, MovedOk, CoverOk, OwnersOk, EphsOk, HeldOk;
    IdleHoldsNothing(run[i].workers, run[i].owner, Owned);
  }

  /** When the checking phase comes to rest, no ephemeron is lost: the value of an ephemeron that any
      worker has claimed has been traced exactly once if its key is marked, and not at all otherwise;
      in that case it is still PENDING. */
  lemma NoneLost(c: Table, run: seq<State>, i: nat, k: nat, e: Eph)
    requires Run(c, run) && k <= i < |run| && Quiescent(run[i])
    requires StatusOf(run[k].status, e) == Claimed && e !in c.dead
    ensures KeyOf(c, e) in run[i].marked ==> run[i].direct[e] + run[i].stack.traced[e] == 1
    ensures KeyOf(c, e) in run[i].marked ==> run[i].direct[e] + run[i].stack.joins[e] == 1
    ensures KeyOf(c, e) !in run[i].marked ==> run[i].direct[e] + run[i].stack.traced[e] == 0
    ensures Live(run[i].status, e) <==> KeyOf(c, e) !in run[i].marked
    ensures Live(run[i].status, e) ==> e in run[i].lists.stamp
  {
    ClaimedVisited(c, run, i, k, e);
    AtRest(c, run, i, e);
  }

  /** The value of an ephemeron that was dead already is never traced, nor is the ephemeron published. */
  lemma DeadUntraced(c: Table, run: seq<State>, i: nat, e: Eph)
    requires Run(c, run) && i < |run| && e in c.dead
    ensures run[i].direct[e] + run[i].stack.traced[e] + run[i].stack.joins[e] == 0 && e !in run[i].lists.stamp
  {
    RunKeepsInv(c, run, i);
    hide Run, TableOk, ListsOk, WalkersOk, StackOk, MovedOk, CoverOk, OwnersOk, HeldOk;
    assert EphOk(ViewOf(c, run[i], e));
  }

  lemma AtRest(c: Table, run: seq<State>, i: nat, e: Eph)
    requires Run(c, run) && i < |run| && Quiescent(run[i])
    requires e in run[i].visited && e !in c.dead
    ensures KeyOf(c, e) in run[i].marked ==> run[i].direct[e] + run[i].stack.traced[e] == 1
    ensures KeyOf(c, e) in run[i].marked ==> run[i].direct[e] + run[i].stack.joins[e] == 1
    ensures KeyOf(c, e) !in run[i].marked ==> run[i].direct[e] + run[i].stack.traced[e] == 0
    ensures Live(run[i].status, e) <==> KeyOf(c, e) !in run[i].marked
    ensures Live(run[i].status, e) ==> e in run[i].lists.stamp
  {
    var s := run[i];
    RunKeepsInv(c, run, i);
    hide ListsOk, WalkersOk, MovedOk, OwnersOk, Chain, Covers;
    IdleHoldsNothing(s.workers, s.owner, Owned);
    IdleHoldsNothing(s.workers, s.stack.joining, Joining);
    assert EphOk(ViewOf(c, s, e));
    if Obliged(c, s, e) {
      assert Covered(c, s.lists, s.workers, e);
      IdleCoversNothing(c, s.lists, s.workers, e);
    }
  }

  lemma IdleHoldsNothing(workers: map<int, Pc>, held: map<Eph, int>, hold: Pc -> Eph)
    requires HeldOk(workers, held, hold) && hold(Idle) == 0
    requires forall id | id in workers :: workers[id] == Idle
    ensures forall e :: e !in held
  {
    forall e ensures e !in held {
      var id := if e in held then held[e] else 0;
      assert id in workers ==> hold(workers[id]) == 0;
    }
  }

  lemma IdleCoversNothing(c: Table, l: Lists, workers: map<int, Pc>, e: Eph)
    requires forall id | id in workers :: workers[id] == Idle
    ensures !Covered(c, l, workers, e)
  {
  }

  /** The nodes found from `v` by following pending links. */
  ghost predicate Reaches(l: Lists, v: Eph, e: Eph, n: nat)
    decreases n
  {
    v == e || (n > 0 && v != 0 && Reaches(l, LinkOf(l.pend, v), e, n - 1))
  }

  lemma {:induction false} LinkReaches(c: Table, l: Lists, status: map<Eph, Status>, hi: nat, v: Eph, e: Eph)
    requires ListsOk(c, l, status) && e in l.stamp && Live(status, e) && l.stamp[e] < hi
    requires SkipsDead(c, l, status, BucketOf(c, e), hi, v)
    ensures Reaches(l, v, e, hi)
    decreases hi
  {
    hide BucketOf, Live;
    if v != e {
      assert l.stamp[e] < l.stamp[v];
      LinkReaches(c, l, status, l.stamp[v], LinkOf(l.pend, v), e);
      ReachesMore(l, LinkOf(l.pend, v), e, l.stamp[v], hi - 1);
    }
  }

  lemma {:induction false} ReachesMore(l: Lists, v: Eph, e: Eph, n: nat, m: nat)
    requires Reaches(l, v, e, n) && n <= m
    ensures Reaches(l, v, e, m)
    decreases n
  {
    if v != e { ReachesMore(l, LinkOf(l.pend, v), e, n - 1, m - 1); }
  }

  /** At every point of every run, every published ephemeron still PENDING can be found from the head
      of its bucket, however pushes and cuts interleave. */
  lemma PendingReachable(c: Table, run: seq<State>, i: nat, e: Eph)
    requires Run(c, run) && i < |run| && e in run[i].lists.stamp && Live(run[i].status, e)
    ensures exists n: nat :: Reaches(run[i].lists, LinkOf(run[i].lists.heads, BucketOf(c, e)), e, n)
  {
    var s := run[i];
    RunKeepsInv(c, run, i);
    hide WalkersOk, HeldOk, EphsOk, StackOk, MovedOk, CoverOk, OwnersOk, BucketOf, Live, LinkOf, SkipsDead;
    LinkReaches(c, s.lists, s.status, s.lists.clock, LinkOf(s.lists.heads, BucketOf(c, e)), e);
  }
}
