/** Parallel tracing and how its end is detected: worker 0 and any number of helpers, each helper
    with a lock it holds whenever it is not waiting.  An object that a worker finds is marked, pushed on
    that worker's deque, taken into some worker's hands, its fields visited one by one, and done. */
module TraceTermination {
  datatype Lock = Free | ByHelper | ByMain

  /** Where an object that has been marked is: marked by a worker that has yet to push it, on a deque, in a
      worker's hands, or done.  Roots that have been popped are in hand or done. */
  datatype Place = Met(w: int) | InDeque(w: int) | InHand(w: int) | Done

  /** The references that objects and roots hold, 0 where there is none. */
  datatype Graph = Graph(fields: map<int, seq<int>>, roots: map<int, seq<int>>)

  datatype Pc =
    | Out                // worker 0 between traces
    | Unlock(k: int)
    | Unpark
    | Blocked            // a helper that needs its lock
    | Asleep             // a helper waiting on the condition, its lock released
    | Check
    | Enter
    | Roots
    | Root(r: int, i: nat, met: int)    // at reference i of a root; `met` is what it has marked and not pushed
    | LockAll(k: int)
    | Pop
    | Steal(k: int)
    | Trace(t: int, i: nat, met: int)   // at field i of an object
    | Should
    | TryLock(k: int)
    | Scan(k: int)
    | Unwind(k: int)
    | Leave
    | Park               // a helper about to wait on the condition again

  /** The root list: how many pops were tried, the roots added, and where each popped one is. */
  datatype RootList = RootList(read: int, ids: seq<int>, taken: map<int, Place>)

  /** `items` are the objects marked so far; `added` records every root added in this collection. */
  datatype State = State(
    graph: Graph, added: set<int>, n: int, pcs: map<int, Pc>, locks: map<int, Lock>, active: int, epoch: int, seen: map<int, int>,
    rootsOnly: bool, roots: RootList, items: map<int, Place>, victim: map<int, int>)

  function LockOf(s: State, i: int): Lock {
    if i in s.locks then s.locks[i] else ByMain
  }

  function VictimOf(s: State, w: int): int {
    if w in s.victim then s.victim[w] else 0
  }

  function SeenBy(s: State, w: int): int {
    if w in s.seen then s.seen[w] else 0
  }

  ghost predicate DequeEmpty(items: map<int, Place>, w: int) {
    forall t | t in items :: items[t] != InDeque(w)
  }

  ghost predicate Init(s: State) {
    && s.n >= 1 && (forall w :: w in s.pcs <==> 0 <= w < s.n)
    && s.pcs[0] == Out && (forall w | 1 <= w < s.n :: s.pcs[w] == Blocked)
    && s.locks == map[] && s.active == 0 && s.roots == RootList(0, [], map[]) && s.items == map[] && s.added == {}
    && 0 <= VictimOf(s, 0) < s.n && s.epoch == 0 && s.seen == map[]
  }

  function Go(s: State, w: int, pc: Pc): (r: State)
    ensures r.items == s.items && r.roots == s.roots
  {
    s.(pcs := s.pcs[w := pc])
  }

  function Following(n: int, x: int): int {
    if x + 1 == n then 0 else x + 1
  }

  function Broadcast(s: State): (r: State)
    ensures r.items == s.items && r.roots == s.roots
  {
    s.(epoch := s.epoch + 1, pcs := map w | w in s.pcs :: if s.pcs[w] == Asleep then Blocked else s.pcs[w])
  }

  function FieldsOf(g: Graph, t: int): seq<int> {
    if t in g.fields then g.fields[t] else []
  }

  function RootRefs(g: Graph, id: int): seq<int> {
    if id in g.roots then g.roots[id] else []
  }

  /** The references a worker is visiting. */
  function RefsOf(g: Graph, ids: seq<int>, pc: Pc): seq<int> {
    match pc
    case Root(r, _, _) => if 0 <= r < |ids| then RootRefs(g, ids[r]) else []
    case Trace(t, _, _) => FieldsOf(g, t)
    case _ => []
  }

  function Onward(pc: Pc): Pc {
    match pc
    case Root(r, i, _) => Root(r, i + 1, 0)
    case Trace(t, i, _) => Trace(t, i + 1, 0)
    case _ => pc
  }

  function Found(pc: Pc, x: int): Pc {
    match pc
    case Root(r, i, _) => Root(r, i, x)
    case Trace(t, i, _) => Trace(t, i, x)
    case _ => pc
  }

  predicate Visiting(s: State, pc: Pc) {
    (pc.Root? || pc.Trace?) && (pc.met != 0 || pc.i < |RefsOf(s.graph, s.roots.ids, pc)|)
  }

  /** A worker visits the next reference: what it is the first to reach it marks, and then pushes on its
      own deque. */
  ghost predicate VisitStep(s: State, s2: State, w: int)
    requires w in s.pcs && Visiting(s, s.pcs[w])
  {
    var pc := s.pcs[w];
    if pc.met != 0 then s2 == Go(s, w, Onward(pc)).(items := s.items[pc.met := InDeque(w)])
    else
      var x := RefsOf(s.graph, s.roots.ids, pc)[pc.i];
      if x == 0 || x in s.items then s2 == Go(s, w, Onward(pc))
      else s2 == Go(s, w, Found(pc, x)).(items := s.items[x := Met(w)])
  }

  ghost predicate Take(s: State, s2: State, w: int, from: int) {
    exists t :: t in s.items && s.items[t] == InDeque(from) && s2 == Go(s, w, Trace(t, 0, 0)).(items := s.items[t := InHand(w)])
  }

  // ----- steps of any worker inside a trace ------------------------------------------------

  ghost predicate TraceStep(s: State, s2: State, w: int)
    requires w in s.pcs
  {
    match s.pcs[w]
    case Enter => s2 == Go(s, w, Roots).(active := s.active + 1)
    case Roots =>
      var r := s.roots.read;
      var q := s.roots.(read := r + 1);
      if r < |s.roots.ids| then s2 == Go(s, w, Root(r, 0, 0)).(roots := q.(taken := q.taken[r := InHand(w)]))
      else s2 == Go(s, w, if !s.rootsOnly then Pop else if w == 0 then LockAll(1) else Leave).(roots := q)
    case Root(r, _, _) =>
      if Visiting(s, s.pcs[w]) then VisitStep(s, s2, w)
      else s2 == Go(s, w, Roots).(roots := s.roots.(taken := s.roots.taken[r := Done]))
    case Pop =>
      if DequeEmpty(s.items, w) then s2 == Go(s, w, Steal(0)) else Take(s, s2, w, w)
    case Steal(k) =>
      if k < s.n then
        || Take(s, s2, w, VictimOf(s, w))
        || s2 == Go(s, w, Steal(k + 1)).(victim := s.victim[w := Following(s.n, VictimOf(s, w))])
      else s2 == Go(s, w, if w == 0 then Should else Leave)
    case Trace(t, _, _) =>
      || (if Visiting(s, s.pcs[w]) then VisitStep(s, s2, w) else s2 == Go(s, w, Pop).(items := s.items[t := Done]))
      || (w == 0 && s.active < s.n && s2 == Broadcast(s))
    case _ => false
  }

  ghost predicate AddRoot(s: State, s2: State, id: int) {
    s2 == s.(roots := s.roots.(ids := s.roots.ids + [id]), added := s.added + {id})
  }

  // ----- steps of worker 0 -----------------------------------------------------------------

  ghost predicate MainStep(s: State, s2: State)
    requires 0 in s.pcs
  {
    match s.pcs[0]
    case Out =>
      || (exists id :: AddRoot(s, s2, id))
      || s2 == Go(s, 0, Unlock(1)).(rootsOnly := true)
      || s2 == Go(s, 0, Unlock(1)).(rootsOnly := false)
    case Unlock(k) =>
      if k < s.n then s2 == Go(s, 0, Unlock(k + 1)).(locks := s.locks[k := Free]) else s2 == Go(s, 0, Unpark)
    case Unpark => s2 == Go(Broadcast(s), 0, Enter)
    case LockAll(k) =>
      if k < s.n then LockOf(s, k) == Free && s2 == Go(s, 0, LockAll(k + 1)).(locks := s.locks[k := ByMain])
      else s2 == Go(s, 0, Leave)
    case Should => s2 == Go(s, 0, if s.active != 1 then Pop else TryLock(1))
    case TryLock(k) =>
      if k < s.n then
        if LockOf(s, k) == Free then s2 == Go(s, 0, TryLock(k + 1)).(locks := s.locks[k := ByMain])
        else s2 == Go(s, 0, Unwind(k))
      else s2 == Go(s, 0, Scan(0))
    case Scan(k) =>
      if k < s.n then
        if DequeEmpty(s.items, VictimOf(s, 0)) then
          s2 == Go(s, 0, Scan(k + 1)).(victim := s.victim[0 := Following(s.n, VictimOf(s, 0))])
        else s2 == Go(s, 0, Unwind(s.n))
      else s2 == Go(s, 0, Leave)
    case Unwind(k) =>
      if k > 1 then s2 == Go(s, 0, Unwind(k - 1)).(locks := s.locks[k - 1 := Free]) else s2 == Go(s, 0, Pop)
    case Leave => s2 == Go(s, 0, Out).(active := s.active - 1, roots := RootList(0, [], map[]))
    case _ => false
  }

  // ----- steps of a helper -----------------------------------------------------------------

  ghost predicate HelperStep(s: State, s2: State, w: int)
    requires w in s.pcs
  {
    match s.pcs[w]
    case Asleep => s2 == Go(s, w, Blocked)   // spurious
    case Blocked => LockOf(s, w) == Free && s2 == Go(s, w, Check).(locks := s.locks[w := ByHelper])
    case Check =>
      if SeenBy(s, w) == s.epoch then s2 == Go(s, w, Asleep).(locks := s.locks[w := Free])
      else s2 == Go(s, w, Enter).(seen := s.seen[w := s.epoch])
    case Leave => s2 == Go(s, w, Park).(active := s.active - 1)
    case Park => s2 == Go(s, w, Asleep).(locks := s.locks[w := Free])
    case _ => false
  }

  ghost predicate Step(s: State, s2: State, w: int) {
    w in s.pcs && 0 in s.pcs
    && (TraceStep(s, s2, w) || (w == 0 && MainStep(s, s2)) || (w != 0 && HelperStep(s, s2, w)))
  }

  // ----- the invariant ---------------------------------------------------------------------

  /** The helper locks worker 0 holds at a place in its program. */
  predicate MainHolds(pc: Pc, i: int) {
    match pc
    case Out => true
    case Unlock(k) => i >= k
    case LockAll(k) => i < k
    case TryLock(k) => i < k
    case Scan(_) => true
    case Unwind(k) => i < k
    case Leave => true
    case _ => false
  }

  /** A helper out of its lock. */
  predicate Waits(pc: Pc) {
    pc.Blocked? || pc.Asleep?
  }

  predicate InTrace(pc: Pc) {
    !pc.Out? && !pc.Unlock? && !pc.Unpark? && !pc.Blocked? && !pc.Asleep? && !pc.Check? && !pc.Enter? && !pc.Park?
  }

  predicate MainOnly(pc: Pc) {
    || pc.Out? || pc.Unlock? || pc.Unpark? || pc.LockAll? || pc.Should? || pc.TryLock? || pc.Scan? || pc.Unwind?
  }

  predicate PastRoots(pc: Pc) {
    InTrace(pc) && !pc.Roots? && !pc.Root?
  }

  predicate MainPc(n: int, pc: Pc) {
    match pc
    case Blocked => false
    case Asleep => false
    case Check => false
    case Park => false
    case Unlock(k) => 1 <= k <= n
    case LockAll(k) => 1 <= k <= n
    case TryLock(k) => 1 <= k <= n
    case Scan(k) => 0 <= k <= n
    case Unwind(k) => 1 <= k <= n
    case _ => true
  }

  ghost predicate ShapeOk(n: int, pcs: map<int, Pc>) {
    && n >= 1 && (forall w :: w in pcs <==> 0 <= w < n)
    && (forall w | w in pcs :: w != 0 ==> !MainOnly(pcs[w]))
    && MainPc(n, pcs[0])
  }

  ghost predicate LocksOk(s: State)
    requires 0 in s.pcs
  {
    forall i | 1 <= i < s.n && i in s.pcs ::
      LockOf(s, i) == if MainHolds(s.pcs[0], i) then ByMain else if Waits(s.pcs[i]) then Free else ByHelper
  }

  /** Every lock worker 0 holds is one whose helper waits. */
  ghost predicate HeldMeansWaiting(n: int, pcs: map<int, Pc>) {
    0 in pcs && forall i | 1 <= i < n && i in pcs && MainHolds(pcs[0], i) :: Waits(pcs[i])
  }

  predicate HasMet(pc: Pc, x: int) {
    (pc.Root? || pc.Trace?) && pc.met == x
  }

  ghost predicate HandsOk(pcs: map<int, Pc>, items: map<int, Place>, roots: RootList) {
    && 0 !in items
    && (forall t | t in items && items[t].InHand? :: items[t].w in pcs && pcs[items[t].w].Trace? && pcs[items[t].w].t == t)
    && (forall t | t in items && items[t].InDeque? :: items[t].w in pcs)
    && (forall t | t in items && items[t].Met? :: items[t].w in pcs && HasMet(pcs[items[t].w], t))
    && (forall w | w in pcs && pcs[w].Trace? :: pcs[w].t in items && items[pcs[w].t] == InHand(w))
    && (forall w | w in pcs && (pcs[w].Trace? || pcs[w].Root?) && pcs[w].met != 0 ::
          pcs[w].met in items && items[pcs[w].met] == Met(w))
    && (forall r | r in roots.taken && roots.taken[r] != Done ::
          roots.taken[r].InHand? && roots.taken[r].w in pcs && pcs[roots.taken[r].w].Root? && pcs[roots.taken[r].w].r == r)
    && (forall w | w in pcs && pcs[w].Root? :: pcs[w].r in roots.taken && roots.taken[pcs[w].r] == InHand(w))
  }

  ghost predicate RootsOk(roots: RootList) {
    && roots.read >= 0
    && (forall r :: r in roots.taken <==> 0 <= r < roots.read && r < |roots.ids|)
  }

  /** The worker `j` places before `x` in the ring. */
  function Back(n: int, x: int, j: int): int {
    if x - j >= 0 then x - j else x - j + n
  }

  ghost predicate ScanOk(n: int, pc: Pc, rootsOnly: bool, items: map<int, Place>, at: int) {
    && 0 <= at < n
    && (pc.Scan? ==> !rootsOnly && forall j | 1 <= j <= pc.k :: DequeEmpty(items, Back(n, at, j)))
    && (pc.Pop? || pc.Steal? || pc.Trace? || pc.TryLock? || pc.Unwind? || pc.Should? ==> !rootsOnly)
    && (pc.LockAll? ==> rootsOnly)
    && (pc.Leave? && !rootsOnly ==> forall w | 0 <= w < n :: DequeEmpty(items, w))
  }

  ghost function Tracers(pcs: map<int, Pc>): set<int> {
    set w | w in pcs && InTrace(pcs[w])
  }

  /** Worker 0 leaves the roots when none is left to pop; between traces none has been popped. */
  ghost predicate RootsDone(s: State)
    requires 0 in s.pcs
  {
    && (PastRoots(s.pcs[0]) ==> s.roots.read >= |s.roots.ids|)
    && (s.pcs[0].Out? ==> s.roots.read == 0)
  }

  ghost predicate Inv(s: State) {
    && ShapeOk(s.n, s.pcs) && LocksOk(s) && HeldMeansWaiting(s.n, s.pcs)
    && HandsOk(s.pcs, s.items, s.roots) && RootsOk(s.roots)
    && RootsDone(s)
    && ScanOk(s.n, s.pcs[0], s.rootsOnly, s.items, VictimOf(s, 0))
    && s.active == |Tracers(s.pcs)|
  }

  lemma InitInv(s: State)
    requires Init(s)
    ensures Inv(s)
  {
    assert forall w :: w !in Tracers(s.pcs);
  }

  lemma Recount(pcs: map<int, Pc>, w: int, pc: Pc)
    requires w in pcs
    ensures |Tracers(pcs[w := pc])| == |Tracers(pcs)| - (if InTrace(pcs[w]) then 1 else 0) + (if InTrace(pc) then 1 else 0)
  {
    if InTrace(pc) {
      assert Tracers(pcs[w := pc]) == Tracers(pcs) + {w};
    } else {
      assert Tracers(pcs[w := pc]) == Tracers(pcs) - {w};
    }
  }

  // ----- every step keeps the invariant ----------------------------------------------------

  /** A helper inside its lock moves: worker 0 is neither scanning nor leaving. */
  lemma HelperMoves(s: State, s2: State, w: int, pc: Pc)
    requires Inv(s) && w in s.pcs && w != 0 && s2.pcs == s.pcs[w := pc]
    requires s2.n == s.n && s2.locks == s.locks && s2.rootsOnly == s.rootsOnly && VictimOf(s2, 0) == VictimOf(s, 0)
    requires !Waits(s.pcs[w]) && !Waits(pc) && !MainOnly(pc)
    requires HandsOk(s2.pcs, s2.items, s2.roots) && RootsOk(s2.roots)
    requires s2.roots.ids == s.roots.ids && s2.roots.read >= s.roots.read
    requires s2.active == s.active - (if InTrace(s.pcs[w]) then 1 else 0) + (if InTrace(pc) then 1 else 0)
    ensures Inv(s2)
  {
    hide HandsOk, RootsOk, DequeEmpty;
    Recount(s.pcs, w, pc);
    assert !MainHolds(s.pcs[0], w);
    hide InTrace;
  }

  /** Worker 0 moves without touching a lock. */
  lemma MainMoves(s: State, s2: State, pc: Pc)
    requires Inv(s) && s2.pcs == s.pcs[0 := pc] && s2.n == s.n && s2.locks == s.locks
    requires forall i | 1 <= i < s.n :: MainHolds(pc, i) == MainHolds(s.pcs[0], i)
    requires ShapeOk(s2.n, s2.pcs)
    requires HandsOk(s2.pcs, s2.items, s2.roots) && RootsOk(s2.roots) && RootsDone(s2)
    requires ScanOk(s2.n, pc, s2.rootsOnly, s2.items, VictimOf(s2, 0))
    requires s2.active == s.active - (if InTrace(s.pcs[0]) then 1 else 0) + (if InTrace(pc) then 1 else 0)
    ensures Inv(s2)
  {
    hide HandsOk, RootsOk, DequeEmpty, ScanOk, ShapeOk, MainHolds, RootsDone;
    assert 0 in s.pcs by { ShapeMain(s.n, s.pcs); }
    Recount(s.pcs, 0, pc);
    hide InTrace, Waits;
  }

  lemma ShapeMain(n: int, pcs: map<int, Pc>)
    requires ShapeOk(n, pcs)
    ensures 0 in pcs
  {
  }

  lemma ShapeMoves(n: int, pcs: map<int, Pc>, pc: Pc)
    requires ShapeOk(n, pcs) && MainPc(n, pc)
    ensures 0 in pcs && ShapeOk(n, pcs[0 := pc]) && MainPc(n, pcs[0])
  {
    hide MainPc;
  }

  // ----- what is in whose hands ------------------------------------------------------------

  predicate EmptyHands(pc: Pc) {
    !pc.Trace? && !pc.Root?
  }

  lemma HandsMove(pcs: map<int, Pc>, items: map<int, Place>, roots: RootList, w: int, pc: Pc)
    requires HandsOk(pcs, items, roots) && w in pcs && EmptyHands(pcs[w]) && EmptyHands(pc)
    ensures HandsOk(pcs[w := pc], items, roots)
  {
  }

  lemma HandsPush(pcs: map<int, Pc>, items: map<int, Place>, roots: RootList, w: int)
    requires HandsOk(pcs, items, roots) && w in pcs && (pcs[w].Root? || pcs[w].Trace?) && pcs[w].met != 0
    ensures HandsOk(pcs[w := Onward(pcs[w])], items[pcs[w].met := InDeque(w)], roots)
  {
  }

  lemma HandsMeet(pcs: map<int, Pc>, items: map<int, Place>, roots: RootList, w: int, x: int)
    requires HandsOk(pcs, items, roots) && w in pcs && (pcs[w].Root? || pcs[w].Trace?) && pcs[w].met == 0
    requires x != 0 && x !in items
    ensures HandsOk(pcs[w := Found(pcs[w], x)], items[x := Met(w)], roots)
  {
  }

  lemma HandsSkip(pcs: map<int, Pc>, items: map<int, Place>, roots: RootList, w: int)
    requires HandsOk(pcs, items, roots) && w in pcs && (pcs[w].Root? || pcs[w].Trace?) && pcs[w].met == 0
    ensures HandsOk(pcs[w := Onward(pcs[w])], items, roots)
  {
  }

  lemma HandsTake(pcs: map<int, Pc>, items: map<int, Place>, roots: RootList, w: int, t: int)
    requires HandsOk(pcs, items, roots) && w in pcs && EmptyHands(pcs[w]) && t in items && items[t].InDeque?
    ensures HandsOk(pcs[w := Trace(t, 0, 0)], items[t := InHand(w)], roots)
  {
  }

  lemma HandsDone(pcs: map<int, Pc>, items: map<int, Place>, roots: RootList, w: int, t: int)
    requires HandsOk(pcs, items, roots) && w in pcs && pcs[w].Trace? && pcs[w].t == t && pcs[w].met == 0
    ensures HandsOk(pcs[w := Pop], items[t := Done], roots)
  {
  }

  lemma HandsTakeRoot(pcs: map<int, Pc>, items: map<int, Place>, roots: RootList, w: int, r: int, q: RootList)
    requires HandsOk(pcs, items, roots) && w in pcs && EmptyHands(pcs[w]) && r !in roots.taken
    requires q.taken == roots.taken[r := InHand(w)]
    ensures HandsOk(pcs[w := Root(r, 0, 0)], items, q)
  {
  }

  lemma HandsDoneRoot(pcs: map<int, Pc>, items: map<int, Place>, roots: RootList, w: int, r: int, q: RootList)
    requires HandsOk(pcs, items, roots) && w in pcs && pcs[w].Root? && pcs[w].r == r && pcs[w].met == 0 && q.taken == roots.taken[r := Done]
    ensures HandsOk(pcs[w := Roots], items, q)
  {
  }

  /** A worker inside the trace moves on: what it needs to know, whoever it is. */
  lemma TraceMoves(s: State, s2: State, w: int, pc: Pc)
    requires Inv(s) && w in s.pcs && s2.pcs == s.pcs[w := pc] && s2.n == s.n && s2.locks == s.locks && s2.rootsOnly == s.rootsOnly
    requires w != 0 ==> VictimOf(s2, 0) == VictimOf(s, 0)
    requires w == 0 ==> 0 <= VictimOf(s2, 0) < s.n
    requires s.pcs[w].Enter? || s.pcs[w].Roots? || s.pcs[w].Root? || s.pcs[w].Pop? || s.pcs[w].Steal? || s.pcs[w].Trace?
    requires || pc.Roots? || pc.Root? || pc.Pop? || pc.Steal? || pc.Trace?
             || (w != 0 && pc.Leave?) || (w == 0 && pc == LockAll(1)) || (w == 0 && pc.Should?)
    requires w == 0 ==> (PastRoots(pc) ==> (s.rootsOnly <==> pc.LockAll?))
    requires w == 0 && PastRoots(pc) ==> s2.roots.read >= |s2.roots.ids|
    requires HandsOk(s2.pcs, s2.items, s2.roots) && RootsOk(s2.roots)
    requires s2.roots.ids == s.roots.ids && s2.roots.read >= s.roots.read
    requires s2.active == s.active + (if InTrace(s.pcs[w]) then 0 else 1)
    ensures Inv(s2)
  {
    hide HandsOk, RootsOk, DequeEmpty, LocksOk, HeldMeansWaiting;
    if w == 0 {
      MainMoves(s, s2, pc);
    } else {
      HelperMoves(s, s2, w, pc);
    }
  }

  lemma HandsOf(s: State)
    requires Inv(s)
    ensures HandsOk(s.pcs, s.items, s.roots)
  {
    hide HandsOk, RootsOk, ShapeOk, LocksOk, HeldMeansWaiting, ScanOk, Tracers, RootsDone;
  }

  lemma MetMarked(s: State, w: int)
    requires Inv(s) && w in s.pcs && (s.pcs[w].Root? || s.pcs[w].Trace?) && s.pcs[w].met != 0
    ensures s.pcs[w].met in s.items && s.items[s.pcs[w].met] == Met(w)
  {
    hide Inv;
    HandsOf(s);
  }

  /** A worker goes on with what it is visiting. */
  lemma VisitOn(s: State, s2: State, w: int, pc: Pc)
    requires Inv(s) && w in s.pcs && s2 == Go(s, w, pc).(items := s2.items)
    requires (s.pcs[w].Root? && pc.Root?) || (s.pcs[w].Trace? && pc.Trace?)
    requires HandsOk(s2.pcs, s2.items, s2.roots)
    ensures Inv(s2)
  {
    hide HandsOk, RootsOk, DequeEmpty, LocksOk, HeldMeansWaiting, ShapeOk, Tracers;
    TraceMoves(s, s2, w, pc);
  }

  lemma VisitKeeps(s: State, s2: State, w: int)
    requires Inv(s) && w in s.pcs && Visiting(s, s.pcs[w]) && VisitStep(s, s2, w)
    ensures Inv(s2)
  {
    hide Inv, HandsOk, RefsOf;
    HandsOf(s);
    var pc := s.pcs[w];
    if pc.met != 0 {
      HandsPush(s.pcs, s.items, s.roots, w);
      VisitOn(s, s2, w, Onward(pc));
    } else {
      var x := RefsOf(s.graph, s.roots.ids, pc)[pc.i];
      if x == 0 || x in s.items {
        HandsSkip(s.pcs, s.items, s.roots, w);
        VisitOn(s, s2, w, Onward(pc));
      } else {
        HandsMeet(s.pcs, s.items, s.roots, w, x);
        VisitOn(s, s2, w, Found(pc, x));
      }
    }
  }

  lemma TakeKeeps(s: State, s2: State, w: int, from: int)
    requires Inv(s) && w in s.pcs && Take(s, s2, w, from) && (s.pcs[w].Pop? || s.pcs[w].Steal?)
    ensures Inv(s2)
  {
    hide HandsOk, RootsOk, DequeEmpty, LocksOk, HeldMeansWaiting, ShapeOk;
    var t :| t in s.items && s.items[t] == InDeque(from) && s2 == Go(s, w, Trace(t, 0, 0)).(items := s.items[t := InHand(w)]);
    HandsTake(s.pcs, s.items, s.roots, w, t);
    TraceMoves(s, s2, w, Trace(t, 0, 0));
  }

  lemma PopRootKeeps(s: State, s2: State, w: int)
    requires Inv(s) && w in s.pcs && s.pcs[w].Roots? && TraceStep(s, s2, w)
    ensures Inv(s2)
  {
    hide HandsOk, DequeEmpty, LocksOk, HeldMeansWaiting, ShapeOk;
    var r := s.roots.read;
    if r < |s.roots.ids| {
      HandsTakeRoot(s.pcs, s.items, s.roots, w, r, s2.roots);
      TraceMoves(s, s2, w, Root(r, 0, 0));
    } else {
      var pc := if !s.rootsOnly then Pop else if w == 0 then LockAll(1) else Leave;
      HandsMove(s.pcs, s.items, s.roots, w, pc);
      SameTaken(s2.pcs, s.items, s.roots, s2.roots);
      TraceMoves(s, s2, w, pc);
    }
  }

  lemma SameTaken(pcs: map<int, Pc>, items: map<int, Place>, roots: RootList, q: RootList)
    requires HandsOk(pcs, items, roots) && q.taken == roots.taken
    ensures HandsOk(pcs, items, q)
  {
  }

  /** Waking helpers gives none of them its lock. */
  lemma BroadcastKeeps(s: State, s2: State)
    requires Inv(s) && s2 == Broadcast(s)
    ensures Inv(s2)
  {
    hide DequeEmpty, ScanOk, RootsOk;
    forall w ensures w in Tracers(s.pcs) <==> w in Tracers(s2.pcs) {}
    assert Tracers(s.pcs) == Tracers(s2.pcs);
    assert s2.pcs[0] == s.pcs[0];
    BroadcastHands(s, s2);
    hide HandsOk, Tracers, InTrace, PastRoots;
  }

  lemma BroadcastHands(s: State, s2: State)
    requires HandsOk(s.pcs, s.items, s.roots) && s2 == Broadcast(s)
    ensures HandsOk(s2.pcs, s2.items, s2.roots)
  {
  }

  lemma EnterKeeps(s: State, s2: State, w: int)
    requires Inv(s) && w in s.pcs && s.pcs[w].Enter? && TraceStep(s, s2, w)
    ensures Inv(s2)
  {
    hide HandsOk, DequeEmpty, LocksOk, HeldMeansWaiting, ShapeOk, Tracers, RootsOk;
    HandsMove(s.pcs, s.items, s.roots, w, Roots);
    TraceMoves(s, s2, w, Roots);
  }

  lemma RootKeeps(s: State, s2: State, w: int)
    requires Inv(s) && w in s.pcs && s.pcs[w].Root? && TraceStep(s, s2, w)
    ensures Inv(s2)
  {
    hide HandsOk, DequeEmpty, LocksOk, HeldMeansWaiting, ShapeOk, VisitStep, Tracers, RootsOk, RefsOf;
    var r := s.pcs[w].r;
    if Visiting(s, s.pcs[w]) {
      VisitKeeps(s, s2, w);
    } else {
      HandsDoneRoot(s.pcs, s.items, s.roots, w, r, s2.roots);
      DoneRootsOk(s.pcs, s.items, s.roots, w, r);
      TraceMoves(s, s2, w, Roots);
    }
  }

  lemma PopKeeps(s: State, s2: State, w: int)
    requires Inv(s) && w in s.pcs && s.pcs[w].Pop? && TraceStep(s, s2, w)
    ensures Inv(s2)
  {
    hide HandsOk, DequeEmpty, LocksOk, HeldMeansWaiting, ShapeOk, Take, Tracers, RootsOk;
    if DequeEmpty(s.items, w) {
      HandsMove(s.pcs, s.items, s.roots, w, Steal(0));
      TraceMoves(s, s2, w, Steal(0));
    } else {
      TakeKeeps(s, s2, w, w);
    }
  }

  lemma TraceItemKeeps(s: State, s2: State, w: int)
    requires Inv(s) && w in s.pcs && s.pcs[w].Trace? && TraceStep(s, s2, w)
    ensures Inv(s2)
  {
    hide HandsOk, DequeEmpty, LocksOk, HeldMeansWaiting, ShapeOk, VisitStep, Broadcast, Tracers, RootsOk, RefsOf;
    var t := s.pcs[w].t;
    if w == 0 && s2 == Broadcast(s) {
      BroadcastKeeps(s, s2);
    } else if Visiting(s, s.pcs[w]) {
      VisitKeeps(s, s2, w);
    } else {
      HandsDone(s.pcs, s.items, s.roots, w, t);
      TraceMoves(s, s2, w, Pop);
    }
  }

  lemma StealKeeps(s: State, s2: State, w: int)
    requires Inv(s) && w in s.pcs && s.pcs[w].Steal? && TraceStep(s, s2, w)
    ensures Inv(s2)
  {
    hide HandsOk, DequeEmpty, LocksOk, HeldMeansWaiting, ShapeOk, ScanOk, Take, Tracers, RootsOk;
    var k := s.pcs[w].k;
    if k < s.n && Take(s, s2, w, VictimOf(s, w)) {
      TakeKeeps(s, s2, w, VictimOf(s, w));
    } else {
      StealFailsKeeps(s, s2, w, k);
    }
  }

  lemma TraceStepKeeps(s: State, s2: State, w: int)
    requires Inv(s) && w in s.pcs && TraceStep(s, s2, w)
    ensures Inv(s2)
  {
    hide Inv, Visiting, VisitStep, Take, Broadcast, Go, DequeEmpty, VictimOf, Following;
    match s.pcs[w]
    case Enter => EnterKeeps(s, s2, w);
    case Roots => PopRootKeeps(s, s2, w);
    case Root(_, _, _) => RootKeeps(s, s2, w);
    case Pop => PopKeeps(s, s2, w);
    case Steal(_) => StealKeeps(s, s2, w);
    case Trace(_, _, _) => TraceItemKeeps(s, s2, w);
    case _ =>
  }

  lemma DoneRootsOk(pcs: map<int, Pc>, items: map<int, Place>, roots: RootList, w: int, r: int)
    requires HandsOk(pcs, items, roots) && RootsOk(roots) && w in pcs && pcs[w].Root? && pcs[w].r == r
    ensures RootsOk(roots.(taken := roots.taken[r := Done]))
  {
  }

  lemma StealFailsKeeps(s: State, s2: State, w: int, k: int)
    requires Inv(s) && w in s.pcs && s.pcs[w] == Steal(k) && TraceStep(s, s2, w)
    requires !(k < s.n && Take(s, s2, w, VictimOf(s, w)))
    ensures Inv(s2)
  {
    hide HandsOk, DequeEmpty, LocksOk, HeldMeansWaiting, ShapeOk, Take, RootsOk;
    HandsMove(s.pcs, s.items, s.roots, w, s2.pcs[w]);
    TraceMoves(s, s2, w, s2.pcs[w]);
  }

  /** Worker 0 takes a helper's lock, or gives it back. */
  lemma MainLocks(s: State, s2: State, pc: Pc, k: int, v: Lock)
    requires Inv(s) && 1 <= k < s.n && s2 == Go(s, 0, pc).(locks := s.locks[k := v])
    requires v == if MainHolds(pc, k) then ByMain else Free
    requires MainHolds(pc, k) ==> LockOf(s, k) == Free && !MainHolds(s.pcs[0], k)
    requires !MainHolds(pc, k) ==> MainHolds(s.pcs[0], k)
    requires forall i | 1 <= i < s.n && i != k :: MainHolds(pc, i) == MainHolds(s.pcs[0], i)
    requires MainPc(s.n, pc) && RootsDone(s2) && EmptyHands(pc) && EmptyHands(s.pcs[0])
    requires ScanOk(s2.n, pc, s2.rootsOnly, s2.items, VictimOf(s2, 0))
    requires InTrace(pc) == InTrace(s.pcs[0])
    ensures Inv(s2)
  {
    hide HandsOk, RootsOk, DequeEmpty, ScanOk, MainHolds, RootsDone, EmptyHands, MainPc;
    Recount(s.pcs, 0, pc);
    HandsMove(s.pcs, s.items, s.roots, 0, pc);
    hide InTrace;
  }

  /** Worker 0 moves, its hands empty, the shared state untouched. */
  lemma MainQuiet(s: State, s2: State, pc: Pc)
    requires Inv(s) && s2 == Go(s, 0, pc).(victim := s2.victim)
    requires forall i | 1 <= i < s.n :: MainHolds(pc, i) == MainHolds(s.pcs[0], i)
    requires MainPc(s.n, pc) && RootsDone(s2) && EmptyHands(pc) && EmptyHands(s.pcs[0])
    requires ScanOk(s2.n, pc, s2.rootsOnly, s2.items, VictimOf(s2, 0))
    requires InTrace(pc) == InTrace(s.pcs[0])
    ensures Inv(s2)
  {
    hide HandsOk, RootsOk, DequeEmpty, ScanOk, MainHolds, RootsDone, LocksOk, HeldMeansWaiting, ShapeOk, InTrace, EmptyHands;
    ShapeMoves(s.n, s.pcs, pc);
    HandsMove(s.pcs, s.items, s.roots, 0, pc);
    MainMoves(s, s2, pc);
  }

  /** At the end of the scan every deque has been seen empty, and no lock was given up meanwhile. */
  lemma ScanCovers(n: int, items: map<int, Place>, at: int)
    requires 0 <= at < n && forall j | 1 <= j <= n :: DequeEmpty(items, Back(n, at, j))
    ensures forall w | 0 <= w < n :: DequeEmpty(items, w)
  {
    hide DequeEmpty;
    forall w | 0 <= w < n ensures DequeEmpty(items, w) {
      var j := if at > w then at - w else at - w + n;
      assert Back(n, at, j) == w;
    }
  }

  lemma ScanStep(n: int, items: map<int, Place>, at: int, k: int)
    requires 0 <= at < n && 0 <= k < n && forall j | 1 <= j <= k :: DequeEmpty(items, Back(n, at, j))
    requires DequeEmpty(items, at)
    ensures 0 <= Following(n, at) < n
    ensures forall j | 1 <= j <= k + 1 :: DequeEmpty(items, Back(n, Following(n, at), j))
  {
    hide DequeEmpty;
    forall j | 1 <= j <= k + 1 ensures DequeEmpty(items, Back(n, Following(n, at), j)) {
      if j == 1 {
        assert Back(n, Following(n, at), 1) == at;
      } else {
        assert Back(n, Following(n, at), j) == Back(n, at, j - 1);
      }
    }
  }

  lemma ScanOn(s: State, s2: State, k: int)
    requires Inv(s) && s.pcs[0] == Scan(k) && MainStep(s, s2) && k < s.n && DequeEmpty(s.items, VictimOf(s, 0))
    ensures Inv(s2)
  {
    hide HandsOk, RootsOk, DequeEmpty, LocksOk, HeldMeansWaiting, Back;
    ScanStep(s.n, s.items, VictimOf(s, 0), k);
    MainQuiet(s, s2, Scan(k + 1));
  }

  lemma ScanKeeps(s: State, s2: State, k: int)
    requires Inv(s) && s.pcs[0] == Scan(k) && MainStep(s, s2)
    ensures Inv(s2)
  {
    hide HandsOk, RootsOk, DequeEmpty, LocksOk, HeldMeansWaiting, Back;
    if k < s.n {
      if DequeEmpty(s.items, VictimOf(s, 0)) { ScanOn(s, s2, k); } else { MainQuiet(s, s2, Unwind(s.n)); }
    } else {
      ScanCovers(s.n, s.items, VictimOf(s, 0));
      MainQuiet(s, s2, Leave);
    }
  }

  lemma AddRootKeeps(s: State, s2: State, id: int)
    requires Inv(s) && s.pcs[0] == Out && AddRoot(s, s2, id)
    ensures Inv(s2)
  {
    hide HandsOk, DequeEmpty, LocksOk, HeldMeansWaiting, Tracers;
    SameTaken(s.pcs, s.items, s.roots, s2.roots);
    assert s2.pcs == s.pcs[0 := Out];
    MainMoves(s, s2, Out);
  }

  lemma BeginKeeps(s: State, s2: State)
    requires Inv(s) && s.pcs[0] == Out && s2 == Go(s, 0, Unlock(1)).(rootsOnly := s2.rootsOnly)
    ensures Inv(s2)
  {
    hide HandsOk, RootsOk, DequeEmpty, LocksOk, HeldMeansWaiting, Tracers;
    HandsMove(s.pcs, s.items, s.roots, 0, Unlock(1));
    MainMoves(s, s2, Unlock(1));
  }

  lemma OutKeeps(s: State, s2: State)
    requires 0 in s.pcs && Inv(s) && s.pcs[0] == Out && MainStep(s, s2)
    ensures Inv(s2)
  {
    hide Inv, Go, AddRoot;
    if id :| AddRoot(s, s2, id) { AddRootKeeps(s, s2, id); } else { BeginKeeps(s, s2); }
  }

  lemma LeaveKeeps(s: State, s2: State)
    requires Inv(s) && s.pcs[0] == Leave && MainStep(s, s2)
    ensures Inv(s2)
  {
    hide HandsOk, DequeEmpty, LocksOk, HeldMeansWaiting, Tracers;
    HandsMove(s.pcs, s.items, s.roots, 0, Out);
    NoneAtRoots(s);
    HandsEmptied(s2.pcs, s.items, s.roots, s2.roots);
    MainMoves(s, s2, Out);
  }

  lemma NoneAtRoots(s: State)
    requires Inv(s) && s.pcs[0] == Leave
    ensures forall w | w in s.pcs :: !s.pcs[w].Root?
  {
    hide HandsOk, DequeEmpty, LocksOk, Tracers, ScanOk, RootsOk;
  }

  lemma HandsEmptied(pcs: map<int, Pc>, items: map<int, Place>, roots: RootList, q: RootList)
    requires HandsOk(pcs, items, roots) && q.taken == map[] && forall w | w in pcs :: !pcs[w].Root?
    ensures HandsOk(pcs, items, q)
  {
  }

  lemma UnparkKeeps(s: State, s2: State)
    requires Inv(s) && s.pcs[0] == Unpark && s2 == Go(Broadcast(s), 0, Enter)
    ensures Inv(s2)
  {
    var s1 := Broadcast(s);
    BroadcastKeeps(s, s1);
    hide HandsOk, RootsOk, DequeEmpty, LocksOk, HeldMeansWaiting;
    assert s1.pcs[0] == Unpark;
    MainQuiet(s1, s2, Enter);
  }

  lemma UnlockGives(s: State, s2: State, k: int)
    requires Inv(s) && s.pcs[0] == Unlock(k) && k < s.n && s2 == Go(s, 0, Unlock(k + 1)).(locks := s.locks[k := Free])
    ensures Inv(s2)
  {
    hide HandsOk, RootsOk, DequeEmpty, LocksOk, HeldMeansWaiting, Tracers;
    MainLocks(s, s2, Unlock(k + 1), k, Free);
  }

  lemma UnlockKeeps(s: State, s2: State)
    requires Inv(s) && s.pcs[0].Unlock? && MainStep(s, s2)
    ensures Inv(s2)
  {
    hide HandsOk, RootsOk, DequeEmpty, LocksOk, HeldMeansWaiting, Tracers;
    var k := s.pcs[0].k;
    if k < s.n { UnlockGives(s, s2, k); } else { MainQuiet(s, s2, Unpark); }
  }

  lemma LockAllKeeps(s: State, s2: State)
    requires Inv(s) && s.pcs[0].LockAll? && MainStep(s, s2)
    ensures Inv(s2)
  {
    hide HandsOk, RootsOk, DequeEmpty, LocksOk, HeldMeansWaiting, Tracers;
    var k := s.pcs[0].k;
    if k < s.n { MainLocks(s, s2, LockAll(k + 1), k, ByMain); } else { MainQuiet(s, s2, Leave); }
  }

  lemma ShouldKeeps(s: State, s2: State)
    requires Inv(s) && s.pcs[0].Should? && MainStep(s, s2)
    ensures Inv(s2)
  {
    hide HandsOk, RootsOk, DequeEmpty, LocksOk, HeldMeansWaiting, Tracers;
    MainQuiet(s, s2, if s.active != 1 then Pop else TryLock(1));
  }

  lemma TryLockTakes(s: State, s2: State, k: int)
    requires Inv(s) && s.pcs[0] == TryLock(k) && k < s.n && LockOf(s, k) == Free
    requires s2 == Go(s, 0, TryLock(k + 1)).(locks := s.locks[k := ByMain])
    ensures Inv(s2)
  {
    hide HandsOk, RootsOk, DequeEmpty, LocksOk, HeldMeansWaiting, Tracers;
    MainLocks(s, s2, TryLock(k + 1), k, ByMain);
  }

  lemma TryLockEnds(s: State, s2: State, k: int)
    requires Inv(s) && s.pcs[0] == TryLock(k) && s2 == Go(s, 0, if k < s.n then Unwind(k) else Scan(0))
    ensures Inv(s2)
  {
    hide HandsOk, RootsOk, DequeEmpty, LocksOk, HeldMeansWaiting, Tracers;
    MainQuiet(s, s2, if k < s.n then Unwind(k) else Scan(0));
  }

  lemma TryLockKeeps(s: State, s2: State)
    requires 0 in s.pcs && Inv(s) && s.pcs[0].TryLock? && MainStep(s, s2)
    ensures Inv(s2)
  {
    hide Inv, LockOf;
    var k := s.pcs[0].k;
    if k < s.n && LockOf(s, k) == Free { TryLockTakes(s, s2, k); } else { TryLockEnds(s, s2, k); }
  }

  lemma UnwindKeeps(s: State, s2: State)
    requires Inv(s) && s.pcs[0].Unwind? && MainStep(s, s2)
    ensures Inv(s2)
  {
    hide HandsOk, RootsOk, DequeEmpty, LocksOk, HeldMeansWaiting, Tracers;
    var k := s.pcs[0].k;
    if k > 1 { MainLocks(s, s2, Unwind(k - 1), k - 1, Free); } else { MainQuiet(s, s2, Pop); }
  }

  lemma MainStepKeeps(s: State, s2: State)
    requires 0 in s.pcs && Inv(s) && MainStep(s, s2)
    ensures Inv(s2)
  {
    hide Inv, Broadcast, Go, DequeEmpty, VictimOf, LockOf, Following;
    match s.pcs[0]
    case Out => OutKeeps(s, s2);
    case Unlock(_) => UnlockKeeps(s, s2);
    case Unpark => UnparkKeeps(s, s2);
    case LockAll(_) => LockAllKeeps(s, s2);
    case Should => ShouldKeeps(s, s2);
    case TryLock(_) => TryLockKeeps(s, s2);
    case Scan(k) => ScanKeeps(s, s2, k);
    case Unwind(_) => UnwindKeeps(s, s2);
    case Leave => LeaveKeeps(s, s2);
    case _ =>
  }

  // ----- helpers ---------------------------------------------------------------------------

  lemma LockElsewhere(s: State, s2: State, w: int, v: Lock, i: int)
    requires s2.locks == s.locks[w := v]
    ensures LockOf(s2, i) == if i == w then v else LockOf(s, i)
  {
  }

  /** A helper takes or gives back its lock. */
  lemma HelperLocks(s: State, s2: State, w: int, pc: Pc, v: Lock)
    requires Inv(s) && w in s.pcs && w != 0 && s2.pcs == s.pcs[w := pc] && s2.locks == s.locks[w := v]
    requires s2.n == s.n && s2.rootsOnly == s.rootsOnly && s2.roots == s.roots && s2.items == s.items && s2.victim == s.victim
    requires Waits(pc) != Waits(s.pcs[w]) && v == if Waits(pc) then Free else ByHelper
    requires !Waits(pc) ==> LockOf(s, w) == Free
    requires EmptyHands(pc) && EmptyHands(s.pcs[w]) && !MainOnly(pc)
    requires s2.active == s.active - (if InTrace(s.pcs[w]) then 1 else 0) + (if InTrace(pc) then 1 else 0)
    ensures Inv(s2)
  {
    hide RootsOk, DequeEmpty, ScanOk, HandsOk, RootsDone, MainHolds, Tracers, EmptyHands, LockOf;
    HandsMove(s.pcs, s.items, s.roots, w, pc);
    Recount(s.pcs, w, pc);
    assert s2.pcs[0] == s.pcs[0];
    assert VictimOf(s2, 0) == VictimOf(s, 0);
    RootsDoneSame(s, s2);
    hide InTrace, MainOnly, MainPc;
    forall i | 1 <= i < s2.n && i in s2.pcs
      ensures LockOf(s2, i) == if MainHolds(s2.pcs[0], i) then ByMain else if Waits(s2.pcs[i]) then Free else ByHelper
    {
      LockElsewhere(s, s2, w, v, i);
    }
  }

  lemma WokenKeeps(s: State, s2: State, w: int)
    requires Inv(s) && w in s.pcs && w != 0 && s.pcs[w].Asleep? && s2 == Go(s, w, Blocked)
    ensures Inv(s2)
  {
    hide RootsOk, DequeEmpty, ScanOk, HandsOk, RootsDone, MainHolds, Tracers, LockOf;
    HandsMove(s.pcs, s.items, s.roots, w, Blocked);
    Recount(s.pcs, w, Blocked);
    assert s2.pcs[0] == s.pcs[0];
    assert VictimOf(s2, 0) == VictimOf(s, 0);
    RootsDoneSame(s, s2);
    forall i | 1 <= i < s2.n && i in s2.pcs ensures LockOf(s2, i) == LockOf(s, i) { SameLock(s, s2, i); }
    hide InTrace, MainOnly, MainPc;
  }

  lemma SameLock(s: State, s2: State, i: int)
    requires s2.locks == s.locks
    ensures LockOf(s2, i) == LockOf(s, i)
  {
  }

  lemma HelperStepKeeps(s: State, s2: State, w: int)
    requires Inv(s) && w in s.pcs && w != 0 && HelperStep(s, s2, w)
    ensures Inv(s2)
  {
    hide Inv;
    match s.pcs[w]
    case Asleep => WokenKeeps(s, s2, w);
    case Blocked => HelperLocks(s, s2, w, Check, ByHelper);
    case Check => CheckKeeps(s, s2, w);
    case Leave => LeftKeeps(s, s2, w);
    case Park => HelperLocks(s, s2, w, Asleep, Free);
    case _ =>
  }

  lemma LeftKeeps(s: State, s2: State, w: int)
    requires Inv(s) && w in s.pcs && w != 0 && s.pcs[w].Leave? && HelperStep(s, s2, w)
    ensures Inv(s2)
  {
    hide RootsOk, DequeEmpty, ScanOk, HandsOk, RootsDone, LocksOk, HeldMeansWaiting, ShapeOk, Tracers;
    HandsMove(s.pcs, s.items, s.roots, w, Park);
    HelperMoves(s, s2, w, Park);
  }

  lemma CheckKeeps(s: State, s2: State, w: int)
    requires Inv(s) && w in s.pcs && w != 0 && s.pcs[w].Check? && HelperStep(s, s2, w)
    ensures Inv(s2)
  {
    hide RootsOk, DequeEmpty, ScanOk, HandsOk, RootsDone, LocksOk, HeldMeansWaiting, ShapeOk, Tracers;
    if SeenBy(s, w) == s.epoch {
      HelperLocks(s, s2, w, Asleep, Free);
    } else {
      HandsMove(s.pcs, s.items, s.roots, w, Enter);
      HelperMoves(s, s2, w, Enter);
    }
  }

  lemma RootsDoneSame(s: State, s2: State)
    requires 0 in s.pcs && 0 in s2.pcs && s2.pcs[0] == s.pcs[0] && s2.roots == s.roots && RootsDone(s)
    ensures RootsDone(s2)
  {
  }

  lemma StepKeepsInv(s: State, s2: State, w: int)
    requires Inv(s) && Step(s, s2, w)
    ensures Inv(s2)
  {
    hide Inv, TraceStep, MainStep, HelperStep;
    if TraceStep(s, s2, w) {
      TraceStepKeeps(s, s2, w);
    } else if w == 0 {
      MainStepKeeps(s, s2);
    } else {
      HelperStepKeeps(s, s2, w);
    }
  }

  // ----- what every run keeps --------------------------------------------------------------

  ghost predicate Next(s: State, s2: State) {
    exists w :: Step(s, s2, w)
  }

  ghost predicate Run(run: seq<State>) {
    && |run| > 0 && Init(run[0])
    && forall i | 0 <= i < |run| - 1 :: Next(run[i], run[i + 1])
  }

  lemma {:induction false} RunKeepsInv(run: seq<State>, i: nat)
    requires Run(run) && i < |run|
    ensures Inv(run[i])
  {
    hide Inv, Init, Step;
    if i == 0 {
      InitInv(run[0]);
    } else {
      RunKeepsInv(run, i - 1);
      var w :| Step(run[i - 1], run[i], w);
      StepKeepsInv(run[i - 1], run[i], w);
    }
  }

  /** When worker 0 leaves a trace it holds every helper's lock and every helper waits; every root has
      been traced; and after a full trace so has every reference ever pushed, so all deques are empty. */
  lemma TraceIsOver(run: seq<State>, i: nat)
    requires Run(run) && i < |run| && 0 in run[i].pcs && run[i].pcs[0] == Leave
    ensures forall w | w in run[i].pcs && w != 0 :: Waits(run[i].pcs[w]) && LockOf(run[i], w) == ByMain
    ensures forall r | 0 <= r < |run[i].roots.ids| :: r in run[i].roots.taken && run[i].roots.taken[r] == Done
    ensures !run[i].rootsOnly ==> forall t | t in run[i].items :: run[i].items[t] == Done
    ensures run[i].active == 1
  {
    var s := run[i];
    RunKeepsInv(run, i);
    LeaveHolds(s);
    hide LocksOk, HeldMeansWaiting, RootsOk;
    forall r | 0 <= r < |s.roots.ids| ensures r in s.roots.taken && s.roots.taken[r] == Done {
      RootTaken(s, r);
    }
    forall t | t in s.items && !s.rootsOnly ensures s.items[t] == Done {
      ItemDone(s, t);
    }
    forall w ensures w in Tracers(s.pcs) <==> w == 0 {}
    assert Tracers(s.pcs) == {0};
  }

  lemma LeaveHolds(s: State)
    requires Inv(s) && (s.pcs[0] == Leave || s.pcs[0] == Out)
    ensures forall w | w in s.pcs && w != 0 :: Waits(s.pcs[w]) && LockOf(s, w) == ByMain
  {
    hide HandsOk, ScanOk, RootsOk, Tracers, Waits;
  }

  lemma RootTaken(s: State, r: int)
    requires Inv(s) && s.pcs[0] == Leave && 0 <= r < |s.roots.ids|
    requires forall w | w in s.pcs && w != 0 :: Waits(s.pcs[w])
    ensures r in s.roots.taken && s.roots.taken[r] == Done
  {
    hide ScanOk, LocksOk, Tracers;
  }

  lemma ItemDone(s: State, t: int)
    requires Inv(s) && s.pcs[0] == Leave && !s.rootsOnly && t in s.items
    requires forall w | w in s.pcs && w != 0 :: Waits(s.pcs[w])
    ensures s.items[t] == Done
  {
    hide LocksOk, Tracers, RootsOk;
    assert s.items[t].InDeque? ==> DequeEmpty(s.items, s.items[t].w);
  }

  /** Between traces nobody is active, and no helper can become so: worker 0 has its lock. */
  lemma BetweenTraces(run: seq<State>, i: nat)
    requires Run(run) && i < |run| && 0 in run[i].pcs && run[i].pcs[0] == Out
    ensures run[i].active == 0
    ensures forall w | w in run[i].pcs && w != 0 :: Waits(run[i].pcs[w]) && LockOf(run[i], w) == ByMain
  {
    var s := run[i];
    RunKeepsInv(run, i);
    LeaveHolds(s);
    hide LocksOk, HeldMeansWaiting, RootsOk, ScanOk, HandsOk;
    assert forall w :: w !in Tracers(s.pcs);
  }

  /** How an object may move: marked, pushed by the worker that marked it, taken from a deque into a
      worker's hands, or done by that worker. */
  ghost predicate Moves(items: map<int, Place>, t: int, p: Place, w: int) {
    || (t !in items && p == Met(w))
    || (t in items && items[t] == Met(w) && p == InDeque(w))
    || (t in items && items[t].InDeque? && p == InHand(w))
    || (t in items && items[t] == InHand(w) && p == Done)
  }

  /** A marked object is in exactly one place, and a step moves at most one of them one place on. */
  lemma ItemsMoveOn(s: State, s2: State, w: int)
    requires Inv(s) && Step(s, s2, w)
    ensures s2.items == s.items || exists t, p :: Moves(s.items, t, p, w) && s2.items == s.items[t := p]
  {
    hide Inv, TraceStep, MainStep, HelperStep, Moves;
    if TraceStep(s, s2, w) {
      TraceItems(s, s2, w);
    } else if w == 0 {
      MainItems(s, s2);
    } else {
      HelperItems(s, s2, w);
    }
  }

  lemma MainItems(s: State, s2: State)
    requires 0 in s.pcs && MainStep(s, s2)
    ensures s2.items == s.items
  {
    hide Go, Broadcast, DequeEmpty, VictimOf, LockOf, Following;
  }

  lemma HelperItems(s: State, s2: State, w: int)
    requires w in s.pcs && HelperStep(s, s2, w)
    ensures s2.items == s.items
  {
    hide Go, LockOf, SeenBy;
  }

  lemma TraceItems(s: State, s2: State, w: int)
    requires Inv(s) && w in s.pcs && TraceStep(s, s2, w)
    ensures s2.items == s.items || exists t, p :: Moves(s.items, t, p, w) && s2.items == s.items[t := p]
  {
    hide Go, Broadcast, DequeEmpty, VictimOf, Following, Inv, Visiting, VisitStep, Take, Moves;
    match s.pcs[w]
    case Root(_, _, _) => if Visiting(s, s.pcs[w]) { VisitItems(s, s2, w); }
    case Pop => if Take(s, s2, w, w) { TakeItems(s, s2, w, w); }
    case Steal(_) => if Take(s, s2, w, VictimOf(s, w)) { TakeItems(s, s2, w, VictimOf(s, w)); }
    case Trace(t, _, _) =>
      if s2.items == s.items {
      } else if Visiting(s, s.pcs[w]) {
        VisitItems(s, s2, w);
      } else {
        InMyHand(s, w);
        assert Moves(s.items, t, Done, w) && s2.items == s.items[t := Done];
      }
    case _ =>
  }

  lemma VisitItems(s: State, s2: State, w: int)
    requires Inv(s) && w in s.pcs && Visiting(s, s.pcs[w]) && VisitStep(s, s2, w)
    ensures s2.items == s.items || exists t, p :: Moves(s.items, t, p, w) && s2.items == s.items[t := p]
  {
    hide LocksOk, HeldMeansWaiting, RootsOk, ScanOk, Tracers, RootsDone, RefsOf, Go;
    var pc := s.pcs[w];
    if pc.met != 0 {
      assert Moves(s.items, pc.met, InDeque(w), w);
    } else {
      var x := RefsOf(s.graph, s.roots.ids, pc)[pc.i];
      if x != 0 && x !in s.items { assert Moves(s.items, x, Met(w), w); }
    }
  }

  lemma InMyHand(s: State, w: int)
    requires Inv(s) && w in s.pcs && s.pcs[w].Trace?
    ensures Moves(s.items, s.pcs[w].t, Done, w)
  {
    hide LocksOk, HeldMeansWaiting, RootsOk, ScanOk, Tracers, RootsDone;
  }

  lemma TakeItems(s: State, s2: State, w: int, from: int)
    requires Take(s, s2, w, from)
    ensures exists t, p :: Moves(s.items, t, p, w) && s2.items == s.items[t := p]
  {
    hide Go;
    var t :| t in s.items && s.items[t] == InDeque(from) && s2 == Go(s, w, Trace(t, 0, 0)).(items := s.items[t := InHand(w)]);
    assert Moves(s.items, t, InHand(w), w);
  }

  /** A root is popped into a worker's hands and done by that worker. */
  ghost predicate RootMoves(taken: map<int, Place>, r: int, p: Place, w: int) {
    || (r !in taken && p == InHand(w))
    || (r in taken && taken[r] == InHand(w) && p == Done)
  }

  /** So it is with the roots, until worker 0 leaves the trace and empties their list. */
  lemma RootsMoveOn(s: State, s2: State, w: int)
    requires Inv(s) && Step(s, s2, w)
    ensures s2.roots.taken == s.roots.taken || (w == 0 && s.pcs[0].Leave? && 0 in s2.pcs && s2.pcs[0].Out?)
      || exists r, p :: RootMoves(s.roots.taken, r, p, w) && s2.roots.taken == s.roots.taken[r := p]
  {
    hide Inv, TraceStep, MainStep, HelperStep, RootMoves;
    if TraceStep(s, s2, w) {
      TraceRoots(s, s2, w);
    } else if w == 0 {
      MainRoots(s, s2);
    } else {
      HelperRoots(s, s2, w);
    }
  }

  lemma MainRoots(s: State, s2: State)
    requires 0 in s.pcs && MainStep(s, s2)
    ensures s2.roots.taken == s.roots.taken || (s.pcs[0].Leave? && 0 in s2.pcs && s2.pcs[0].Out?)
  {
    hide Go, MainStep;
    if s.pcs[0].Leave? { LeaveOut(s, s2); } else { MainTaken(s, s2); }
  }

  lemma LeaveOut(s: State, s2: State)
    requires 0 in s.pcs && MainStep(s, s2) && s.pcs[0].Leave?
    ensures 0 in s2.pcs && s2.pcs[0].Out?
  {
  }

  lemma MainTaken(s: State, s2: State)
    requires 0 in s.pcs && MainStep(s, s2) && !s.pcs[0].Leave?
    ensures s2.roots.taken == s.roots.taken
  {
    hide Go, Broadcast, DequeEmpty, VictimOf, LockOf, Following, AddRoot;
    match s.pcs[0] {
      case Out => if id :| AddRoot(s, s2, id) { AddedTaken(s, s2, id); }
      case Unlock(_) => assert s2.roots == s.roots;
      case Unpark => assert s2.roots == s.roots;
      case LockAll(_) => assert s2.roots == s.roots;
      case Should => assert s2.roots == s.roots;
      case TryLock(_) => assert s2.roots == s.roots;
      case Scan(_) => assert s2.roots == s.roots;
      case Unwind(_) => assert s2.roots == s.roots;
      case _ =>
    }
  }

  lemma AddedTaken(s: State, s2: State, id: int)
    requires AddRoot(s, s2, id)
    ensures s2.roots.taken == s.roots.taken
  {
  }

  lemma HelperRoots(s: State, s2: State, w: int)
    requires w in s.pcs && HelperStep(s, s2, w)
    ensures s2.roots == s.roots
  {
    hide LockOf, SeenBy;
  }

  lemma VisitRoots(s: State, s2: State, w: int)
    requires w in s.pcs && Visiting(s, s.pcs[w]) && VisitStep(s, s2, w)
    ensures s2.roots == s.roots
  {
    hide RefsOf;
  }

  lemma TraceRoots(s: State, s2: State, w: int)
    requires Inv(s) && w in s.pcs && TraceStep(s, s2, w)
    ensures s2.roots.taken == s.roots.taken
      || exists r, p :: RootMoves(s.roots.taken, r, p, w) && s2.roots.taken == s.roots.taken[r := p]
  {
    hide DequeEmpty, VictimOf, Following, VisitStep, Visiting, LocksOk, HeldMeansWaiting, ScanOk, Tracers, RootsDone, ShapeOk;
    match s.pcs[w]
    case Roots =>
      var r := s.roots.read;
      if r < |s.roots.ids| { assert RootMoves(s.roots.taken, r, InHand(w), w); }
    case Root(r, _, _) =>
      if Visiting(s, s.pcs[w]) { VisitRoots(s, s2, w); } else { assert RootMoves(s.roots.taken, r, Done, w); }
    case Trace(_, _, _) => if Visiting(s, s.pcs[w]) && VisitStep(s, s2, w) { VisitRoots(s, s2, w); }
    case _ =>
  }
}
