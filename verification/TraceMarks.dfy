/** What a parallel trace marks: when worker 0 leaves a full trace, exactly the objects that can be reached
    from the roots are marked, and all of them have been traced. */
module TraceMarks {
  import opened TraceTermination

  predicate Marked(items: map<int, Place>, x: int) {
    x == 0 || x in items
  }

  /** The first `n` of the references have been marked. */
  ghost predicate AllMarked(items: map<int, Place>, refs: seq<int>, n: int) {
    forall k | 0 <= k < n && k < |refs| :: Marked(items, refs[k])
  }

  /** A way along references from a root: none of them null. */
  ghost predicate Path(g: Graph, added: set<int>, p: seq<int>) {
    && |p| > 0 && (exists id :: id in added && p[0] in RootRefs(g, id))
    && (forall i | 0 <= i < |p| :: p[i] != 0)
    && forall i | 0 < i < |p| :: p[i] in FieldsOf(g, p[i - 1])
  }

  ghost predicate Reachable(g: Graph, added: set<int>, x: int) {
    exists p :: Path(g, added, p) && p[|p| - 1] == x
  }

  /** A worker at reference `i` has dealt with those before it. */
  ghost predicate VisitorOk(g: Graph, ids: seq<int>, items: map<int, Place>, pc: Pc) {
    pc.Root? || pc.Trace? ==>
      var refs := RefsOf(g, ids, pc);
      pc.i <= |refs| && AllMarked(items, refs, pc.i) && (pc.met != 0 ==> pc.i < |refs| && refs[pc.i] == pc.met)
  }

  ghost predicate VisitorsOk(s: State) {
    forall w | w in s.pcs :: VisitorOk(s.graph, s.roots.ids, s.items, s.pcs[w])
  }

  /** What is done has all its references marked. */
  ghost predicate DoneOk(s: State) {
    && (forall t | t in s.items && s.items[t] == Done :: AllMarked(s.items, FieldsOf(s.graph, t), |FieldsOf(s.graph, t)|))
    && (forall r | r in s.roots.taken && s.roots.taken[r] == Done && 0 <= r < |s.roots.ids| :: RootMarked(s, s.roots.ids[r]))
  }

  ghost predicate RootMarked(s: State, id: int) {
    AllMarked(s.items, RootRefs(s.graph, id), |RootRefs(s.graph, id)|)
  }

  /** A root ever added is on the list or has all its references marked. */
  ghost predicate AddedOk(s: State) {
    && (forall id | id in s.added :: id in s.roots.ids || RootMarked(s, id))
    && (forall id | id in s.roots.ids :: id in s.added)
  }

  ghost predicate ReachOk(s: State) {
    forall x | x in s.items :: Reachable(s.graph, s.added, x)
  }

  ghost predicate Marks(s: State) {
    VisitorsOk(s) && DoneOk(s) && AddedOk(s) && ReachOk(s)
  }

  lemma InitMarks(s: State)
    requires Init(s)
    ensures Marks(s)
  {
  }

  // ----- paths -----------------------------------------------------------------------------

  lemma FromRoot(g: Graph, added: set<int>, id: int, x: int)
    requires id in added && x in RootRefs(g, id) && x != 0
    ensures Reachable(g, added, x)
  {
    var p := [x];
    assert Path(g, added, p) && p[|p| - 1] == x;
  }

  lemma FromObject(g: Graph, added: set<int>, t: int, x: int)
    requires Reachable(g, added, t) && x in FieldsOf(g, t) && x != 0
    ensures Reachable(g, added, x)
  {
    var p :| Path(g, added, p) && p[|p| - 1] == t;
    var q := p + [x];
    assert Path(g, added, q) && q[|q| - 1] == x;
  }

  lemma MoreAdded(g: Graph, added: set<int>, more: set<int>, x: int)
    requires Reachable(g, added, x) && added <= more
    ensures Reachable(g, more, x)
  {
    var p :| Path(g, added, p) && p[|p| - 1] == x;
    assert Path(g, more, p);
  }

  // ----- every step keeps the marks --------------------------------------------------------

  lemma MarkedStays(items: map<int, Place>, items2: map<int, Place>, refs: seq<int>, n: int)
    requires AllMarked(items, refs, n) && items.Keys <= items2.Keys
    ensures AllMarked(items2, refs, n)
  {
  }

  lemma VisitorStays(g: Graph, ids: seq<int>, items: map<int, Place>, items2: map<int, Place>, pc: Pc)
    requires VisitorOk(g, ids, items, pc) && items.Keys <= items2.Keys
    ensures VisitorOk(g, ids, items2, pc)
  {
    hide RefsOf;
  }

  /** A step that gives one worker a new place and marks nothing done. */
  lemma StepMarks(s: State, s2: State, w: int, pc: Pc)
    requires Marks(s) && s2.graph == s.graph && s2.added == s.added && s2.roots.ids == s.roots.ids
    requires w in s.pcs && s2.pcs.Keys == s.pcs.Keys && s2.pcs[w] == pc
    requires forall v | v in s.pcs && v != w :: s2.pcs[v] == s.pcs[v] || (s.pcs[v].Asleep? && s2.pcs[v].Blocked?)
    requires s.items.Keys <= s2.items.Keys && VisitorOk(s2.graph, s2.roots.ids, s2.items, pc)
    requires forall t | t in s2.items && s2.items[t] == Done && !(t in s.items && s.items[t] == Done) ::
      AllMarked(s2.items, FieldsOf(s2.graph, t), |FieldsOf(s2.graph, t)|)
    requires forall r | r in s2.roots.taken && s2.roots.taken[r] == Done && !(r in s.roots.taken && s.roots.taken[r] == Done)
      && 0 <= r < |s.roots.ids| :: RootMarked(s2, s.roots.ids[r])
    requires forall x | x in s2.items && x !in s.items :: Reachable(s2.graph, s2.added, x)
    ensures Marks(s2)
  {
    hide Reachable, RefsOf, AllMarked;
    forall v | v in s2.pcs ensures VisitorOk(s2.graph, s2.roots.ids, s2.items, s2.pcs[v]) {
      if v != w { VisitorStays(s.graph, s.roots.ids, s.items, s2.items, s.pcs[v]); }
    }
    forall refs: seq<int>, n: int | AllMarked(s.items, refs, n) ensures AllMarked(s2.items, refs, n) {
      MarkedStays(s.items, s2.items, refs, n);
    }
  }

  lemma OneMore(items: map<int, Place>, refs: seq<int>, n: nat)
    requires AllMarked(items, refs, n) && n < |refs| && Marked(items, refs[n])
    ensures AllMarked(items, refs, n + 1)
  {
  }

  lemma SameRefs(g: Graph, ids: seq<int>, pc: Pc, x: int)
    ensures RefsOf(g, ids, Onward(pc)) == RefsOf(g, ids, pc) == RefsOf(g, ids, Found(pc, x))
  {
  }

  /** A worker that has dealt with a reference goes on to the next. */
  lemma OnwardOk(g: Graph, ids: seq<int>, items: map<int, Place>, items2: map<int, Place>, pc: Pc)
    requires (pc.Root? || pc.Trace?) && VisitorOk(g, ids, items, pc) && items.Keys <= items2.Keys
    requires pc.i < |RefsOf(g, ids, pc)| && Marked(items2, RefsOf(g, ids, pc)[pc.i])
    ensures VisitorOk(g, ids, items2, Onward(pc))
  {
    hide RefsOf, AllMarked;
    var refs := RefsOf(g, ids, pc);
    SameRefs(g, ids, pc, 0);
    MarkedStays(items, items2, refs, pc.i);
    OneMore(items2, refs, pc.i);
  }

  lemma FoundOk(g: Graph, ids: seq<int>, items: map<int, Place>, items2: map<int, Place>, pc: Pc, x: int)
    requires (pc.Root? || pc.Trace?) && VisitorOk(g, ids, items, pc) && items.Keys <= items2.Keys
    requires pc.i < |RefsOf(g, ids, pc)| && RefsOf(g, ids, pc)[pc.i] == x
    ensures VisitorOk(g, ids, items2, Found(pc, x))
  {
    hide RefsOf, AllMarked;
    SameRefs(g, ids, pc, x);
    MarkedStays(items, items2, RefsOf(g, ids, pc), pc.i);
  }

  /** What a worker visits can be reached. */
  lemma VisitedReachable(s: State, w: int, x: int)
    requires Inv(s) && Marks(s) && w in s.pcs && x in RefsOf(s.graph, s.roots.ids, s.pcs[w]) && x != 0
    ensures Reachable(s.graph, s.added, x)
  {
    HandsOf(s);
    hide Inv, Reachable, VisitorsOk, DoneOk, RootMarked;
    match s.pcs[w]
    case Root(r, _, _) => FromRoot(s.graph, s.added, s.roots.ids[r], x);
    case Trace(t, _, _) => FromObject(s.graph, s.added, t, x);
    case _ =>
  }

  lemma VisitorOf(s: State, w: int)
    requires Marks(s) && w in s.pcs
    ensures VisitorOk(s.graph, s.roots.ids, s.items, s.pcs[w])
  {
    hide VisitorOk, DoneOk, AddedOk, ReachOk;
  }

  /** The worker's place and the marks are all that a visit changes. */
  ghost predicate Visits(s: State, s2: State, w: int, pc: Pc) {
    w in s.pcs && s2 == Go(s, w, pc).(items := s2.items)
  }

  lemma VisitKeepsMarks(s: State, s2: State, w: int, pc: Pc)
    requires Marks(s) && Visits(s, s2, w, pc) && s.items.Keys <= s2.items.Keys
    requires VisitorOk(s.graph, s.roots.ids, s2.items, pc)
    requires forall t | t in s2.items && s2.items[t] == Done :: t in s.items && s.items[t] == Done
    requires forall x | x in s2.items && x !in s.items :: Reachable(s.graph, s.added, x)
    ensures Marks(s2)
  {
    hide Marks, VisitorOk, Reachable, RootMarked, AllMarked;
    StepMarks(s, s2, w, pc);
  }

  lemma VisitMarks(s: State, s2: State, w: int)
    requires Inv(s) && Marks(s) && w in s.pcs && Visiting(s, s.pcs[w]) && VisitStep(s, s2, w)
    ensures Marks(s2)
  {
    hide Inv, Marks, RefsOf, Reachable, AllMarked;
    HandsOf(s);
    VisitorOf(s, w);
    var pc, g, ids := s.pcs[w], s.graph, s.roots.ids;
    hide HandsOk;
    if pc.met != 0 {
      MetMarked(s, w);
      OnwardOk(g, ids, s.items, s2.items, pc);
      hide VisitorOk;
      VisitKeepsMarks(s, s2, w, Onward(pc));
    } else {
      var x := RefsOf(g, ids, pc)[pc.i];
      if x == 0 || x in s.items {
        OnwardOk(g, ids, s.items, s2.items, pc);
        hide VisitorOk;
        VisitKeepsMarks(s, s2, w, Onward(pc));
      } else {
        FoundOk(g, ids, s.items, s2.items, pc, x);
        VisitedReachable(s, w, x);
        hide VisitorOk;
        VisitKeepsMarks(s, s2, w, Found(pc, x));
      }
    }
  }

  // ----- steps that mark nothing -----------------------------------------------------------

  /** What a step that marks nothing and finishes nothing leaves alone; it may wake helpers. */
  ghost predicate Quiet(s: State, s2: State, w: int) {
    && s2.graph == s.graph && s2.added == s.added && s2.roots.ids == s.roots.ids && s2.items == s.items
    && s2.roots.taken == s.roots.taken && w in s.pcs && s2.pcs.Keys == s.pcs.Keys && EmptyHands(s2.pcs[w])
    && forall v | v in s.pcs && v != w :: s2.pcs[v] == s.pcs[v] || (s.pcs[v].Asleep? && s2.pcs[v].Blocked?)
  }

  lemma QuietMarks(s: State, s2: State, w: int)
    requires Marks(s) && Quiet(s, s2, w)
    ensures Marks(s2)
  {
    hide Marks, Reachable, RootMarked, AllMarked;
    StepMarks(s, s2, w, s2.pcs[w]);
  }

  lemma GoIsQuiet(s: State, s2: State, w: int, pc: Pc)
    requires w in s.pcs && EmptyHands(pc) && s2.roots.taken == s.roots.taken && s2.roots.ids == s.roots.ids
    requires s2 == Go(s, w, pc).(
      locks := s2.locks, victim := s2.victim, active := s2.active, rootsOnly := s2.rootsOnly, seen := s2.seen, roots := s2.roots)
    ensures Quiet(s, s2, w)
  {
  }

  lemma UnparkIsQuiet(s: State, s2: State)
    requires 0 in s.pcs && s2 == Go(Broadcast(s), 0, Enter)
    ensures Quiet(s, s2, 0)
  {
  }

  lemma MainIsQuiet(s: State, s2: State)
    requires 0 in s.pcs && MainStep(s, s2) && !s.pcs[0].Out? && !s.pcs[0].Leave?
    ensures Quiet(s, s2, 0)
  {
    hide DequeEmpty, VictimOf, LockOf, Following, Go, Broadcast, Quiet;
    match s.pcs[0] {
      case Unlock(k) => GoIsQuiet(s, s2, 0, if k < s.n then Unlock(k + 1) else Unpark);
      case Unpark => UnparkIsQuiet(s, s2);
      case LockAll(k) => GoIsQuiet(s, s2, 0, if k < s.n then LockAll(k + 1) else Leave);
      case Should => GoIsQuiet(s, s2, 0, if s.active != 1 then Pop else TryLock(1));
      case TryLock(k) =>
        GoIsQuiet(s, s2, 0, if k >= s.n then Scan(0) else if LockOf(s, k) == Free then TryLock(k + 1) else Unwind(k));
      case Scan(k) =>
        GoIsQuiet(s, s2, 0, if k >= s.n then Leave else if DequeEmpty(s.items, VictimOf(s, 0)) then Scan(k + 1) else Unwind(s.n));
      case Unwind(k) => GoIsQuiet(s, s2, 0, if k > 1 then Unwind(k - 1) else Pop);
      case _ =>
    }
  }

  lemma HelperIsQuiet(s: State, s2: State, w: int)
    requires w in s.pcs && HelperStep(s, s2, w)
    ensures Quiet(s, s2, w)
  {
    hide LockOf, SeenBy, Go, Quiet;
    match s.pcs[w] {
      case Asleep => GoIsQuiet(s, s2, w, Blocked);
      case Blocked => GoIsQuiet(s, s2, w, Check);
      case Check => GoIsQuiet(s, s2, w, if SeenBy(s, w) == s.epoch then Asleep else Enter);
      case Leave => GoIsQuiet(s, s2, w, Park);
      case Park => GoIsQuiet(s, s2, w, Asleep);
      case _ =>
    }
  }

  lemma BroadcastMarks(s: State, s2: State, w: int)
    requires Marks(s) && w in s.pcs && s.pcs[w].Trace? && s2 == Broadcast(s)
    ensures Marks(s2)
  {
    hide Marks, Reachable, RootMarked, AllMarked, RefsOf, VisitorOk;
    VisitorOf(s, w);
    StepMarks(s, s2, w, s.pcs[w]);
  }

  // ----- taking and finishing --------------------------------------------------------------

  lemma TakeMarks(s: State, s2: State, w: int, from: int)
    requires Marks(s) && w in s.pcs && Take(s, s2, w, from)
    ensures Marks(s2)
  {
    hide Marks, Reachable, RootMarked;
    var t :| t in s.items && s.items[t] == InDeque(from) && s2 == Go(s, w, Trace(t, 0, 0)).(items := s.items[t := InHand(w)]);
    StepMarks(s, s2, w, Trace(t, 0, 0));
  }

  lemma PopRootMarks(s: State, s2: State, w: int)
    requires Marks(s) && w in s.pcs && s.pcs[w].Roots? && TraceStep(s, s2, w)
    ensures Marks(s2)
  {
    hide Marks;
    var r := s.roots.read;
    if r < |s.roots.ids| {
      TakeRootMarks(s, s2, w, r);
    } else {
      QuietMarks(s, s2, w);
    }
  }

  lemma TakeRootMarks(s: State, s2: State, w: int, r: int)
    requires Marks(s) && w in s.pcs
    requires s2 == Go(s, w, Root(r, 0, 0)).(roots := s.roots.(read := r + 1, taken := s.roots.taken[r := InHand(w)]))
    ensures Marks(s2)
  {
    hide Marks, Reachable, RootMarked, RefsOf;
    StepMarks(s, s2, w, Root(r, 0, 0));
  }

  /** A worker past the last reference has dealt with all of them. */
  lemma VisitedAll(s: State, w: int)
    requires Marks(s) && w in s.pcs && (s.pcs[w].Root? || s.pcs[w].Trace?) && !Visiting(s, s.pcs[w])
    ensures AllMarked(s.items, RefsOf(s.graph, s.roots.ids, s.pcs[w]), |RefsOf(s.graph, s.roots.ids, s.pcs[w])|)
  {
    hide RefsOf, Marks, AllMarked;
    VisitorOf(s, w);
  }

  lemma RootDoneMarks(s: State, s2: State, w: int)
    requires Marks(s) && w in s.pcs && s.pcs[w].Root? && !Visiting(s, s.pcs[w]) && TraceStep(s, s2, w)
    ensures Marks(s2)
  {
    hide Marks, Reachable, AllMarked, Visiting;
    VisitedAll(s, w);
    StepMarks(s, s2, w, Roots);
  }

  lemma ObjectDoneMarks(s: State, s2: State, w: int, t: int)
    requires Inv(s) && Marks(s) && w in s.pcs && s.pcs[w].Trace? && s.pcs[w].t == t && !Visiting(s, s.pcs[w])
    requires s2 == Go(s, w, Pop).(items := s.items[t := Done])
    ensures Marks(s2)
  {
    hide Inv, Marks, Reachable, AllMarked, RootMarked, Visiting;
    HandsOf(s);
    VisitedAll(s, w);
    hide HandsOk;
    var refs := FieldsOf(s.graph, t);
    MarkedStays(s.items, s2.items, refs, |refs|);
    StepMarks(s, s2, w, Pop);
  }

  lemma ObjectStepMarks(s: State, s2: State, w: int)
    requires Inv(s) && Marks(s) && w in s.pcs && s.pcs[w].Trace? && TraceStep(s, s2, w)
    ensures Marks(s2)
  {
    hide Inv, Marks, Visiting, VisitStep, Broadcast, Go, RefsOf;
    if s2 == Broadcast(s) {
      BroadcastMarks(s, s2, w);
    } else if Visiting(s, s.pcs[w]) {
      VisitMarks(s, s2, w);
    } else {
      ObjectDoneMarks(s, s2, w, s.pcs[w].t);
    }
  }

  lemma GoMarks(s: State, s2: State, w: int, pc: Pc)
    requires Marks(s) && w in s.pcs && EmptyHands(pc) && s2 == Go(s, w, pc).(active := s2.active, victim := s2.victim)
    ensures Marks(s2)
  {
    hide Marks;
    QuietMarks(s, s2, w);
  }

  lemma TraceStepMarks(s: State, s2: State, w: int)
    requires Inv(s) && Marks(s) && w in s.pcs && TraceStep(s, s2, w)
    ensures Marks(s2)
  {
    hide Inv, Marks, Visiting, VisitStep, Take, Broadcast, DequeEmpty, VictimOf, Following, Go;
    match s.pcs[w] {
      case Enter => GoMarks(s, s2, w, Roots);
      case Roots => PopRootMarks(s, s2, w);
      case Root(_, _, _) => if Visiting(s, s.pcs[w]) { VisitMarks(s, s2, w); } else { RootDoneMarks(s, s2, w); }
      case Pop => if Take(s, s2, w, w) { TakeMarks(s, s2, w, w); } else { GoMarks(s, s2, w, Steal(0)); }
      case Steal(k) =>
        if Take(s, s2, w, VictimOf(s, w)) {
          TakeMarks(s, s2, w, VictimOf(s, w));
        } else {
          GoMarks(s, s2, w, if k < s.n then Steal(k + 1) else if w == 0 then Should else Leave);
        }
      case Trace(_, _, _) => ObjectStepMarks(s, s2, w);
      case _ =>
    }
  }

  // ----- adding roots, and the list emptied ------------------------------------------------

  /** Between traces, and when worker 0 leaves one, nobody is at a root or an object. */
  lemma AllRest(s: State)
    requires Inv(s) && (s.pcs[0] == Leave || s.pcs[0] == Out)
    ensures forall w | w in s.pcs :: EmptyHands(s.pcs[w])
  {
    hide Inv;
    LeaveHolds(s);
  }

  lemma OutNoneTaken(s: State)
    requires Inv(s) && s.pcs[0] == Out
    ensures forall r :: r !in s.roots.taken
  {
    hide HandsOk, ScanOk, LocksOk, HeldMeansWaiting, Tracers;
  }

  lemma AddRootMarks(s: State, s2: State, id: int)
    requires Inv(s) && Marks(s) && s.pcs[0] == Out && AddRoot(s, s2, id)
    ensures Marks(s2)
  {
    AllRest(s);
    OutNoneTaken(s);
    hide Inv, Reachable, AllMarked;
    forall x | x in s2.items ensures Reachable(s2.graph, s2.added, x) { MoreAdded(s.graph, s.added, s2.added, x); }
  }

  /** When worker 0 leaves, every root on the list has been traced. */
  lemma RootsMarked(s: State)
    requires Inv(s) && Marks(s) && s.pcs[0] == Leave
    ensures forall id | id in s.added :: RootMarked(s, id)
  {
    hide Inv, Reachable, RootMarked, AllMarked;
    LeaveHolds(s);
    forall id | id in s.added ensures RootMarked(s, id) {
      if id in s.roots.ids {
        var r :| 0 <= r < |s.roots.ids| && s.roots.ids[r] == id;
        RootTaken(s, r);
      }
    }
  }

  lemma LeaveMarks(s: State, s2: State)
    requires Inv(s) && Marks(s) && s.pcs[0] == Leave && MainStep(s, s2)
    ensures Marks(s2)
  {
    RootsMarked(s);
    AllRest(s);
    hide Inv, Reachable, AllMarked;
  }

  lemma MainStepMarks(s: State, s2: State)
    requires 0 in s.pcs && Inv(s) && Marks(s) && MainStep(s, s2)
    ensures Marks(s2)
  {
    hide Inv, Marks, MainStep;
    if s.pcs[0].Leave? {
      LeaveMarks(s, s2);
    } else if s.pcs[0].Out? {
      OutMarks(s, s2);
    } else {
      MainIsQuiet(s, s2);
      QuietMarks(s, s2, 0);
    }
  }

  lemma OutMarks(s: State, s2: State)
    requires 0 in s.pcs && Inv(s) && Marks(s) && s.pcs[0].Out? && MainStep(s, s2)
    ensures Marks(s2)
  {
    hide Inv, Marks, AddRoot;
    if id :| AddRoot(s, s2, id) { AddRootMarks(s, s2, id); } else { QuietMarks(s, s2, 0); }
  }

  lemma StepKeepsMarks(s: State, s2: State, w: int)
    requires Inv(s) && Marks(s) && Step(s, s2, w)
    ensures Marks(s2)
  {
    hide Inv, Marks, TraceStep, MainStep, HelperStep;
    if TraceStep(s, s2, w) {
      TraceStepMarks(s, s2, w);
    } else if w == 0 {
      MainStepMarks(s, s2);
    } else {
      HelperIsQuiet(s, s2, w);
      QuietMarks(s, s2, w);
    }
  }

  // ----- what a whole trace has marked -----------------------------------------------------

  lemma {:induction false} RunKeepsMarks(run: seq<State>, i: nat)
    requires Run(run) && i < |run|
    ensures Inv(run[i]) && Marks(run[i])
  {
    hide Inv, Init, Step, Marks;
    if i == 0 {
      InitMarks(run[0]);
    } else {
      RunKeepsMarks(run, i - 1);
      RunKeepsInv(run, i - 1);
      var w :| Step(run[i - 1], run[i], w);
      StepKeepsMarks(run[i - 1], run[i], w);
    }
    RunKeepsInv(run, i);
  }

  /** All that a path meets is marked, if what the roots hold is and what is marked is done. */
  lemma {:induction false} PathMarked(s: State, p: seq<int>, i: nat)
    requires DoneOk(s) && Path(s.graph, s.added, p) && i < |p|
    requires forall id | id in s.added :: RootMarked(s, id)
    requires forall t | t in s.items :: s.items[t] == Done
    ensures p[i] in s.items
  {
    if i == 0 {
      var id :| id in s.added && p[0] in RootRefs(s.graph, id);
      assert RootMarked(s, id);
    } else {
      PathMarked(s, p, i - 1);
      assert AllMarked(s.items, FieldsOf(s.graph, p[i - 1]), |FieldsOf(s.graph, p[i - 1])|);
    }
  }

  /** When worker 0 leaves a full trace, an object is marked if and only if it can be reached from the roots
      added in this collection. */
  lemma MarkedExactly(run: seq<State>, i: nat, x: int)
    requires Run(run) && i < |run| && 0 in run[i].pcs && run[i].pcs[0] == Leave && !run[i].rootsOnly
    ensures x in run[i].items <==> Reachable(run[i].graph, run[i].added, x)
  {
    hide Inv, Init, AllMarked, RootMarked;
    var s := run[i];
    RunKeepsMarks(run, i);
    RootsMarked(s);
    TraceIsOver(run, i);
    if Reachable(s.graph, s.added, x) {
      var p :| Path(s.graph, s.added, p) && p[|p| - 1] == x;
      PathMarked(s, p, |p| - 1);
    }
  }

  /** When worker 0 leaves any trace, of the roots alone or full, all that the roots hold is marked. */
  lemma RootsHeld(run: seq<State>, i: nat, id: int, x: int)
    requires Run(run) && i < |run| && 0 in run[i].pcs && run[i].pcs[0] == Leave
    requires id in run[i].added && x in RootRefs(run[i].graph, id) && x != 0
    ensures x in run[i].items
  {
    hide Inv, Init;
    RunKeepsMarks(run, i);
    hide Marks;
    RootsMarked(run[i]);
    assert RootMarked(run[i], id);
  }
}
