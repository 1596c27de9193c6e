/** A trace can always come to its end: from every state of every run worker 0 can leave the trace it is in. */
module TraceEnds {
  import opened Basics
  import opened Runs
  import opened TraceTermination

  // ----- what is left to do ----------------------------------------------------------------

  ghost function RefsIn(fields: map<int, seq<int>>): set<int> {
    set t, k | t in fields && 0 <= k < |fields[t]| :: fields[t][k]
  }

  /** How many references of the graph have not been marked. */
  ghost function Unmarked(s: State): nat {
    |(RefsIn(s.graph.fields) + RefsIn(s.graph.roots)) - s.items.Keys|
  }

  ghost function Untaken(items: map<int, Place>): set<int> {
    set t | t in items && (items[t].Met? || items[t].InDeque?)
  }

  /** How many objects have been marked and not taken, and roots not popped. */
  ghost function Waiting(s: State): nat {
    |Untaken(s.items)| + if s.roots.read < |s.roots.ids| then |s.roots.ids| - s.roots.read else 0
  }

  /** How much a worker has left to visit. */
  function Left(s: State, pc: Pc): nat {
    if pc.Root? || pc.Trace? then
      var len := |RefsOf(s.graph, s.roots.ids, pc)|;
      (if pc.i < len then len - pc.i else 0) + if pc.met != 0 then 1 else 0
    else 0
  }

  /** Less is left: fewer references to mark, or as many and fewer to take, or as many of both and a lower rank. */
  ghost predicate Less(t: State, s: State, rank: nat, before: nat) {
    || Unmarked(t) < Unmarked(s)
    || (Unmarked(t) == Unmarked(s) && Waiting(t) < Waiting(s))
    || (Unmarked(t) == Unmarked(s) && Waiting(t) == Waiting(s) && rank < before)
  }

  ghost predicate SameWork(s: State, t: State) {
    t.graph == s.graph && t.items == s.items && t.roots.read == s.roots.read && t.roots.ids == s.roots.ids
  }

  lemma SameLess(s: State, t: State, rank: nat, before: nat)
    requires SameWork(s, t) && rank < before
    ensures Less(t, s, rank, before)
  {
  }

  // ----- one visit, one object taken, one root popped --------------------------------------

  lemma RefListed(g: Graph, ids: seq<int>, pc: Pc, k: nat)
    requires k < |RefsOf(g, ids, pc)|
    ensures RefsOf(g, ids, pc)[k] in RefsIn(g.fields) + RefsIn(g.roots)
  {
  }

  lemma MarkedLess(s: State, t: State, x: int, p: Place)
    requires t.graph == s.graph && t.items == s.items[x := p] && x !in s.items
    requires x in RefsIn(s.graph.fields) + RefsIn(s.graph.roots)
    ensures Unmarked(t) < Unmarked(s)
  {
    var all := RefsIn(s.graph.fields) + RefsIn(s.graph.roots);
    assert all - s.items.Keys == (all - t.items.Keys) + {x};
  }

  lemma PushedSame(s: State, t: State, x: int, w: int)
    requires t.graph == s.graph && x in s.items && s.items[x].Met? && t.items == s.items[x := InDeque(w)] && t.roots == s.roots
    ensures Unmarked(t) == Unmarked(s) && Waiting(t) == Waiting(s)
  {
    assert t.items.Keys == s.items.Keys;
    assert Untaken(t.items) == Untaken(s.items);
  }

  lemma LeftOnward(s: State, t: State, pc: Pc)
    requires t.graph == s.graph && t.roots == s.roots && Visiting(s, pc)
    ensures Left(t, Onward(pc)) < Left(s, pc)
  {
    var refs := RefsOf(s.graph, s.roots.ids, pc);
    assert RefsOf(t.graph, t.roots.ids, Onward(pc)) == refs;
    hide RefsOf;
  }

  /** A worker that is visiting can go on, and then less is left. */
  ghost predicate VisitGoes(s: State, t: State, w: int)
    requires w in s.pcs && Visiting(s, s.pcs[w])
  {
    && VisitStep(s, t, w) && w in t.pcs && t.pcs == s.pcs[w := t.pcs[w]] && t == s.(pcs := t.pcs, items := t.items)
    && ((s.pcs[w].Root? && t.pcs[w].Root?) || (s.pcs[w].Trace? && t.pcs[w].Trace?))
    && Less(t, s, Left(t, t.pcs[w]), Left(s, s.pcs[w]))
  }

  lemma VisitPush(s: State, w: int) returns (t: State)
    requires w in s.pcs && Visiting(s, s.pcs[w]) && s.pcs[w].met != 0
    requires s.pcs[w].met in s.items && s.items[s.pcs[w].met] == Met(w)
    ensures VisitGoes(s, t, w)
  {
    hide Unmarked, Waiting, Left, RefsOf;
    var pc := s.pcs[w];
    t := Go(s, w, Onward(pc)).(items := s.items[pc.met := InDeque(w)]);
    PushedSame(s, t, pc.met, w);
    LeftOnward(s, t, pc);
  }

  lemma VisitSkip(s: State, w: int) returns (t: State)
    requires w in s.pcs && Visiting(s, s.pcs[w]) && s.pcs[w].met == 0
    requires var x := RefsOf(s.graph, s.roots.ids, s.pcs[w])[s.pcs[w].i]; x == 0 || x in s.items
    ensures VisitGoes(s, t, w)
  {
    hide Less, Left, RefsOf;
    var pc := s.pcs[w];
    t := Go(s, w, Onward(pc));
    LeftOnward(s, t, pc);
    SameLess(s, t, Left(t, t.pcs[w]), Left(s, pc));
  }

  lemma VisitMeet(s: State, w: int, x: int) returns (t: State)
    requires w in s.pcs && Visiting(s, s.pcs[w]) && s.pcs[w].met == 0
    requires x == RefsOf(s.graph, s.roots.ids, s.pcs[w])[s.pcs[w].i] && x != 0 && x !in s.items
    ensures VisitGoes(s, t, w)
  {
    hide Unmarked, Waiting, Left, RefsOf, RefsIn;
    var pc := s.pcs[w];
    t := Go(s, w, Found(pc, x)).(items := s.items[x := Met(w)]);
    RefListed(s.graph, s.roots.ids, pc, pc.i);
    MarkedLess(s, t, x, Met(w));
  }

  lemma VisitOnce(s: State, w: int) returns (t: State)
    requires Inv(s) && w in s.pcs && Visiting(s, s.pcs[w])
    ensures VisitGoes(s, t, w)
  {
    hide Inv, VisitGoes, RefsOf;
    var pc := s.pcs[w];
    if pc.met != 0 {
      MetMarked(s, w);
      t := VisitPush(s, w);
    } else {
      var x := RefsOf(s.graph, s.roots.ids, pc)[pc.i];
      if x == 0 || x in s.items { t := VisitSkip(s, w); } else { t := VisitMeet(s, w, x); }
    }
  }

  lemma TakeOnce(s: State, w: int, from: int) returns (t: State)
    requires w in s.pcs && !DequeEmpty(s.items, from)
    ensures Take(s, t, w, from) && w in t.pcs && t.pcs == s.pcs[w := t.pcs[w]] && t == s.(pcs := t.pcs, items := t.items)
    ensures Unmarked(t) == Unmarked(s) && Waiting(t) < Waiting(s)
  {
    var x :| x in s.items && s.items[x] == InDeque(from);
    t := Go(s, w, Trace(x, 0, 0)).(items := s.items[x := InHand(w)]);
    assert t.items.Keys == s.items.Keys;
    assert Untaken(s.items) == Untaken(t.items) + {x};
  }

  lemma PopRootOnce(s: State, w: int) returns (t: State)
    requires w in s.pcs && s.pcs[w].Roots? && s.roots.read < |s.roots.ids|
    ensures TraceStep(s, t, w) && w in t.pcs && t.pcs == s.pcs[w := t.pcs[w]] && t == s.(pcs := t.pcs, roots := t.roots)
    ensures Unmarked(t) == Unmarked(s) && Waiting(t) < Waiting(s)
  {
    var r := s.roots.read;
    t := Go(s, w, Root(r, 0, 0)).(roots := s.roots.(read := r + 1, taken := s.roots.taken[r := InHand(w)]));
  }

  lemma PastRootsOnce(s: State, w: int, pc: Pc) returns (t: State)
    requires w in s.pcs && s.pcs[w].Roots? && s.roots.read >= |s.roots.ids|
    requires pc == if !s.rootsOnly then Pop else if w == 0 then LockAll(1) else Leave
    ensures TraceStep(s, t, w) && t.pcs == s.pcs[w := pc] && t == s.(pcs := t.pcs, roots := t.roots)
    ensures Unmarked(t) == Unmarked(s) && Waiting(t) == Waiting(s)
  {
    t := Go(s, w, pc).(roots := s.roots.(read := s.roots.read + 1));
  }

  lemma RootDoneOnce(s: State, w: int) returns (t: State)
    requires w in s.pcs && s.pcs[w].Root? && !Visiting(s, s.pcs[w])
    ensures TraceStep(s, t, w) && t.pcs == s.pcs[w := Roots] && t == s.(pcs := t.pcs, roots := t.roots)
    ensures Unmarked(t) == Unmarked(s) && Waiting(t) == Waiting(s)
  {
    t := Go(s, w, Roots).(roots := s.roots.(taken := s.roots.taken[s.pcs[w].r := Done]));
  }

  lemma ObjectDoneOnce(s: State, w: int) returns (t: State)
    requires Inv(s) && w in s.pcs && s.pcs[w].Trace? && !Visiting(s, s.pcs[w])
    ensures TraceStep(s, t, w) && t.pcs == s.pcs[w := Pop] && t == s.(pcs := t.pcs, items := t.items)
    ensures Unmarked(t) == Unmarked(s) && Waiting(t) == Waiting(s)
  {
    hide Inv, Visiting;
    HandsOf(s);
    t := Go(s, w, Pop).(items := s.items[s.pcs[w].t := Done]);
    assert t.items.Keys == s.items.Keys;
    assert Untaken(t.items) == Untaken(s.items);
  }

  // ----- a helper comes to wait ------------------------------------------------------------

  function StealsLeft(n: int, k: int): nat {
    if k < n then n - k else 0
  }

  /** How far a helper is from waiting, when it finds nothing more to take. */
  function HelperRank(s: State, pc: Pc): nat
    requires s.n >= 1
  {
    match pc
    case Check => 8 + s.n
    case Enter => 7 + s.n
    case Root(_, _, _) => 7 + s.n + Left(s, pc)
    case Roots => 6 + s.n
    case Trace(_, _, _) => 5 + s.n + Left(s, pc)
    case Pop => 4 + s.n
    case Steal(k) => 3 + StealsLeft(s.n, k)
    case Leave => 2
    case Park => 1
    case _ => 0
  }

  /** The trace, the graph and the roots added stay what they are. */
  ghost predicate SameTrace(s: State, t: State) {
    t.n == s.n && t.graph == s.graph && t.added == s.added && t.rootsOnly == s.rootsOnly
  }

  ghost predicate HelperGoes(s: State, t: State, w: int)
    requires w in s.pcs && s.n >= 1
  {
    && Step(s, t, w) && SameTrace(s, t) && w in t.pcs && t.pcs == s.pcs[w := t.pcs[w]]
    && Less(t, s, HelperRank(t, t.pcs[w]), HelperRank(s, s.pcs[w]))
  }

  lemma ShapeOf(s: State)
    requires Inv(s)
    ensures ShapeOk(s.n, s.pcs) && 0 in s.pcs
  {
    hide LocksOk, HeldMeansWaiting, HandsOk, RootsOk, RootsDone, ScanOk, Tracers;
  }

  /** A helper inside its lock can always take a step, and then less is left. */
  lemma HelperOnce(s: State, w: int) returns (t: State)
    requires Inv(s) && w in s.pcs && w != 0 && !Waits(s.pcs[w])
    ensures s.n >= 1 && HelperGoes(s, t, w)
  {
    hide Inv, Less, RefsOf, DequeEmpty, Visiting;
    ShapeOf(s);
    if s.pcs[w].Root? || s.pcs[w].Trace? || s.pcs[w].Roots? {
      t := HelperWorks(s, w);
    } else if (s.pcs[w].Pop? && !DequeEmpty(s.items, w)) {
      t := HelperTakes(s, w);
    } else {
      t := HelperQuiet(s, w);
    }
  }

  lemma HelperTakes(s: State, w: int) returns (t: State)
    requires Inv(s) && ShapeOk(s.n, s.pcs) && w in s.pcs && w != 0 && s.pcs[w].Pop? && !DequeEmpty(s.items, w)
    ensures HelperGoes(s, t, w)
  {
    hide Inv, ShapeOk, Unmarked, Waiting, Take, DequeEmpty, HelperRank;
    ShapeMain(s.n, s.pcs);
    t := TakeOnce(s, w, w);
  }

  lemma HelperWorks(s: State, w: int) returns (t: State)
    requires Inv(s) && ShapeOk(s.n, s.pcs) && w in s.pcs && w != 0 && (s.pcs[w].Root? || s.pcs[w].Trace? || s.pcs[w].Roots?)
    ensures HelperGoes(s, t, w)
  {
    hide Inv, Unmarked, Waiting, VisitStep, Visiting, RefsOf, MainStep, HelperStep;
    if s.pcs[w].Roots? {
      if s.roots.read < |s.roots.ids| {
        t := PopRootOnce(s, w);
      } else {
        t := PastRootsOnce(s, w, if !s.rootsOnly then Pop else Leave);
      }
    } else if Visiting(s, s.pcs[w]) {
      t := VisitOnce(s, w);
    } else if s.pcs[w].Root? {
      t := RootDoneOnce(s, w);
    } else {
      t := ObjectDoneOnce(s, w);
    }
  }

  lemma HelperGo(s: State, t: State, w: int, pc: Pc)
    requires w in s.pcs && s.n >= 1 && Step(s, t, w)
    requires t == Go(s, w, pc).(active := t.active, victim := t.victim, locks := t.locks, seen := t.seen)
    requires !pc.Root? && !pc.Trace? && HelperRank(s, pc) < HelperRank(s, s.pcs[w])
    ensures HelperGoes(s, t, w)
  {
    hide Step, Less;
    SameLess(s, t, HelperRank(t, pc), HelperRank(s, s.pcs[w]));
  }

  /** It can find its victim's deque empty, whatever is there, and give up after a full turn. */
  lemma HelperSteals(s: State, w: int, k: int) returns (t: State)
    requires ShapeOk(s.n, s.pcs) && w in s.pcs && w != 0 && s.pcs[w] == Steal(k)
    ensures HelperGoes(s, t, w)
  {
    hide HelperGoes, DequeEmpty, RefsOf, VictimOf, Following, Go, Take;
    ShapeMain(s.n, s.pcs);
    if k < s.n {
      t := Go(s, w, Steal(k + 1)).(victim := s.victim[w := Following(s.n, VictimOf(s, w))]);
      HelperGo(s, t, w, Steal(k + 1));
    } else {
      t := Go(s, w, Leave);
      HelperGo(s, t, w, Leave);
    }
  }

  lemma HelperChecks(s: State, w: int) returns (t: State)
    requires ShapeOk(s.n, s.pcs) && w in s.pcs && w != 0 && s.pcs[w].Check?
    ensures HelperGoes(s, t, w)
  {
    hide HelperGoes, RefsOf, SeenBy, Go;
    ShapeMain(s.n, s.pcs);
    if SeenBy(s, w) == s.epoch {
      t := Go(s, w, Asleep).(locks := s.locks[w := Free]);
      HelperGo(s, t, w, Asleep);
    } else {
      t := Go(s, w, Enter).(seen := s.seen[w := s.epoch]);
      HelperGo(s, t, w, Enter);
    }
  }

  lemma HelperQuiet(s: State, w: int) returns (t: State)
    requires ShapeOk(s.n, s.pcs) && w in s.pcs && w != 0 && !Waits(s.pcs[w])
    requires !s.pcs[w].Root? && !s.pcs[w].Trace? && !s.pcs[w].Roots? && (s.pcs[w].Pop? ==> DequeEmpty(s.items, w))
    ensures HelperGoes(s, t, w)
  {
    hide HelperGoes, DequeEmpty, RefsOf, SeenBy, VictimOf, Following, Go, Take;
    ShapeMain(s.n, s.pcs);
    match s.pcs[w] {
      case Enter => t := Go(s, w, Roots).(active := s.active + 1); HelperGo(s, t, w, Roots);
      case Pop => t := Go(s, w, Steal(0)); HelperGo(s, t, w, Steal(0));
      case Steal(k) => t := HelperSteals(s, w, k);
      case Check => t := HelperChecks(s, w);
      case Leave => t := Go(s, w, Park).(active := s.active - 1); HelperGo(s, t, w, Park);
      case Park => t := Go(s, w, Asleep).(locks := s.locks[w := Free]); HelperGo(s, t, w, Asleep);
      case _ => assert false;
    }
  }

  lemma NextOf(s: State, t: State, w: int)
    requires Step(s, t, w)
    ensures Next(s, t)
  {
    hide Step;
  }

  /** A helper comes to wait, all by itself: nobody else moves. */
  lemma {:induction false} HelperWaits(s: State, w: int) returns (t: State)
    requires Inv(s) && s.n >= 1 && w in s.pcs && w != 0
    ensures CanReach(Next, s, t) && Inv(t) && SameTrace(s, t) && w in t.pcs && Waits(t.pcs[w]) && t.pcs == s.pcs[w := t.pcs[w]]
    decreases Unmarked(s), Waiting(s), HelperRank(s, s.pcs[w])
  {
    hide Inv, Step, Unmarked, Waiting, HelperRank, CanReach, Next;
    if Waits(s.pcs[w]) {
      t := s;
      ReachesSelf(Next, s);
    } else {
      var u := HelperOnce(s, w);
      StepKeepsInv(s, u, w);
      NextOf(s, u, w);
      t := HelperWaits(u, w);
      ReachesNext(Next, s, u, t);
    }
  }

  ghost function Inside(pcs: map<int, Pc>): set<int> {
    set w | w in pcs && w != 0 && !Waits(pcs[w])
  }

  lemma {:induction false} HelpersWait(s: State) returns (t: State)
    requires Inv(s) && s.n >= 1
    ensures CanReach(Next, s, t) && Inv(t) && SameTrace(s, t) && Inside(t.pcs) == {} && 0 in s.pcs && 0 in t.pcs && t.pcs[0] == s.pcs[0]
    decreases |Inside(s.pcs)|
  {
    hide Inv, ShapeOk, CanReach, Next, Waits;
    ShapeOf(s);
    if Inside(s.pcs) == {} {
      t := s;
      ReachesSelf(Next, s);
    } else {
      var w := Pick(Inside(s.pcs));
      var u := HelperWaits(s, w);
      assert Inside(s.pcs) == Inside(u.pcs) + {w};
      t := HelpersWait(u);
      ReachesTrans(Next, s, u, t);
    }
  }

  // ----- worker 0 alone --------------------------------------------------------------------

  /** How many deques from `at` on are empty before one that is not, of the next `k`. */
  ghost function Ahead(items: map<int, Place>, n: int, at: int, k: nat): (r: nat)
    ensures r <= k
    decreases k
  {
    if k == 0 || !DequeEmpty(items, at) then 0 else 1 + Ahead(items, n, Following(n, at), k - 1)
  }

  lemma {:induction false} AheadMore(items: map<int, Place>, n: int, at: int, k: nat)
    requires Ahead(items, n, at, k) < k
    ensures Ahead(items, n, at, k + 1) == Ahead(items, n, at, k)
    decreases k
  {
    if k > 0 && DequeEmpty(items, at) { AheadMore(items, n, Following(n, at), k - 1); }
  }

  /** How far `v` is from `at` round the ring. */
  function Distance(n: int, at: int, v: int): int {
    if v >= at then v - at else v - at + n
  }

  /** A full turn from anywhere comes by a deque that is not empty. */
  lemma {:induction false} AheadFinds(items: map<int, Place>, n: int, at: int, v: int, k: nat)
    requires 0 <= at < n && 0 <= v < n && !DequeEmpty(items, v) && Distance(n, at, v) < k
    ensures Ahead(items, n, at, k) < k
    decreases k
  {
    if at != v { AheadFinds(items, n, Following(n, at), v, k - 1); }
  }

  ghost predicate SomeDeque(items: map<int, Place>) {
    exists t :: t in items && items[t].InDeque?
  }

  /** How far worker 0 is from taking an object, if there is one to take, or else from leaving. */
  ghost function MainRank(s: State, pc: Pc): nat
    requires s.n >= 1
  {
    var n := s.n;
    match pc
    case Out => 0
    case Leave => 1
    case LockAll(k) => 2 + StealsLeft(n, k)
    case Roots => 10 + 10 * n
    case Trace(_, _, _) => 10 + 10 * n + Left(s, pc)
    case Root(_, _, _) => 11 + 10 * n + Left(s, pc)
    case Enter => 11 + 10 * n
    case Unpark => 12 + 10 * n
    case Unlock(k) => 13 + 10 * n + StealsLeft(n, k)
    case _ => if SomeDeque(s.items) then TakeRank(s, pc) else LeaveRank(n, pc)
  }

  function LeaveRank(n: nat, pc: Pc): nat {
    match pc
    case Scan(k) => 2 + StealsLeft(n, k)
    case TryLock(k) => 3 + n + StealsLeft(n, k)
    case Should => 4 + 2 * n
    case Steal(k) => 5 + 2 * n + StealsLeft(n, k)
    case Pop => 6 + 3 * n
    case Unwind(k) => 6 + 3 * n + if k > 0 then k else 0
    case _ => 0
  }

  ghost function TakeRank(s: State, pc: Pc): nat
    requires s.n >= 1
  {
    var n := s.n;
    match pc
    case Steal(k) =>
      var ahead := Ahead(s.items, n, VictimOf(s, 0), n);
      if ahead < n && k + ahead < n then 2 + ahead else 7 + 4 * n + StealsLeft(n, k)
    case Pop => 3 + n
    case Unwind(k) => 3 + n + if k > 0 then k else 0
    case Scan(k) => 4 + 2 * n + StealsLeft(n, k)
    case TryLock(k) => 5 + 3 * n + StealsLeft(n, k)
    case Should => 6 + 4 * n
    case _ => 0
  }

  /** Worker 0 alone inside its trace. */
  ghost predicate Alone(s: State) {
    s.n >= 1 && 0 in s.pcs && Inside(s.pcs) == {}
  }

  ghost predicate MainGoes(s: State, t: State)
    requires Alone(s)
  {
    && Step(s, t, 0) && SameTrace(s, t) && Alone(t)
    && Less(t, s, MainRank(t, t.pcs[0]), MainRank(s, s.pcs[0]))
  }

  lemma StillAlone(s: State, t: State)
    requires Alone(s) && t.n == s.n && 0 in t.pcs && t.pcs == s.pcs[0 := t.pcs[0]]
    ensures Alone(t)
  {
    forall w ensures w !in Inside(t.pcs) {
      assert w !in Inside(s.pcs);
    }
  }

  /** A step of worker 0 that leaves objects and roots alone. */
  lemma MainGo(s: State, t: State, pc: Pc)
    requires Alone(s) && Step(s, t, 0) && t == Go(s, 0, pc).(active := t.active, victim := t.victim, locks := t.locks)
    requires MainRank(t, pc) < MainRank(s, s.pcs[0])
    ensures MainGoes(s, t)
  {
    hide Step, Less, MainRank, Inside;
    assert Alone(t) by { StillAlone(s, t); }
    SameLess(s, t, MainRank(t, pc), MainRank(s, s.pcs[0]));
  }

  lemma MainTakes(s: State, from: int) returns (t: State)
    requires Alone(s) && !DequeEmpty(s.items, from)
    requires (s.pcs[0].Pop? && from == 0) || (s.pcs[0].Steal? && s.pcs[0].k < s.n && from == VictimOf(s, 0))
    ensures MainGoes(s, t)
  {
    hide Unmarked, Waiting, Take, DequeEmpty, MainRank, VictimOf, Inside;
    t := TakeOnce(s, 0, from);
    assert Alone(t) by { StillAlone(s, t); }
  }

  lemma MainWorks(s: State) returns (t: State)
    requires Inv(s) && Alone(s) && (s.pcs[0].Root? || s.pcs[0].Trace? || s.pcs[0].Roots?)
    ensures MainGoes(s, t)
  {
    hide Inv, Unmarked, Waiting, VisitStep, Visiting, RefsOf, SomeDeque, Ahead, Left, Inside;
    if s.pcs[0].Roots? {
      t := MainPops(s);
    } else if Visiting(s, s.pcs[0]) {
      t := VisitOnce(s, 0);
      assert Alone(t) by { StillAlone(s, t); }
    } else if s.pcs[0].Root? {
      t := RootDoneOnce(s, 0);
      assert Alone(t) by { StillAlone(s, t); }
    } else {
      t := ObjectDoneOnce(s, 0);
      assert Alone(t) by { StillAlone(s, t); }
    }
  }

  lemma MainPops(s: State) returns (t: State)
    requires Alone(s) && s.pcs[0].Roots?
    ensures MainGoes(s, t)
  {
    hide Unmarked, Waiting, Inside, SomeDeque, Ahead;
    if s.roots.read < |s.roots.ids| {
      t := PopRootOnce(s, 0);
    } else {
      t := PastRootsOnce(s, 0, if !s.rootsOnly then Pop else LockAll(1));
    }
    assert Alone(t) by { StillAlone(s, t); }
  }

  /** Stealing, worker 0 finds the next deque that is not empty if it has that far to go. */
  lemma MainSteals(s: State, k: int) returns (t: State)
    requires Inv(s) && Alone(s) && s.pcs[0] == Steal(k)
    ensures MainGoes(s, t)
  {
    hide Inv, Inside, DequeEmpty, MainGoes, SomeDeque, Take;
    if k >= s.n {
      t := Go(s, 0, Should);
      MainGo(s, t, Should);
    } else if DequeEmpty(s.items, VictimOf(s, 0)) {
      t := Go(s, 0, Steal(k + 1)).(victim := s.victim[0 := Following(s.n, VictimOf(s, 0))]);
      var next := Following(s.n, VictimOf(s, 0));
      assert VictimOf(t, 0) == next;
      var ahead := Ahead(s.items, s.n, VictimOf(s, 0), s.n);
      assert ahead == 1 + Ahead(s.items, s.n, next, s.n - 1);
      if ahead < s.n { AheadMore(s.items, s.n, next, s.n - 1); }
      MainGo(s, t, Steal(k + 1));
    } else {
      t := MainTakes(s, VictimOf(s, 0));
    }
  }

  lemma VictimThere(s: State)
    requires Inv(s) && 0 in s.pcs
    ensures 0 <= VictimOf(s, 0) < s.n
  {
    hide LocksOk, HeldMeansWaiting, HandsOk, RootsOk, RootsDone, Tracers, ShapeOk;
  }

  /** From the start of a turn it takes an object, if there is one. */
  lemma TurnFinds(s: State)
    requires Inv(s) && Alone(s) && SomeDeque(s.items)
    ensures Ahead(s.items, s.n, VictimOf(s, 0), s.n) < s.n
  {
    hide Inv, Inside, Ahead, VictimOf;
    ShapeOf(s);
    HandsOf(s);
    VictimThere(s);
    var x :| x in s.items && s.items[x].InDeque?;
    assert !DequeEmpty(s.items, s.items[x].w);
    hide DequeEmpty, HandsOk;
    AheadFinds(s.items, s.n, VictimOf(s, 0), s.items[x].w, s.n);
  }

  lemma MainTurns(s: State) returns (t: State)
    requires Inv(s) && Alone(s) && s.pcs[0].Pop?
    ensures MainGoes(s, t)
  {
    hide Inv, Inside, MainStep, HelperStep, DequeEmpty, MainGoes, SomeDeque, Take, Ahead;
    if DequeEmpty(s.items, 0) {
      if SomeDeque(s.items) { TurnFinds(s); }
      t := Go(s, 0, Steal(0));
      MainGo(s, t, Steal(0));
    } else {
      t := MainTakes(s, 0);
    }
  }

  /** With every helper waiting, worker 0 is the only one active. */
  lemma OneActive(s: State)
    requires Inv(s) && Alone(s) && InTrace(s.pcs[0])
    ensures s.active == 1
  {
    hide LocksOk, HeldMeansWaiting, HandsOk, RootsOk, RootsDone, ScanOk, ShapeOk;
    forall w ensures w in Tracers(s.pcs) <==> w == 0 {
      assert w !in Inside(s.pcs);
    }
    assert Tracers(s.pcs) == {0};
  }

  /** And every lock it does not hold is free. */
  lemma LockIsFree(s: State, k: int)
    requires Inv(s) && Alone(s) && 1 <= k < s.n && !MainHolds(s.pcs[0], k)
    ensures LockOf(s, k) == Free
  {
    hide HeldMeansWaiting, HandsOk, RootsOk, RootsDone, ScanOk, Tracers, MainHolds;
    assert k !in Inside(s.pcs);
  }

  lemma MainChecks(s: State) returns (t: State)
    requires Inv(s) && Alone(s) && s.pcs[0].Should?
    ensures MainGoes(s, t)
  {
    hide Inv, Inside, TraceStep, HelperStep, DequeEmpty, MainGoes, SomeDeque, Ahead;
    OneActive(s);
    t := Go(s, 0, TryLock(1));
    MainGo(s, t, TryLock(1));
  }

  lemma MainTries(s: State, k: int) returns (t: State)
    requires Inv(s) && Alone(s) && s.pcs[0] == TryLock(k)
    ensures MainGoes(s, t)
  {
    hide Inv, Inside, TraceStep, HelperStep, DequeEmpty, MainGoes, SomeDeque, Ahead, LockOf;
    MainIs(s);
    if k < s.n {
      LockIsFree(s, k);
      t := Go(s, 0, TryLock(k + 1)).(locks := s.locks[k := ByMain]);
      MainGo(s, t, TryLock(k + 1));
    } else {
      t := Go(s, 0, Scan(0));
      MainGo(s, t, Scan(0));
    }
  }

  lemma MainLocksAll(s: State, k: int) returns (t: State)
    requires Inv(s) && Alone(s) && s.pcs[0] == LockAll(k)
    ensures MainGoes(s, t)
  {
    hide Inv, Inside, TraceStep, HelperStep, DequeEmpty, MainGoes, SomeDeque, Ahead, LockOf;
    MainIs(s);
    if k < s.n {
      LockIsFree(s, k);
      t := Go(s, 0, LockAll(k + 1)).(locks := s.locks[k := ByMain]);
      MainGo(s, t, LockAll(k + 1));
    } else {
      t := Go(s, 0, Leave);
      MainGo(s, t, Leave);
    }
  }

  lemma MainIs(s: State)
    requires Inv(s)
    ensures 0 in s.pcs && MainPc(s.n, s.pcs[0])
  {
    hide Inv, MainPc;
    ShapeOf(s);
  }

  lemma MainScans(s: State, k: int) returns (t: State)
    requires Inv(s) && Alone(s) && s.pcs[0] == Scan(k)
    ensures MainGoes(s, t)
  {
    hide Inv, Inside, TraceStep, HelperStep, DequeEmpty, MainGoes, Ahead, VictimOf, Following, SomeDeque;
    MainIs(s);
    if k >= s.n {
      t := Go(s, 0, Leave);
      MainGo(s, t, Leave);
    } else if DequeEmpty(s.items, VictimOf(s, 0)) {
      t := Go(s, 0, Scan(k + 1)).(victim := s.victim[0 := Following(s.n, VictimOf(s, 0))]);
      MainGo(s, t, Scan(k + 1));
    } else {
      SeenNotEmpty(s.items, VictimOf(s, 0));
      t := Go(s, 0, Unwind(s.n));
      MainGo(s, t, Unwind(s.n));
    }
  }

  lemma MainUnwinds(s: State, k: int) returns (t: State)
    requires Inv(s) && Alone(s) && s.pcs[0] == Unwind(k)
    ensures MainGoes(s, t)
  {
    hide Inv, Inside, TraceStep, HelperStep, DequeEmpty, MainGoes, Ahead, SomeDeque;
    MainIs(s);
    if k > 1 {
      t := Go(s, 0, Unwind(k - 1)).(locks := s.locks[k - 1 := Free]);
      MainGo(s, t, Unwind(k - 1));
    } else {
      t := Go(s, 0, Pop);
      MainGo(s, t, Pop);
    }
  }

  lemma SeenNotEmpty(items: map<int, Place>, w: int)
    requires !DequeEmpty(items, w)
    ensures SomeDeque(items)
  {
  }

  lemma MainBegins(s: State) returns (t: State)
    requires Inv(s) && Alone(s) && (s.pcs[0].Unlock? || s.pcs[0].Enter?)
    ensures MainGoes(s, t)
  {
    hide Inv, Inside, MainGoes;
    match s.pcs[0] {
      case Unlock(k) =>
        if k < s.n {
          t := Go(s, 0, Unlock(k + 1)).(locks := s.locks[k := Free]);
          MainGo(s, t, Unlock(k + 1));
        } else {
          t := Go(s, 0, Unpark);
          MainGo(s, t, Unpark);
        }
      case Enter =>
        t := Go(s, 0, Roots).(active := s.active + 1);
        MainGo(s, t, Roots);
      case _ => assert false;
    }
  }

  /** Waking the helpers lets none of them in yet. */
  lemma MainUnparks(s: State) returns (t: State)
    requires Alone(s) && s.pcs[0].Unpark?
    ensures MainGoes(s, t)
  {
    hide Unmarked, Waiting;
    t := Go(Broadcast(s), 0, Enter);
    forall w ensures w !in Inside(t.pcs) {
      assert w !in Inside(s.pcs);
    }
    hide Inside;
    SameLess(s, t, MainRank(t, Enter), MainRank(s, Unpark));
  }

  lemma EmptiedSame(s: State, t: State)
    requires t.graph == s.graph && t.items == s.items && s.roots.read >= |s.roots.ids| && t.roots == RootList(0, [], map[])
    ensures Unmarked(t) == Unmarked(s) && Waiting(t) == Waiting(s)
  {
  }

  lemma MainLeaves(s: State) returns (t: State)
    requires Inv(s) && Alone(s) && s.pcs[0].Leave?
    ensures MainGoes(s, t) && t.pcs[0].Out?
  {
    hide LocksOk, HeldMeansWaiting, HandsOk, RootsOk, ScanOk, Tracers, Unmarked, Waiting, Inside;
    t := Go(s, 0, Out).(active := s.active - 1, roots := RootList(0, [], map[]));
    EmptiedSame(s, t);
    assert Alone(t) by { StillAlone(s, t); }
  }

  /** Worker 0, all helpers waiting, can always take a step towards leaving. */
  lemma MainOnce(s: State) returns (t: State)
    requires Inv(s) && Alone(s) && !s.pcs[0].Out?
    ensures MainGoes(s, t)
  {
    hide Inv, MainGoes, Inside;
    ShapeOf(s);
    match s.pcs[0] {
      case Unlock(_) => t := MainBegins(s);
      case Unpark => t := MainUnparks(s);
      case Enter => t := MainBegins(s);
      case Roots => t := MainWorks(s);
      case Root(_, _, _) => t := MainWorks(s);
      case Trace(_, _, _) => t := MainWorks(s);
      case LockAll(k) => t := MainLocksAll(s, k);
      case Pop => t := MainTurns(s);
      case Steal(k) => t := MainSteals(s, k);
      case Should => t := MainChecks(s);
      case TryLock(k) => t := MainTries(s, k);
      case Scan(k) => t := MainScans(s, k);
      case Unwind(k) => t := MainUnwinds(s, k);
      case Leave => t := MainLeaves(s);
      case _ => assert false;
    }
  }

  lemma {:induction false} MainEnds(s: State) returns (t: State)
    requires Inv(s) && Alone(s)
    ensures CanReach(Next, s, t) && Inv(t) && SameTrace(s, t) && 0 in t.pcs && t.pcs[0].Out?
    decreases Unmarked(s), Waiting(s), MainRank(s, s.pcs[0])
  {
    hide Inv, Step, Unmarked, Waiting, MainRank, CanReach, Next, Inside;
    if s.pcs[0].Out? {
      t := s;
      ReachesSelf(Next, s);
    } else {
      var u := MainOnce(s);
      StepKeepsInv(s, u, 0);
      NextOf(s, u, 0);
      t := MainEnds(u);
      ReachesNext(Next, s, u, t);
    }
  }

  // ----- the results -----------------------------------------------------------------------

  /** From every state of every run the trace worker 0 is in can come to its end, no root added meanwhile. */
  lemma CanEnd(run: seq<State>, i: nat) returns (end: State)
    requires Run(run) && i < |run|
    ensures CanReach(Next, run[i], end) && 0 in end.pcs && end.pcs[0].Out?
    ensures end.added == run[i].added && end.graph == run[i].graph && end.rootsOnly == run[i].rootsOnly
  {
    hide Init, Next, CanReach, Step;
    var s := run[i];
    RunKeepsInv(run, i);
    hide Inv;
    ShapeOf(s);
    var u := HelpersWait(s);
    ShapeOf(u);
    end := MainEnds(u);
    ReachesTrans(Next, s, u, end);
  }

  /** Between traces worker 0 can add any root, and begin a trace of either kind. */
  lemma CanBegin(s: State, id: int, rootsOnly: bool) returns (added: State, begun: State)
    requires 0 in s.pcs && s.pcs[0].Out?
    ensures Next(s, added) && added.added == s.added + {id} && added.pcs == s.pcs
    ensures Next(s, begun) && begun.rootsOnly == rootsOnly && 0 in begun.pcs && begun.pcs[0] == Unlock(1)
  {
    added := s.(roots := s.roots.(ids := s.roots.ids + [id]), added := s.added + {id});
    assert AddRoot(s, added, id);
    assert Step(s, added, 0);
    begun := Go(s, 0, Unlock(1)).(rootsOnly := rootsOnly);
    assert Step(s, begun, 0);
  }

  // ----- the helpers are called ------------------------------------------------------------

  /** No helper has seen an epoch that has not begun. */
  ghost predicate SeenOk(s: State) {
    forall w :: SeenBy(s, w) <= s.epoch
  }

  /** A step that gives worker `w` a new place leaves the epoch and what was seen of it alone, but for what
      it is said to change. */
  lemma GoSees(s: State, s2: State, w: int, pc: Pc)
    requires s2 == Go(s, w, pc).(locks := s2.locks, victim := s2.victim, active := s2.active,
      rootsOnly := s2.rootsOnly, roots := s2.roots, items := s2.items)
    ensures s2.epoch == s.epoch && s2.seen == s.seen
  {
  }

  lemma HelperSees(s: State, s2: State, w: int)
    requires w in s.pcs && HelperStep(s, s2, w)
    ensures s2.epoch == s.epoch && (s2.seen == s.seen || s2.seen == s.seen[w := s.epoch])
  {
    hide LockOf, SeenBy, Go;
    match s.pcs[w] {
      case Asleep => GoSees(s, s2, w, Blocked);
      case Blocked => GoSees(s, s2, w, Check);
      case Check =>
        if SeenBy(s, w) == s.epoch {
          GoSees(s, s2, w, Asleep);
        } else {
          GoSees(s, Go(s, w, Enter), w, Enter);
        }
      case Leave => GoSees(s, s2, w, Park);
      case Park => GoSees(s, s2, w, Asleep);
      case _ =>
    }
  }

  lemma BroadcastSees(s: State, s2: State)
    requires s2 == Broadcast(s) || s2 == Go(Broadcast(s), 0, Enter)
    ensures s2.epoch >= s.epoch && s2.seen == s.seen
  {
  }

  lemma MainSees(s: State, s2: State)
    requires 0 in s.pcs && MainStep(s, s2)
    ensures s2.epoch >= s.epoch && s2.seen == s.seen
  {
    hide DequeEmpty, VictimOf, LockOf, Following, Go, Broadcast;
    match s.pcs[0] {
      case Out => OutSees(s, s2);
      case Unlock(k) => GoSees(s, s2, 0, if k < s.n then Unlock(k + 1) else Unpark);
      case Unpark => BroadcastSees(s, s2);
      case LockAll(k) => GoSees(s, s2, 0, if k < s.n then LockAll(k + 1) else Leave);
      case Should => GoSees(s, s2, 0, if s.active != 1 then Pop else TryLock(1));
      case TryLock(k) =>
        GoSees(s, s2, 0, if k >= s.n then Scan(0) else if LockOf(s, k) == Free then TryLock(k + 1) else Unwind(k));
      case Scan(k) =>
        GoSees(s, s2, 0, if k >= s.n then Leave else if DequeEmpty(s.items, VictimOf(s, 0)) then Scan(k + 1) else Unwind(s.n));
      case Unwind(k) => GoSees(s, s2, 0, if k > 1 then Unwind(k - 1) else Pop);
      case Leave => GoSees(s, s2, 0, Out);
      case _ =>
    }
  }

  lemma OutSees(s: State, s2: State)
    requires 0 in s.pcs && s.pcs[0].Out? && MainStep(s, s2)
    ensures s2.epoch == s.epoch && s2.seen == s.seen
  {
  }

  lemma VisitSees(s: State, s2: State, w: int)
    requires w in s.pcs && Visiting(s, s.pcs[w]) && VisitStep(s, s2, w)
    ensures s2.epoch == s.epoch && s2.seen == s.seen
  {
    hide RefsOf, Onward, Found, Go;
    var pc := s.pcs[w];
    if pc.met != 0 {
      GoSees(s, s2, w, Onward(pc));
    } else {
      var x := RefsOf(s.graph, s.roots.ids, pc)[pc.i];
      GoSees(s, s2, w, if x == 0 || x in s.items then Onward(pc) else Found(pc, x));
    }
  }

  lemma TracerSees(s: State, s2: State, w: int)
    requires w in s.pcs && TraceStep(s, s2, w)
    ensures s2.epoch >= s.epoch && s2.seen == s.seen
  {
    hide DequeEmpty, VictimOf, Following, Visiting, VisitStep, Go, Broadcast, Take;
    match s.pcs[w] {
      case Enter => GoSees(s, s2, w, Roots);
      case Roots =>
        GoSees(s, s2, w, if s.roots.read < |s.roots.ids| then Root(s.roots.read, 0, 0)
          else if !s.rootsOnly then Pop else if w == 0 then LockAll(1) else Leave);
      case Root(_, _, _) => if Visiting(s, s.pcs[w]) { VisitSees(s, s2, w); } else { GoSees(s, s2, w, Roots); }
      case Pop => if DequeEmpty(s.items, w) { GoSees(s, s2, w, Steal(0)); } else { TakeSees(s, s2, w, w); }
      case Steal(k) =>
        if Take(s, s2, w, VictimOf(s, w)) {
          TakeSees(s, s2, w, VictimOf(s, w));
        } else {
          GoSees(s, s2, w, if k < s.n then Steal(k + 1) else if w == 0 then Should else Leave);
        }
      case Trace(_, _, _) =>
        if s2 == Broadcast(s) {
          BroadcastSees(s, s2);
        } else if Visiting(s, s.pcs[w]) {
          VisitSees(s, s2, w);
        } else {
          GoSees(s, s2, w, Pop);
        }
      case _ =>
    }
  }

  lemma TakeSees(s: State, s2: State, w: int, from: int)
    requires Take(s, s2, w, from)
    ensures s2.epoch == s.epoch && s2.seen == s.seen
  {
  }

  lemma SeenStays(s: State, s2: State, w: int)
    requires SeenOk(s) && s2.epoch >= s.epoch && (s2.seen == s.seen || s2.seen == s.seen[w := s.epoch])
    ensures SeenOk(s2)
  {
    forall v ensures SeenBy(s2, v) <= s2.epoch {
      assert SeenBy(s, v) <= s.epoch;
    }
  }

  lemma StepSees(s: State, s2: State, w: int)
    requires SeenOk(s) && Step(s, s2, w)
    ensures SeenOk(s2)
  {
    hide TraceStep, MainStep, HelperStep, SeenOk;
    if TraceStep(s, s2, w) {
      TracerSees(s, s2, w);
    } else if w == 0 {
      MainSees(s, s2);
    } else {
      HelperSees(s, s2, w);
    }
    SeenStays(s, s2, w);
  }

  lemma {:induction false} RunSees(run: seq<State>, i: nat)
    requires Run(run) && i < |run|
    ensures SeenOk(run[i])
  {
    hide Step, SeenOk;
    if i == 0 {
      assert SeenOk(run[0]) by { InitSees(run[0]); }
    } else {
      RunSees(run, i - 1);
      var w :| Step(run[i - 1], run[i], w);
      StepSees(run[i - 1], run[i], w);
    }
  }

  lemma InitSees(s: State)
    requires Init(s)
    ensures SeenOk(s)
  {
  }

  /** When worker 0 begins a trace it calls every helper: none sleeps on, and none has seen this epoch yet. */
  lemma AllCalled(run: seq<State>, i: nat, s2: State)
    requires Run(run) && i < |run| && 0 in run[i].pcs && run[i].pcs[0].Unpark? && Step(run[i], s2, 0)
    ensures forall w | w in s2.pcs :: !s2.pcs[w].Asleep? && SeenBy(s2, w) != s2.epoch
  {
    RunSees(run, i);
    UnparkIs(run[i], s2);
    UnparkCalls(run[i], s2);
  }

  lemma UnparkCalls(s: State, s2: State)
    requires SeenOk(s) && s2 == Go(Broadcast(s), 0, Enter)
    ensures forall w | w in s2.pcs :: !s2.pcs[w].Asleep? && SeenBy(s2, w) != s2.epoch
  {
    forall w | w in s2.pcs ensures !s2.pcs[w].Asleep? && SeenBy(s2, w) != s2.epoch {
      assert SeenBy(s, w) <= s.epoch;
    }
  }

  lemma UnparkIs(s: State, s2: State)
    requires 0 in s.pcs && s.pcs[0].Unpark? && Step(s, s2, 0)
    ensures s2 == Go(Broadcast(s), 0, Enter)
  {
    hide Go, Broadcast;
  }

  /** While it traces, and not all are active, worker 0 can call them again. */
  lemma CanCall(run: seq<State>, i: nat) returns (s2: State)
    requires Run(run) && i < |run| && 0 in run[i].pcs && run[i].pcs[0].Trace? && run[i].active < run[i].n
    ensures Next(run[i], s2) && s2.pcs.Keys == run[i].pcs.Keys
    ensures forall w | w in s2.pcs :: !s2.pcs[w].Asleep? && SeenBy(s2, w) != s2.epoch
  {
    var s := run[i];
    s2 := Broadcast(s);
    assert Step(s, s2, 0);
    RunSees(run, i);
    forall w | w in s2.pcs ensures !s2.pcs[w].Asleep? && SeenBy(s2, w) != s2.epoch {
      assert SeenBy(s, w) <= s.epoch;
    }
  }

  /** And a helper that was waiting then can join the trace. */
  lemma CanJoin(run: seq<State>, i: nat, s2: State, w: int) returns (t: State)
    requires Run(run) && i < |run| && 0 in run[i].pcs && run[i].pcs[0].Unpark? && Step(run[i], s2, 0)
    requires w in run[i].pcs && w != 0 && Waits(run[i].pcs[w])
    ensures CanReach(Next, s2, t) && t.pcs == s2.pcs[w := Roots] && t.active == s2.active + 1
  {
    hide Init, Next, Step, Run, CanReach, Inv;
    AllCalled(run, i, s2);
    RunKeepsInv(run, i);
    StepKeepsInv(run[i], s2, 0);
    UnparkIs(run[i], s2);
    CalledLock(s2, w);
    t := Joins(s2, w);
  }

  lemma CalledLock(s: State, w: int)
    requires Inv(s) && w in s.pcs && w != 0 && s.pcs[w].Blocked? && s.pcs[0].Enter?
    ensures LockOf(s, w) == Free && 0 in s.pcs
  {
    ShapeOf(s);
    hide HandsOk, RootsOk, RootsDone, ScanOk, Tracers;
  }

  lemma Joins(s: State, w: int) returns (t: State)
    requires w in s.pcs && 0 in s.pcs && w != 0 && s.pcs[w].Blocked? && LockOf(s, w) == Free && SeenBy(s, w) != s.epoch
    ensures CanReach(Next, s, t) && t.pcs == s.pcs[w := Roots] && t.active == s.active + 1
  {
    hide CanReach;
    var a := Go(s, w, Check).(locks := s.locks[w := ByHelper]);
    var b := Go(a, w, Enter).(seen := a.seen[w := a.epoch]);
    t := Go(b, w, Roots).(active := b.active + 1);
    assert Step(s, a, w) && Step(a, b, w) && Step(b, t, w);
    ReachesStep(Next, b, t);
    ReachesNext(Next, a, b, t);
    ReachesNext(Next, s, a, t);
  }
}
