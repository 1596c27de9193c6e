/** A phased dispatch with room for every chunk can always come to its end: what is in flight can come back,
    any worker can run the rest, and then all can leave. */
module PhasedEnds {
  import opened Basics
  import opened Runs
  import opened PhasedDispatch
  import opened PhasedRun

  /** A step of one of some workers. */
  ghost function Steps(may: set<int>): (State, State) -> bool {
    (s: State, s2: State) => exists w :: w in may && Step(s, s2, w)
  }

  ghost predicate Roomy(s: State, n: int) {
    Inv(s, n) && s.plan.chunk > 0 && Fits(s.plan)
  }

  lemma StepRoomy(s: State, s2: State, n: int, w: int)
    requires Roomy(s, n) && Step(s, s2, w)
    ensures Roomy(s2, n)
  {
    hide Inv, Step, Fits;
    StepKeepsInv(s, s2, n, w);
    StepSlices(s, s2, w);
    SlicesKept(s.plan, s2.plan);
    FitsSame(s.plan, s2.plan);
  }

  /** The worker alone moves. */
  ghost predicate OnlyMoves(s: State, s2: State, w: int) {
    w in s.workers && w in s2.workers && s2.workers == s.workers[w := s2.workers[w]]
  }

  lemma OnlyTrans(s: State, a: State, b: State, w: int)
    requires OnlyMoves(s, a, w) && OnlyMoves(a, b, w)
    ensures OnlyMoves(s, b, w)
  {
  }

  predicate Busy(pc: Pc) {
    pc.Running? || pc.Returned?
  }

  ghost function BusyOnes(s: State): set<int> {
    set w | w in s.workers && Busy(s.workers[w])
  }

  lemma FewerBusy(s: State, s2: State, w: int)
    requires OnlyMoves(s, s2, w) && Busy(s.workers[w]) && !Busy(s2.workers[w])
    ensures |BusyOnes(s2)| < |BusyOnes(s)| && BusyOnes(s2) <= BusyOnes(s)
  {
    hide Busy;
    assert BusyOnes(s) == BusyOnes(s2) + {w};
  }

  lemma SomeBusy(s: State) returns (w: int)
    requires BusyOnes(s) != {}
    ensures w in BusyOnes(s) && w in s.workers && Busy(s.workers[w])
  {
    w := Pick(BusyOnes(s));
  }

  lemma ReturnCan(s: State, n: int, w: int) returns (s2: State)
    requires Roomy(s, n) && w in s.workers && s.workers[w].Returned?
    ensures Step(s, s2, w) && OnlyMoves(s, s2, w) && s2.workers[w].Grabbing? && s2.calls == s.calls && s2.plan.phases == s.plan.phases
  {
    hide CallsOk, Tiles, LiveOk, CursorsOk, GroupsOk, Fits, Retire;
    assert FlightOk(s.workers[w], s.plan.groups, s.plan.phases);
    RetireSame(s.plan);
    var c := s.workers[w].c;
    var gi := GroupOf(s.plan.groups, c.lo, 0);
    s2 := Go(s, w, Grabbing(s.workers[w].home)).(plan := if gi == |s.plan.groups| then s.plan else Retire(s.plan, gi));
  }

  lemma RetireSame(p: Plan)
    requires p.chunk > 0
    ensures forall gi | 0 <= gi < |p.groups| :: Retire(p, gi).phases == p.phases
  {
  }

  /** What is in flight can come back. */
  lemma CanComeBack(s: State, n: int, may: set<int>, w: int) returns (t: State)
    requires Roomy(s, n) && w in may && w in s.workers && Busy(s.workers[w])
    ensures CanReach(Steps(may), s, t) && Roomy(t, n) && OnlyMoves(s, t, w) && t.workers[w].Grabbing?
    ensures t.calls == s.calls && t.plan.phases == s.plan.phases
  {
    hide Roomy;
    var a := s;
    ReachesSelf(Steps(may), s);
    if s.workers[w].Running? {
      a := Go(s, w, Returned(s.workers[w].home, s.workers[w].c));
      RoomyChunk(s, n);
      assert Step(s, a, w);
      StepRoomy(s, a, n, w);
      NextStep(s, a, may, w);
      ReachesStep(Steps(may), s, a);
    }
    hide Step, Steps;
    t := ReturnCan(a, n, w);
    StepRoomy(a, t, n, w);
    NextStep(a, t, may, w);
    ReachesStep(Steps(may), a, t);
    ReachesTrans(Steps(may), s, a, t);
  }

  lemma NextStep(s: State, s2: State, may: set<int>, w: int)
    requires Step(s, s2, w) && w in may
    ensures Steps(may)(s, s2)
  {
    hide Step;
  }

  lemma RoomyChunk(s: State, n: int)
    requires Roomy(s, n)
    ensures s.plan.chunk > 0
  {
  }

  lemma AllCanComeBack(s: State, n: int, may: set<int>) returns (t: State)
    requires Roomy(s, n) && BusyOnes(s) <= may
    ensures CanReach(Steps(may), s, t) && Roomy(t, n) && BusyOnes(t) == {} && t.workers.Keys == s.workers.Keys
    decreases |BusyOnes(s)|
  {
    hide Roomy, BusyOnes, Busy;
    if BusyOnes(s) == {} {
      ReachesSelf(Steps(may), s);
      t := s;
    } else {
      var w := SomeBusy(s);
      var a := CanComeBack(s, n, may, w);
      IdleNow(a, w);
      FewerBusy(s, a, w);
      t := AllCanComeBack(a, n, may);
      ReachesTrans(Steps(may), s, a, t);
    }
  }

  lemma IdleNow(s: State, w: int)
    requires w in s.workers && s.workers[w].Grabbing?
    ensures !Busy(s.workers[w])
  {
  }

  // ----- the rest of the work --------------------------------------------------------------

  /** What has not been given to the kernel yet. */
  ghost function Unrun(calls: seq<Grabbed>, phases: int, n: int): set<(int, int)> {
    set q, x | 0 <= q < phases && 0 <= x < n && Times(calls, q, x) == 0 :: (q, x)
  }

  lemma FewerUnrun(calls: seq<Grabbed>, r: Grabbed, phases: int, n: int)
    requires r.Chunk? && 0 <= r.phase < phases && 0 <= r.lo < r.hi <= n && Times(calls, r.phase, r.lo) == 0
    ensures |Unrun(calls + [r], phases, n)| < |Unrun(calls, phases, n)|
  {
    var a, b := Unrun(calls, phases, n), Unrun(calls + [r], phases, n);
    assert (calls + [r])[..|calls|] == calls;
    assert (r.phase, r.lo) in a && (r.phase, r.lo) !in b;
    assert b <= a;
    SubsetSize(b, a - {(r.phase, r.lo)});
  }

  /** A chunk grabbed has not been run. */
  lemma GrabbedUnrun(s: State, n: int, home: nat)
    requires Roomy(s, n) && Grab(s.plan, home).Chunk?
    ensures var r := Grab(s.plan, home);
      0 <= r.phase < s.plan.phases && 0 <= r.lo < r.hi <= n && Times(s.calls, r.phase, r.lo) == 0
  {
    GrabSays(s.plan, home);
    var r := Grab(s.plan, home);
    hide Grab, LiveOk, FlightsOk, Fits, Times;
    GrabFits(s.plan, r.g);
    SliceInside(s.plan.groups, n, r.g);
    assert GroupOk(s.plan.groups[r.g], s.plan.phases);
    GroupOfIs(s.plan.groups, n, r.g, r.lo);
    assert !Handed(s.plan, r.phase, r.lo);
  }

  lemma CanTakeChunk(s: State, n: int, w: int) returns (a: State)
    requires Roomy(s, n) && w in s.workers && s.workers[w].Grabbing? && Grab(s.plan, s.workers[w].home).Chunk?
    ensures Step(s, a, w) && Roomy(a, n) && OnlyMoves(s, a, w) && a.workers[w].Running?
    ensures a.calls == s.calls + [Grab(s.plan, s.workers[w].home)] && a.plan.phases == s.plan.phases
  {
    hide Roomy;
    RoomyChunk(s, n);
    var home := s.workers[w].home;
    var r := Grab(s.plan, home);
    GrabSays(s.plan, home);
    hide Grab;
    a := Go(s, w, Running(home, r)).(plan := AfterGrab(s.plan, r), calls := s.calls + [r]);
    assert Step(s, a, w);
    StepRoomy(s, a, n, w);
  }

  lemma StillNone(s: State, t: State, w: int)
    requires OnlyMoves(s, t, w) && BusyOnes(s) == {} && !Busy(t.workers[w])
    ensures BusyOnes(t) == {}
  {
    forall v ensures v !in BusyOnes(t) { assert v !in BusyOnes(s); }
  }

  /** One chunk more. */
  lemma CanRunChunk(s: State, n: int, may: set<int>, w: int) returns (t: State)
    requires Roomy(s, n) && w in may && w in s.workers && s.workers[w].Grabbing? && Grab(s.plan, s.workers[w].home).Chunk?
    requires BusyOnes(s) == {}
    ensures CanReach(Steps(may), s, t) && Roomy(t, n) && OnlyMoves(s, t, w) && t.workers[w].Grabbing? && BusyOnes(t) == {}
    ensures t.plan.phases == s.plan.phases && |Unrun(t.calls, t.plan.phases, n)| < |Unrun(s.calls, s.plan.phases, n)|
  {
    hide Unrun, Roomy, Step, Steps, Grab, BusyOnes;
    var home := s.workers[w].home;
    var a := CanTakeChunk(s, n, w);
    NextStep(s, a, may, w);
    ReachesStep(Steps(may), s, a);
    GrabbedUnrun(s, n, home);
    FewerUnrun(s.calls, Grab(s.plan, home), s.plan.phases, n);
    t := CanComeBack(a, n, may, w);
    ReachesTrans(Steps(may), s, a, t);
    OnlyTrans(s, a, t, w);
    StillNone(s, t, w);
  }

  /** Any worker can run all that is left. */
  lemma CanRunAll(s: State, n: int, may: set<int>, w: int) returns (t: State)
    requires Roomy(s, n) && w in may && w in s.workers && s.workers[w].Grabbing? && BusyOnes(s) == {}
    ensures CanReach(Steps(may), s, t) && Roomy(t, n) && OnlyMoves(s, t, w) && t.workers[w].Grabbing? && t.plan.done == |t.plan.groups|
    ensures BusyOnes(t) == {}
    decreases |Unrun(s.calls, s.plan.phases, n)|
  {
    hide Roomy, Unrun, Steps, BusyOnes, Grab;
    var r := Grab(s.plan, s.workers[w].home);
    if r == Finished {
      FinishedMeansDone(s.plan, s.workers[w].home);
      ReachesSelf(Steps(may), s);
      t := s;
    } else {
      SomethingToDo(s, n, w);
      var a := CanRunChunk(s, n, may, w);
      t := CanRunAll(a, n, may, w);
      OnlyTrans(s, a, t, w);
      ReachesTrans(Steps(may), s, a, t);
    }
  }

  lemma SomethingToDo(s: State, n: int, w: int)
    requires Roomy(s, n) && w in s.workers && s.workers[w].Grabbing? && BusyOnes(s) == {}
    ensures Grab(s.plan, s.workers[w].home) != Nothing
  {
    hide Roomy, Grab;
    if Grab(s.plan, s.workers[w].home) == Nothing { var v := BusyOne(s, n, s.workers[w].home); }
  }

  lemma BusyOne(s: State, n: int, home: nat) returns (w: int)
    requires Roomy(s, n) && Grab(s.plan, home) == Nothing
    ensures w in BusyOnes(s)
  {
    hide Inv, Fits, Grab;
    NothingWhileBusy(s, n, home);
    var v, gi :| v in s.workers && 0 <= gi < |s.plan.groups| && InFlight(s.workers[v], gi);
    w := v;
  }

  // ----- everybody leaves ------------------------------------------------------------------

  ghost function Here(s: State): set<int> {
    set w | w in s.workers && s.workers[w] != Left
  }

  /** A worker that is not busy can begin to grab. */
  lemma CanGrab(s: State, n: int, may: set<int>, w: int) returns (t: State)
    requires Roomy(s, n) && w in may && w in s.workers && s.workers[w] != Left && BusyOnes(s) == {}
    ensures CanReach(Steps(may), s, t) && Roomy(t, n) && OnlyMoves(s, t, w) && t.workers[w].Grabbing? && t.plan == s.plan && BusyOnes(t) == {}
  {
    hide Roomy;
    assert w !in BusyOnes(s);
    if s.workers[w].Idle? {
      t := Go(s, w, Grabbing(0));
      RoomyChunk(s, n);
      assert Step(s, t, w);
      NextStep(s, t, may, w);
      StepRoomy(s, t, n, w);
      ReachesStep(Steps(may), s, t);
      StillNone(s, t, w);
    } else {
      ReachesSelf(Steps(may), s);
      t := s;
    }
  }

  lemma CanLeave(s: State, n: int, may: set<int>, w: int) returns (t: State)
    requires Roomy(s, n) && w in may && w in s.workers && s.workers[w].Grabbing? && s.plan.done == |s.plan.groups| && BusyOnes(s) == {}
    ensures CanReach(Steps(may), s, t) && Roomy(t, n) && OnlyMoves(s, t, w) && t.workers[w] == Left && t.plan == s.plan && BusyOnes(t) == {}
  {
    hide Roomy;
    t := Go(s, w, Left);
    RoomyChunk(s, n);
    assert Step(s, t, w);
    NextStep(s, t, may, w);
    StepRoomy(s, t, n, w);
    ReachesStep(Steps(may), s, t);
    StillNone(s, t, w);
  }

  lemma OneLess(s: State, t: State, w: int)
    requires OnlyMoves(s, t, w) && s.workers[w] != Left && t.workers[w] == Left
    ensures |Here(t)| < |Here(s)|
  {
    assert Here(s) == Here(t) + {w};
  }

  lemma SomeHere(s: State) returns (w: int)
    requires Here(s) != {}
    ensures w in s.workers && s.workers[w] != Left
  {
    w := Pick(Here(s));
  }

  lemma NoneHere(s: State)
    requires Here(s) == {}
    ensures forall w | w in s.workers :: s.workers[w] == Left
  {
    assert forall w | w in s.workers && s.workers[w] != Left :: w in Here(s);
  }

  lemma CanLeaveFrom(s: State, n: int, may: set<int>, w: int) returns (t: State)
    requires Roomy(s, n) && BusyOnes(s) == {} && w in may && w in s.workers && s.workers[w] != Left
    ensures CanReach(Steps(may), s, t) && Roomy(t, n) && BusyOnes(t) == {} && OnlyMoves(s, t, w) && t.workers[w] == Left
  {
    hide Roomy, BusyOnes, Steps;
    var a := CanGrab(s, n, may, w);
    var b := CanRunAll(a, n, may, w);
    t := CanLeave(b, n, may, w);
    ReachesTrans(Steps(may), s, a, b);
    ReachesTrans(Steps(may), s, b, t);
    OnlyTrans(s, a, b, w);
    OnlyTrans(s, b, t, w);
  }

  lemma AllCanLeave(s: State, n: int, may: set<int>) returns (t: State)
    requires Roomy(s, n) && BusyOnes(s) == {} && s.workers.Keys <= may
    ensures CanReach(Steps(may), s, t) && forall w | w in t.workers :: t.workers[w] == Left
    decreases |Here(s)|
  {
    hide Roomy, BusyOnes, Steps, Here;
    if Here(s) == {} {
      NoneHere(s);
      ReachesSelf(Steps(may), s);
      t := s;
    } else {
      var w := SomeHere(s);
      var a := CanLeaveFrom(s, n, may, w);
      OneLess(s, a, w);
      t := AllCanLeave(a, n, may);
      ReachesTrans(Steps(may), s, a, t);
    }
  }

  /** With room for every chunk: from every state of every run all workers can come to be told that the
      dispatch is finished. */
  lemma CanFinish(run: seq<State>, n: int, i: nat) returns (t: State)
    requires Run(run, n) && i < |run| && Fits(run[0].plan)
    ensures CanReach(Steps(run[i].workers.Keys), run[i], t) && forall w | w in t.workers :: t.workers[w] == Left
  {
    RunKeepsInv(run, n, i);
    hide Inv, Fits, Run, Steps;
    var s := run[i];
    assert BusyOnes(s) <= s.workers.Keys;
    var a := AllCanComeBack(s, n, s.workers.Keys);
    t := AllCanLeave(a, n, s.workers.Keys);
    ReachesTrans(Steps(s.workers.Keys), s, a, t);
  }
}
