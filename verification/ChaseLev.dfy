/** The work-stealing deque as a state machine: one owner, any number of thieves, every shared
    access a step of its own.  Memory is sequentially consistent and the counters do not wrap. */
module ChaseLev {
  import opened Basics

  type Ref = int

  datatype Buffer = Buffer(size: nat, data: seq<Ref>)

  /** Where the owner is, with the locals it has loaded, and after a call what it got. */
  datatype Owner =
    | Idle(got: Option<Ref>)
    | PushTop(x: Ref, b: int)
    | PushActive(x: Ref, b: int, t: int)
    | Growing(x: Ref, b: int, t: int, a: nat, i: int)   // copying slot i of buffer a to buffer a+1
    | PushPut(x: Ref, b: int, a: nat)
    | PushBottom(x: Ref, b: int)
    | PopActive(b: int)
    | PopStore(b: int, a: nat)
    | PopTop(b: int, a: nat)
    | PopGet(b: int, a: nat, t: int)
    | PopCas(b: int, t: int, x: Ref)
    | PopRestore(b: int, got: Option<Ref>)
    | Crashed

  datatype Thief =
    | Out(got: Option<Ref>)
    | StealBottom(t: int)
    | StealActive(t: int)
    | StealGet(t: int, a: nat)
    | StealCas(t: int, ref: Ref)

  /** `items` are the references now in the deque, oldest first; `pushed` and `taken` record
      every reference handed in and handed out. */
  datatype State = State(
    bottom: int, top: int, active: nat, bufs: seq<Buffer>,
    owner: Owner, thieves: map<nat, Thief>,
    items: seq<Ref>, pushed: multiset<Ref>, taken: multiset<Ref>)

  const MAX_BUFFERS: nat := 19

  function Get(buf: Buffer, i: int): Ref
    requires buf.size == |buf.data| > 0
  {
    buf.data[i % buf.size]
  }

  function Put(buf: Buffer, i: int, x: Ref): (r: Buffer)
    requires buf.size == |buf.data| > 0
    ensures r.size == |r.data| == buf.size
  {
    buf.(data := buf.data[i % buf.size := x])
  }

  function WithoutFirst(q: seq<Ref>): seq<Ref> {
    if q == [] then [] else q[1..]
  }

  function WithoutLast(q: seq<Ref>): seq<Ref> {
    if q == [] then [] else q[..|q| - 1]
  }

  ghost predicate BuffersOk(s: State) {
    && s.active < |s.bufs|
    && forall k | 0 <= k < |s.bufs| :: s.bufs[k].size == |s.bufs[k].data| > 0
  }

  ghost predicate Init(s: State) {
    && s.bottom == s.top == 0 && s.active == 0
    && |s.bufs| == 1 && s.bufs[0].size == |s.bufs[0].data| == 1024
    && s.owner == Idle(None)
    && (forall id | id in s.thieves :: s.thieves[id] == Out(None))
    && s.items == [] && s.pushed == multiset{} && s.taken == multiset{}
  }

  // ----- owner steps -----------------------------------------------------------------------

  ghost predicate PushStep(s: State, s2: State)
    requires BuffersOk(s)
  {
    match s.owner
    case Idle(_) => exists x :: s2 == s.(owner := PushTop(x, s.bottom))
    case PushTop(x, b) => s2 == s.(owner := PushActive(x, b, s.top))
    case PushActive(x, b, t) =>
      if b - t > s.bufs[s.active].size - 1 then
        s2 == s.(owner := Crashed)   // the largest buffer is full, or no memory for the next
        || (s.active + 1 < MAX_BUFFERS && exists grown: Buffer ::
          && grown.size == |grown.data| == 2 * s.bufs[s.active].size
          && s2 == s.(bufs := s.bufs[..s.active + 1] + [grown], owner := Growing(x, b, t, s.active, t)))
      else s2 == s.(owner := PushPut(x, b, s.active))
    case Growing(x, b, t, a, i) =>
      && a + 1 < |s.bufs|
      && if i < b then
           s2 == s.(bufs := s.bufs[a + 1 := Put(s.bufs[a + 1], i, Get(s.bufs[a], i))], owner := s.owner.(i := i + 1))
         else
           s2 == s.(active := a + 1, owner := PushPut(x, b, a + 1))
    case PushPut(x, b, a) =>
      a < |s.bufs| && s2 == s.(bufs := s.bufs[a := Put(s.bufs[a], b, x)], owner := PushBottom(x, b))
    case PushBottom(x, b) =>
      s2 == s.(bottom := b + 1, owner := Idle(None), items := s.items + [x], pushed := s.pushed + multiset{x})
    case _ => false
  }

  ghost predicate PopStep(s: State, s2: State)
    requires BuffersOk(s)
  {
    match s.owner
    case Idle(_) => s2 == s.(owner := PopActive(s.bottom))
    case PopActive(b) => s2 == s.(owner := PopStore(b, s.active))
    case PopStore(b, a) => s2 == s.(bottom := b - 1, owner := PopTop(b, a))
    case PopTop(b, a) =>
      s2 == s.(owner := if b - s.top > 0 then PopGet(b, a, s.top) else PopRestore(b, None))
    case PopGet(b, a, t) =>
      a < |s.bufs| &&
      var x := Get(s.bufs[a], b - 1);
      if b - t == 1 then s2 == s.(owner := PopCas(b, t, x))
      else s2 == s.(owner := Idle(Some(x)), items := WithoutLast(s.items), taken := s.taken + multiset{x})
    case PopCas(b, t, x) =>
      if s.top == t then
        s2 == s.(top := t + 1, owner := PopRestore(b, Some(x)), items := WithoutFirst(s.items), taken := s.taken + multiset{x})
      else s2 == s.(owner := PopRestore(b, None))
    case PopRestore(b, got) => s2 == s.(bottom := b, owner := Idle(got))
    case _ => false
  }

  // ----- thief steps -----------------------------------------------------------------------

  ghost predicate StealStep(s: State, s2: State, id: nat)
    requires BuffersOk(s) && id in s.thieves
  {
    match s.thieves[id]
    case Out(_) => s2 == s.(thieves := s.thieves[id := StealBottom(s.top)])
    case StealBottom(t) =>
      s2 == s.(thieves := s.thieves[id := if s.bottom - t <= 0 then Out(None) else StealActive(t)])
    case StealActive(t) => s2 == s.(thieves := s.thieves[id := StealGet(t, s.active)])
    case StealGet(t, a) =>
      a < |s.bufs| && s2 == s.(thieves := s.thieves[id := StealCas(t, Get(s.bufs[a], t))])
    case StealCas(t, ref) =>
      if s.top == t then
        s2 == s.(top := t + 1, thieves := s.thieves[id := Out(Some(ref))], items := WithoutFirst(s.items), taken := s.taken + multiset{ref})
      else s2 == s.(thieves := s.thieves[id := StealBottom(s.top)])
  }

  ghost predicate Next(s: State, s2: State) {
    BuffersOk(s) && (PushStep(s, s2) || PopStep(s, s2) || exists id :: id in s.thieves && StealStep(s, s2, id))
  }

  // ----- the invariant ---------------------------------------------------------------------

  function LogicalBottom(s: State): int {
    s.top + |s.items|
  }

  /** The buffer holds every item of the deque at its slot. */
  ghost predicate Stores(s: State, buf: Buffer) {
    && buf.size == |buf.data| > 0
    && |s.items| <= buf.size
    && forall i | 0 <= i < |s.items| :: Get(buf, s.top + i) == s.items[i]
  }

  ghost predicate OwnerOk(s: State)
    requires BuffersOk(s)
  {
    var lb := LogicalBottom(s);
    match s.owner
    case Idle(_) => s.bottom == lb
    case PushTop(x, b) => b == s.bottom == lb
    case PushActive(x, b, t) => b == s.bottom == lb && 0 <= t <= s.top
    case Growing(x, b, t, a, i) =>
      && b == s.bottom == lb && 0 <= t <= s.top && a == s.active && |s.bufs| == a + 2 && t <= i <= b
      && s.bufs[a + 1].size == 2 * s.bufs[a].size
      && forall k | 0 <= k < |s.items| && s.top + k < i :: Get(s.bufs[a + 1], s.top + k) == s.items[k]
    case PushPut(x, b, a) => b == s.bottom == lb && a == s.active && |s.items| < s.bufs[a].size
    case PushBottom(x, b) =>
      b == s.bottom == lb && |s.items| < s.bufs[s.active].size && Get(s.bufs[s.active], b) == x
    case PopActive(b) => b == s.bottom == lb
    case PopStore(b, a) => b == s.bottom == lb && a == s.active
    case PopTop(b, a) => s.bottom == b - 1 && b == lb && a == s.active
    case PopGet(b, a, t) =>
      && s.bottom == b - 1 && b == lb && a == s.active && 0 <= t <= s.top && t < b
      && (b - t > 1 ==> s.top < b && forall id | id in s.thieves && Validated(s.thieves[id]) :: s.thieves[id].t < b - 1)
    case PopCas(b, t, x) =>
      && s.bottom == b - 1 && b == lb && t == b - 1 && t <= s.top
      && (s.top == t ==> s.items == [x])
    case PopRestore(b, _) => s.bottom == b - 1 && s.top == b == lb
    case Crashed => s.bottom == lb
  }

  /** The thief has seen that the deque held something at index `t`. */
  ghost predicate Validated(th: Thief) {
    th.StealActive? || th.StealGet? || th.StealCas?
  }

  /** A thief that can still win holds the right reference, or will read it. */
  ghost predicate ThiefOk(s: State, th: Thief)
    requires BuffersOk(s)
  {
    match th
    case Out(_) => true
    case StealBottom(t) => 0 <= t <= s.top
    case StealActive(t) => 0 <= t <= s.top && (t == s.top ==> |s.items| > 0)
    case StealGet(t, a) =>
      0 <= t <= s.top && a <= s.active && (t == s.top ==> |s.items| > 0 && Get(s.bufs[a], t) == s.items[0])
    case StealCas(t, ref) => 0 <= t <= s.top && (t == s.top ==> |s.items| > 0 && ref == s.items[0])
  }

  ghost predicate Inv(s: State) {
    && BuffersOk(s)
    && s.top >= 0
    && (s.owner.Growing? || |s.bufs| == s.active + 1)
    && Stores(s, s.bufs[s.active])
    && OwnerOk(s)
    && (forall id | id in s.thieves :: ThiefOk(s, s.thieves[id]))
    && s.pushed == s.taken + multiset(s.items)
  }

  /** Two different indexes less than a buffer's size apart use different slots. */
  lemma SlotsDiffer(i: int, j: int, n: int)
    requires n > 0 && i < j < i + n
    ensures i % n != j % n
  {
    MulBounds(n, j / n - i / n);
    assert j - i == n * (j / n - i / n) + (j % n - i % n);
  }

  lemma PutKeeps(buf: Buffer, i: int, x: Ref, j: int)
    requires buf.size == |buf.data| > 0
    ensures Get(Put(buf, i, x), i) == x
    ensures i != j && j - buf.size < i < j + buf.size ==> Get(Put(buf, i, x), j) == Get(buf, j)
  {
    if j < i < j + buf.size { SlotsDiffer(j, i, buf.size); }
    if i < j < i + buf.size { SlotsDiffer(i, j, buf.size); }
  }

  lemma InitInv(s: State)
    requires Init(s)
    ensures Inv(s)
  {
  }

  lemma GrowCopyKeepsInv(s: State, s2: State)
    requires Inv(s) && s.owner.Growing? && s.owner.i < s.owner.b && PushStep(s, s2)
    ensures Inv(s2)
  {
    hide Get, Put;
    var Growing(x, b, t, a, i) := s.owner;
    var to, v := s.bufs[a + 1], Get(s.bufs[a], i);
    forall k | 0 <= k < |s.items| && s.top + k < i + 1
      ensures Get(Put(to, i, v), s.top + k) == s.items[k]
    {
      PutKeeps(to, i, v, s.top + k);
    }
  }

  lemma PutKeepsInv(s: State, s2: State)
    requires Inv(s) && s.owner.PushPut? && PushStep(s, s2)
    ensures Inv(s2)
  {
    hide Get, Put;
    var PushPut(x, b, a) := s.owner;
    var buf := s.bufs[a];
    forall k | 0 <= k < |s.items|
      ensures Get(Put(buf, b, x), s.top + k) == s.items[k]
    {
      PutKeeps(buf, b, x, s.top + k);
    }
    PutKeeps(buf, b, x, b);
    forall id | id in s.thieves ensures ThiefOk(s2, s.thieves[id]) {
      assert ThiefOk(s, s.thieves[id]);
    }
  }

  lemma BottomKeepsInv(s: State, s2: State)
    requires Inv(s) && s.owner.PushBottom? && PushStep(s, s2)
    ensures Inv(s2)
  {
    hide Get, Put;
    forall id | id in s.thieves ensures ThiefOk(s2, s.thieves[id]) {
      assert ThiefOk(s, s.thieves[id]);
    }
    assert multiset(s.items + [s.owner.x]) == multiset(s.items) + multiset{s.owner.x};
  }

  lemma PushKeepsInv(s: State, s2: State)
    requires Inv(s) && PushStep(s, s2)
    ensures Inv(s2)
  {
    match s.owner
    case PushBottom(x, b) => BottomKeepsInv(s, s2);
    case PushPut(x, b, a) => PutKeepsInv(s, s2);
    case Growing(x, b, t, a, i) =>
      if i < b { GrowCopyKeepsInv(s, s2); } else { GrownKeepsInv(s, s2); }
    case _ => QuietPushKeepsInv(s, s2);
  }

  lemma GrownKeepsInv(s: State, s2: State)
    requires Inv(s) && s.owner.Growing? && s.owner.i >= s.owner.b && PushStep(s, s2)
    ensures Inv(s2)
  {
    hide Get, Put;
    forall id | id in s.thieves ensures ThiefOk(s2, s.thieves[id]) {
      assert ThiefOk(s, s.thieves[id]);
    }
  }

  lemma QuietPushKeepsInv(s: State, s2: State)
    requires Inv(s) && (s.owner.Idle? || s.owner.PushTop? || s.owner.PushActive?) && PushStep(s, s2)
    ensures Inv(s2)
  {
    hide Get, Put, Stores, ThiefOk;
    if |s2.bufs| != |s.bufs| {
      GrowStartsInv(s, s2);
    } else {
      assert s2 == s.(owner := s2.owner);
      ThievesStay(s, s2);
      StoresFits(s);
    }
  }

  lemma StoresFits(s: State)
    requires Inv(s)
    ensures |s.items| <= s.bufs[s.active].size
  {
    hide Get, OwnerOk, ThiefOk;
  }

  lemma GrowStartsInv(s: State, s2: State)
    requires Inv(s) && s.owner.PushActive? && PushStep(s, s2) && |s2.bufs| != |s.bufs|
    ensures Inv(s2)
  {
    hide Get, Put;
    forall id | id in s.thieves ensures ThiefOk(s2, s.thieves[id]) {
      assert ThiefOk(s, s.thieves[id]);
    }
  }

  /** The owner loads the newest item. */
  lemma LoadsLast(s: State)
    requires Inv(s) && s.owner.PopGet? && s.owner.b - s.owner.t != 1
    ensures s.owner.b - s.owner.t > 1 && s.owner.a == s.active
    ensures |s.items| > 0 && Get(s.bufs[s.active], s.owner.b - 1) == s.items[|s.items| - 1]
  {
    hide Get, ThiefOk;
    var n := |s.items|;
    assert n > 0;
    assert Get(s.bufs[s.active], s.top + (n - 1)) == s.items[n - 1];
  }

  lemma StoresAfterPop(s: State, s2: State)
    requires Inv(s) && |s.items| > 0
    requires s2.top == s.top && s2.items == s.items[..|s.items| - 1]
    ensures Stores(s2, s.bufs[s.active])
  {
    hide Get, OwnerOk, ThiefOk;
  }

  lemma SplitLast(q: seq<Ref>)
    requires |q| > 0
    ensures multiset(q) == multiset(q[..|q| - 1]) + multiset{q[|q| - 1]}
  {
    assert q == q[..|q| - 1] + [q[|q| - 1]];
  }

  /** Taking the newest item: with more than one item left no thief can reach it. */
  lemma TakeLast(s: State, s2: State)
    requires Inv(s) && s.owner.PopGet? && s.owner.b - s.owner.t != 1 && PopStep(s, s2)
    ensures s.owner.b - s.owner.t > 1
    ensures |s.items| > 0 && s2.items == s.items[..|s.items| - 1]
    ensures s2.taken == s.taken + multiset{s.items[|s.items| - 1]}
    ensures Stores(s2, s2.bufs[s2.active])
    ensures s2.pushed == s2.taken + multiset(s2.items)
  {
    hide Get, ThiefOk, OwnerOk, Stores;
    LoadsLast(s);
    SplitLast(s.items);
    StoresAfterPop(s, s2);
  }

  lemma LastIsSafe(s: State, s2: State, id: nat)
    requires Inv(s) && s.owner.PopGet? && s.owner.b - s.owner.t > 1 && id in s.thieves && ThiefOk(s, s.thieves[id])
    requires |s.items| > 0 && BuffersOk(s2)
    requires s2 == s.(items := s.items[..|s.items| - 1], owner := s2.owner, taken := s2.taken)
    ensures ThiefOk(s2, s.thieves[id])
  {
    hide Get, Put, Stores;
  }

  lemma PopGetKeepsInv(s: State, s2: State)
    requires Inv(s) && s.owner.PopGet? && PopStep(s, s2)
    ensures Inv(s2)
  {
    hide Get, Put, Stores, ThiefOk;
    var PopGet(b, a, t) := s.owner;
    if b - t != 1 {
      TakeLast(s, s2);
      forall id | id in s.thieves ensures ThiefOk(s2, s.thieves[id]) {
        assert ThiefOk(s, s.thieves[id]);
        LastIsSafe(s, s2, id);
      }
    } else {
      PopLooks(s, s2);
    }
  }

  lemma PopLooks(s: State, s2: State)
    requires Inv(s) && s.owner.PopGet? && s.owner.b - s.owner.t == 1 && PopStep(s, s2)
    ensures Inv(s2)
  {
    hide Get, Put;
    if s.top == s.owner.t {
      assert Get(s.bufs[s.active], s.top + 0) == s.items[0];
    }
    forall id | id in s.thieves ensures ThiefOk(s2, s.thieves[id]) {
      assert ThiefOk(s, s.thieves[id]);
    }
  }

  /** The race for the last item is decided by `top`. */
  lemma PopCasKeepsInv(s: State, s2: State)
    requires Inv(s) && s.owner.PopCas? && PopStep(s, s2)
    ensures Inv(s2)
  {
    hide Get, Put, ThiefOk, Stores;
    PopCasThieves(s, s2);
    PopCasStores(s, s2);
    if s.top == s.owner.t { LastTaken(s, s2); }
  }

  lemma PopCasStores(s: State, s2: State)
    requires Inv(s) && s.owner.PopCas? && PopStep(s, s2)
    ensures s2.active == s.active < |s.bufs| && s2.bufs == s.bufs && Stores(s2, s2.bufs[s2.active])
  {
    hide Get, Put, ThiefOk;
  }

  lemma LastTaken(s: State, s2: State)
    requires Inv(s) && s.owner.PopCas? && PopStep(s, s2) && s.top == s.owner.t
    ensures s2.items == [] && s2.taken + multiset(s2.items) == s.taken + multiset(s.items)
  {
    hide Get, Put, ThiefOk, Stores;
    assert s.items == [s.owner.x];
  }

  /** With `top` one further, no thief is at it. */
  lemma PopCasThieves(s: State, s2: State)
    requires Inv(s) && s.owner.PopCas? && PopStep(s, s2)
    ensures BuffersOk(s2) && forall id | id in s2.thieves :: ThiefOk(s2, s2.thieves[id])
  {
    hide Get, Put, Stores;
    forall id | id in s.thieves ensures ThiefOk(s2, s.thieves[id]) {
      assert ThiefOk(s, s.thieves[id]);
    }
  }

  /** A step that leaves the shared deque alone but for `bottom` costs no thief anything. */
  lemma ThievesStay(s: State, s2: State)
    requires Inv(s) && s2 == s.(bottom := s2.bottom, owner := s2.owner)
    ensures BuffersOk(s2) && Stores(s2, s2.bufs[s2.active])
    ensures forall id | id in s2.thieves :: ThiefOk(s2, s2.thieves[id])
  {
    hide Get, Put, OwnerOk;
    forall id | id in s.thieves ensures ThiefOk(s2, s.thieves[id]) {
      assert ThiefOk(s, s.thieves[id]);
    }
  }

  lemma ValidatedBelow(s: State, id: nat)
    requires Inv(s) && id in s.thieves && Validated(s.thieves[id])
    ensures s.thieves[id].t <= s.top
    ensures s.thieves[id].t == s.top ==> |s.items| > 0
  {
    hide Get, Put, Stores, OwnerOk;
    assert ThiefOk(s, s.thieves[id]);
  }

  lemma QuietPopKeepsInv(s: State, s2: State)
    requires Inv(s) && !s.owner.PopGet? && !s.owner.PopCas? && PopStep(s, s2)
    ensures Inv(s2)
  {
    hide Get, Put, Stores, ThiefOk;
    assert s2 == s.(bottom := s2.bottom, owner := s2.owner);
    ThievesStay(s, s2);
    if s.owner.PopTop? && s2.owner.PopGet? {
      forall id | id in s.thieves && Validated(s.thieves[id])
        ensures s.owner.b - s.top > 1 ==> s.thieves[id].t < s.owner.b - 1
      {
        ValidatedBelow(s, id);
      }
    }
  }

  lemma PopKeepsInv(s: State, s2: State)
    requires Inv(s) && PopStep(s, s2)
    ensures Inv(s2)
  {
    hide Inv;
    match s.owner
    case PopGet(_, _, _) => PopGetKeepsInv(s, s2);
    case PopCas(_, _, _) => PopCasKeepsInv(s, s2);
    case _ => QuietPopKeepsInv(s, s2);
  }

  /** A thief that wins the race for `top` holds the oldest item. */
  lemma TakeFirst(s: State, id: nat)
    requires Inv(s) && id in s.thieves && s.thieves[id].StealCas? && s.top == s.thieves[id].t
    ensures |s.items| > 0 && s.thieves[id].ref == s.items[0]
    ensures multiset(s.items) == multiset{s.items[0]} + multiset(s.items[1..])
  {
    hide Get, Put, Stores, OwnerOk;
    assert ThiefOk(s, s.thieves[id]);
    assert s.items == [s.items[0]] + s.items[1..];
  }

  /** With the oldest item gone the owner's view still holds. */
  lemma OwnerAfterSteal(s: State, s2: State, id: nat)
    requires Inv(s) && id in s.thieves && s.thieves[id].StealCas? && s.top == s.thieves[id].t && |s.items| > 0
    requires id in s2.thieves && s2.thieves[id].Out?
    requires s2 == s.(top := s.top + 1, items := s.items[1..], thieves := s.thieves[id := s2.thieves[id]], taken := s2.taken)
    ensures OwnerOk(s2)
  {
    hide Get, Put, Stores, ThiefOk;
    match s.owner
    case Growing(x, b, t, a, i) =>
      forall k | 0 <= k < |s2.items| && s2.top + k < i ensures Get(s2.bufs[a + 1], s2.top + k) == s2.items[k] {
        assert Get(s.bufs[a + 1], s.top + (k + 1)) == s.items[k + 1];
      }
    case PopGet(b, a, t) =>
      assert Validated(s.thieves[id]);
    case _ =>
  }

  lemma StoresAfterSteal(s: State, s2: State)
    requires Inv(s) && |s.items| > 0
    requires s2.top == s.top + 1 && s2.items == s.items[1..]
    ensures Stores(s2, s.bufs[s.active])
  {
    hide Get, Put, OwnerOk, ThiefOk;
    forall i | 0 <= i < |s2.items| ensures Get(s.bufs[s.active], s2.top + i) == s2.items[i] {
      assert Get(s.bufs[s.active], s.top + (i + 1)) == s.items[i + 1];
    }
  }

  lemma StealCasKeepsInv(s: State, s2: State, id: nat)
    requires Inv(s) && id in s.thieves && s.thieves[id].StealCas? && s.top == s.thieves[id].t && StealStep(s, s2, id)
    ensures Inv(s2)
  {
    hide Get, Put, Stores, OwnerOk;
    TakeFirst(s, id);
    StoresAfterSteal(s, s2);
    OwnerAfterSteal(s, s2, id);
    forall k | k in s2.thieves ensures ThiefOk(s2, s2.thieves[k]) {
      assert ThiefOk(s, s.thieves[k]);
    }
  }

  /** What a thief loads. */
  lemma ThiefLoads(s: State, id: nat)
    requires Inv(s) && id in s.thieves && s.thieves[id].StealActive?
    ensures ThiefOk(s, StealGet(s.thieves[id].t, s.active))
  {
    hide Put, OwnerOk;
    assert ThiefOk(s, s.thieves[id]);
    if s.thieves[id].t == s.top {
      assert Get(s.bufs[s.active], s.top + 0) == s.items[0];
    }
  }

  lemma OwnerAfterLook(s: State, s2: State, id: nat)
    requires Inv(s) && id in s.thieves && StealStep(s, s2, id) && s2 == s.(thieves := s2.thieves)
    ensures OwnerOk(s2)
  {
    hide Get, Put, Stores;
    assert ThiefOk(s, s.thieves[id]);
  }

  lemma QuietStealKeepsInv(s: State, s2: State, id: nat)
    requires Inv(s) && id in s.thieves && StealStep(s, s2, id)
    requires !(s.thieves[id].StealCas? && s.top == s.thieves[id].t)
    ensures Inv(s2)
  {
    hide Get, Put, Stores, OwnerOk;
    assert s2 == s.(thieves := s2.thieves);
    OwnerAfterLook(s, s2, id);
    SameStores(s, s2);
    if s.thieves[id].StealActive? { ThiefLoads(s, id); }
    ThiefAfterLook(s, s2, id);
    forall k | k in s2.thieves ensures ThiefOk(s2, s2.thieves[k]) {
      if k != id { assert ThiefOk(s, s.thieves[k]); }
    }
  }

  lemma SameStores(s: State, s2: State)
    requires Inv(s) && s2 == s.(thieves := s2.thieves)
    ensures Stores(s2, s2.bufs[s2.active])
  {
  }

  /** A thief that reads the top, sees the bottom above it and loads the slot keeps a true view. */
  lemma ThiefAfterLook(s: State, s2: State, id: nat)
    requires Inv(s) && id in s.thieves && StealStep(s, s2, id) && s2 == s.(thieves := s2.thieves)
    requires s.thieves[id].StealActive? ==> ThiefOk(s, StealGet(s.thieves[id].t, s.active))
    requires !(s.thieves[id].StealCas? && s.top == s.thieves[id].t)
    ensures id in s2.thieves && ThiefOk(s2, s2.thieves[id])
  {
    hide Get, Put, Stores;
    assert ThiefOk(s, s.thieves[id]);
  }

  lemma StealKeepsInv(s: State, s2: State, id: nat)
    requires Inv(s) && id in s.thieves && StealStep(s, s2, id)
    ensures Inv(s2)
  {
    hide Inv;
    if s.thieves[id].StealCas? && s.top == s.thieves[id].t {
      StealCasKeepsInv(s, s2, id);
    } else {
      QuietStealKeepsInv(s, s2, id);
    }
  }

  lemma NextKeepsInv(s: State, s2: State)
    requires Inv(s) && Next(s, s2)
    ensures Inv(s2)
  {
    hide Inv, PushStep, PopStep, StealStep;
    if PushStep(s, s2) {
      PushKeepsInv(s, s2);
    } else if PopStep(s, s2) {
      PopKeepsInv(s, s2);
    } else {
      var id :| id in s.thieves && StealStep(s, s2, id);
      StealKeepsInv(s, s2, id);
    }
  }

  // ----- what every run keeps --------------------------------------------------------------

  ghost predicate Run(run: seq<State>) {
    && |run| > 0 && Init(run[0])
    && forall i | 0 <= i < |run| - 1 :: Next(run[i], run[i + 1])
  }

  lemma {:induction false} RunKeepsInv(run: seq<State>, i: nat)
    requires Run(run) && i < |run|
    ensures Inv(run[i])
  {
    hide Inv, Init, Next;
    if i == 0 {
      InitInv(run[0]);
    } else {
      RunKeepsInv(run, i - 1);
      NextKeepsInv(run[i - 1], run[i]);
    }
  }

  /** The owner has taken one off `bottom` and has not put it back. */
  predicate Popping(o: Owner) {
    o.PopTop? || o.PopGet? || o.PopCas? || o.PopRestore?
  }

  /** Nothing lost and nothing returned twice: at every point of every run the references pushed
      are those returned so far and those in the slots from top up to bottom, one further while the
      owner is popping. */
  lemma NothingLostNothingTwice(run: seq<State>, i: nat)
    requires Run(run) && i < |run|
    ensures run[i].pushed == run[i].taken + multiset(run[i].items)
    ensures forall x :: run[i].taken[x] <= run[i].pushed[x]
    ensures BuffersOk(run[i])
    ensures run[i].top + |run[i].items| == run[i].bottom + if Popping(run[i].owner) then 1 else 0
    ensures forall k | 0 <= k < |run[i].items| :: run[i].items[k] == Get(run[i].bufs[run[i].active], run[i].top + k)
  {
    RunKeepsInv(run, i);
    BottomIs(run[i]);
  }

  lemma BottomIs(s: State)
    requires Inv(s)
    ensures s.top + |s.items| == s.bottom + if Popping(s.owner) then 1 else 0
  {
    hide Get, Put, Stores, ThiefOk;
  }

  /** The deque as one indivisible object: push at the young end, pop there, steal at the old end. */
  ghost predicate DequeStep(s: State, s2: State) {
    || (s2.items == s.items && s2.pushed == s.pushed && s2.taken == s.taken)
    || (exists x :: s2.items == s.items + [x] && s2.pushed == s.pushed + multiset{x} && s2.taken == s.taken)
    || (s.items != [] && s2.pushed == s.pushed
        && ((s2.items == s.items[1..] && s2.taken == s.taken + multiset{s.items[0]})
            || (s2.items == s.items[..|s.items| - 1] && s2.taken == s.taken + multiset{s.items[|s.items| - 1]})))
  }

  ghost predicate TakesOldest(s: State, s2: State) {
    s.items != [] && s2.items == s.items[1..] && s2.taken == s.taken + multiset{s.items[0]}
  }

  /** Every step is one operation of that object or none, and a step by a thief never takes from
      the young end: a thief gets the oldest reference. */
  lemma StepRefinesDeque(s: State, s2: State)
    requires Inv(s) && Next(s, s2)
    ensures DequeStep(s, s2)
    ensures forall id | id in s.thieves && StealStep(s, s2, id) :: s2.items == s.items || TakesOldest(s, s2)
  {
    hide Get, Put, Stores, ThiefOk, Inv, PushStep, PopStep, StealStep;
    forall id | id in s.thieves && StealStep(s, s2, id) ensures s2.items == s.items || TakesOldest(s, s2) {
      StealRefines(s, s2, id);
    }
    if PushStep(s, s2) {
      PushRefines(s, s2);
    } else if PopStep(s, s2) {
      PopRefines(s, s2);
    } else {
      var id :| id in s.thieves && StealStep(s, s2, id);
      StealRefines(s, s2, id);
    }
  }

  lemma PushRefines(s: State, s2: State)
    requires Inv(s) && PushStep(s, s2)
    ensures DequeStep(s, s2)
  {
    hide Get, Put, Stores, ThiefOk, OwnerOk, DequeStep, PushStep;
    if s.owner.PushBottom? { PushDequeStep(s, s2); } else { PushQuiet(s, s2); }
  }

  lemma PushDequeStep(s: State, s2: State)
    requires BuffersOk(s) && s.owner.PushBottom? && PushStep(s, s2)
    ensures DequeStep(s, s2)
  {
  }

  lemma PushQuiet(s: State, s2: State)
    requires BuffersOk(s) && !s.owner.PushBottom? && PushStep(s, s2)
    ensures DequeStep(s, s2)
  {
    hide Get, Put;
    assert s2.items == s.items && s2.pushed == s.pushed && s2.taken == s.taken;
  }

  lemma PopRefines(s: State, s2: State)
    requires Inv(s) && PopStep(s, s2)
    ensures DequeStep(s, s2)
  {
    hide Get, Put, Stores, OwnerOk, ThiefOk;
    match s.owner
    case PopGet(b, a, t) =>
      if b - t != 1 { TakeLast(s, s2); }
    case PopCas(b, t, x) =>
      if s.top == t { LastItem(s); }
    case _ =>
  }

  lemma LastItem(s: State)
    requires Inv(s) && s.owner.PopCas? && s.top == s.owner.t
    ensures s.items == [s.owner.x]
  {
    hide Get, Put, Stores, ThiefOk;
  }

  lemma StealRefines(s: State, s2: State, id: nat)
    requires Inv(s) && id in s.thieves && StealStep(s, s2, id)
    ensures s2.items == s.items || TakesOldest(s, s2)
    ensures DequeStep(s, s2)
  {
    hide Get, Put, Stores, OwnerOk, ThiefOk;
    if s.thieves[id].StealCas? && s.top == s.thieves[id].t { TakeFirst(s, id); }
  }

  /** When a thief turns away: from an empty deque, or from one whose only reference the owner is
      popping.  One that loaded `top` before it last moved turns away only from an empty deque, and
      only while the owner is popping; otherwise it goes on and loads `top` again. */
  lemma StealFindsNothing(s: State, s2: State, id: nat)
    requires Inv(s) && id in s.thieves && s.thieves[id].StealBottom? && StealStep(s, s2, id)
    ensures var t := s.thieves[id].t;
      s2.thieves[id].Out? <==>
        if t == s.top then s.items == [] || (|s.items| == 1 && Popping(s.owner))
        else s.items == [] && Popping(s.owner) && t == s.top - 1
  {
    assert ThiefOk(s, s.thieves[id]);
    BottomIs(s);
    hide Get, Put, Stores, OwnerOk;
  }

  /** A deque just set up, with one thief. */
  function Empty(): State {
    State(0, 0, 0, [Buffer(1024, seq(1024, _ => 0))], Idle(None), map[0 := Out(None)], [], multiset{}, multiset{})
  }

  function Holding(x: Ref): State {
    Empty().(bottom := 1, bufs := [Put(Empty().bufs[0], 0, x)], items := [x], pushed := multiset{x})
  }

  lemma PushFromEmpty(x: Ref) returns (run: seq<State>)
    ensures Run(run) && |run| == 6 && run[5] == Holding(x)
  {
    var s0 := Empty();
    var s1 := s0.(owner := PushTop(x, 0));
    var s2 := s1.(owner := PushActive(x, 0, 0));
    var s3 := s2.(owner := PushPut(x, 0, 0));
    var s4 := s3.(bufs := Holding(x).bufs, owner := PushBottom(x, 0));
    assert s3.bufs[0 := Put(s3.bufs[0], 0, x)] == s4.bufs;
    hide Put;
    assert PushStep(s0, s1) && PushStep(s1, s2) && PushStep(s2, s3) && PushStep(s3, s4) && PushStep(s4, Holding(x));
    hide PushStep, PopStep, StealStep;
    run := [s0, s1, s2, s3, s4, Holding(x)];
  }

  lemma RunMore(run: seq<State>, s: State)
    requires Run(run) && Next(run[|run| - 1], s)
    ensures Run(run + [s])
  {
    hide Init, Next;
  }

  /** The owner pushes one reference and starts to pop it; it has lowered `bottom` when the thief looks. */
  lemma StealMissesOne(x: Ref) returns (run: seq<State>)
    ensures Run(run) && |run| == 11 && 0 in run[9].thieves && run[9].thieves[0] == StealBottom(0)
    ensures BuffersOk(run[9]) && StealStep(run[9], run[10], 0) && run[10].thieves[0] == Out(None)
    ensures run[9].items == run[10].items == [x] && run[10].taken == multiset{}
  {
    run := PushFromEmpty(x);
    var s5 := Holding(x);
    var s6 := s5.(owner := PopActive(1));
    var s7 := s6.(owner := PopStore(1, 0));
    var s8 := s7.(bottom := 0, owner := PopTop(1, 0));
    var s9 := s8.(thieves := map[0 := StealBottom(0)]);
    var s10 := s9.(thieves := map[0 := Out(None)]);
    assert BuffersOk(s5);
    assert s9.thieves == s8.thieves[0 := StealBottom(0)] && s10.thieves == s9.thieves[0 := Out(None)];
    hide Put, Holding, Run;
    assert PopStep(s5, s6) && PopStep(s6, s7) && PopStep(s7, s8) && StealStep(s8, s9, 0) && StealStep(s9, s10, 0);
    hide PushStep, PopStep, StealStep;
    RunMore(run, s6);
    RunMore(run + [s6], s7);
    RunMore(run + [s6] + [s7], s8);
    RunMore(run + [s6] + [s7] + [s8], s9);
    RunMore(run + [s6] + [s7] + [s8] + [s9], s10);
    run := run + [s6] + [s7] + [s8] + [s9] + [s10];
  }

  // ----- what a call has done when it returns ----------------------------------------------

  /** The owner of the deque, or a thief. */
  datatype Who = Owner | Thief(id: nat)

  ghost predicate Moves(s: State, s2: State, who: Who) {
    match who
    case Owner => s2.owner != s.owner
    case Thief(id) => id in s.thieves && id in s2.thieves && s2.thieves[id] != s.thieves[id]
  }

  /** The references taken by the moves of one of them from state `i` to state `j`. */
  ghost function Took(run: seq<State>, who: Who, i: nat, j: nat): multiset<Ref>
    requires i <= j < |run|
  {
    if i == j then multiset{}
    else Took(run, who, i, j - 1) + if Moves(run[j - 1], run[j], who) then run[j].taken - run[j - 1].taken else multiset{}
  }

  lemma TookNothing(run: seq<State>, who: Who, i: nat)
    requires i + 1 < |run| && run[i + 1].taken == run[i].taken
    ensures Took(run, who, i, i + 1) == multiset{}
  {
    hide Moves;
    assert Took(run, who, i, i) == multiset{};
  }

  function Bag(got: Option<Ref>): multiset<Ref> {
    if got.Some? then multiset{got.value} else multiset{}
  }

  /** The owner begins a call in state `i` and is back in state `j`. */
  ghost predicate OwnerCall(run: seq<State>, i: nat, j: nat) {
    && i < j < |run| && run[i].owner.Idle? && run[j].owner.Idle? && Moves(run[i], run[i + 1], Owner)
    && forall k | i < k < j :: !run[k].owner.Idle?
  }

  predicate InPush(o: Owner, x: Ref) {
    (o.PushTop? || o.PushActive? || o.Growing? || o.PushPut? || o.PushBottom?) && o.x == x
  }

  predicate InPop(o: Owner) {
    o.PopActive? || o.PopStore? || Popping(o)
  }

  lemma TakenMore(m: multiset<Ref>, x: Ref)
    ensures m + multiset{x} - m == multiset{x} && m + multiset{x} != m
  {
    assert (m + multiset{x})[x] == m[x] + 1;
  }

  /** An owner that has moved has made a step of the call it is in. */
  lemma OwnerMoved(s: State, s2: State)
    requires Next(s, s2) && Moves(s, s2, Owner)
    ensures PushStep(s, s2) || PopStep(s, s2)
  {
    hide Get, Put;
  }

  lemma OwnerStayed(s: State, s2: State)
    requires Next(s, s2) && !Moves(s, s2, Owner)
    ensures s2.pushed == s.pushed
  {
    hide Get, Put;
  }

  /** How far a push of `x` begun in state `i` has come. */
  ghost predicate PushSoFar(run: seq<State>, i: nat, k: nat, x: Ref)
    requires i < k < |run|
  {
    && Took(run, Owner, i, k) == multiset{}
    && if run[k].owner.Idle? then run[k].pushed == run[i].pushed + multiset{x}
       else run[k].owner.Crashed? || (InPush(run[k].owner, x) && run[k].pushed == run[i].pushed)
  }

  lemma PushMoves(s: State, s2: State, x: Ref)
    requires BuffersOk(s) && InPush(s.owner, x) && (PushStep(s, s2) || PopStep(s, s2))
    ensures s2.taken == s.taken
    ensures if s2.owner.Idle? then s2.pushed == s.pushed + multiset{x}
            else s2.owner.Crashed? || (InPush(s2.owner, x) && s2.pushed == s.pushed)
  {
    hide Get, Put;
  }

  lemma {:induction false} PushComesOn(run: seq<State>, i: nat, k: nat, x: Ref)
    requires Run(run) && i < k < |run| && run[i].owner.Idle? && InPush(run[i + 1].owner, x)
    requires forall n | i < n < k :: !run[n].owner.Idle?
    ensures PushSoFar(run, i, k, x)
  {
    hide Init, Next, PushStep, PopStep, InPush, BuffersOk;
    var s, s2 := run[k - 1], run[k];
    assert Next(s, s2);
    if k == i + 1 {
      FirstMove(s, s2, x);
      TookNothing(run, Owner, i);
    } else {
      PushComesOn(run, i, k - 1, x);
      if Moves(s, s2, Owner) {
        OwnerMoved(s, s2);
        NextBuffers(s, s2);
        if s.owner.Crashed? { CrashedStays(s, s2); } else { PushMoves(s, s2, x); }
      } else {
        OwnerStayed(s, s2);
      }
    }
  }

  lemma NextBuffers(s: State, s2: State)
    requires Next(s, s2)
    ensures BuffersOk(s)
  {
    hide PushStep, PopStep, StealStep;
  }

  lemma CrashedStays(s: State, s2: State)
    requires BuffersOk(s) && s.owner.Crashed?
    ensures !PushStep(s, s2) && !PopStep(s, s2)
  {
  }

  /** The first move of a call takes nothing and adds nothing. */
  lemma FirstMove(s: State, s2: State, x: Ref)
    requires Next(s, s2) && s.owner.Idle? && (InPush(s2.owner, x) || InPop(s2.owner))
    ensures s2.pushed == s.pushed && s2.taken == s.taken && !s2.owner.Idle?
  {
    hide Get, Put;
  }

  /** A push that has returned has added just its reference, and has taken none. */
  lemma PushReturns(run: seq<State>, i: nat, j: nat, x: Ref)
    requires Run(run) && OwnerCall(run, i, j) && InPush(run[i + 1].owner, x)
    ensures run[j].pushed == run[i].pushed + multiset{x} && Took(run, Owner, i, j) == multiset{}
  {
    hide Run, InPush;
    PushComesOn(run, i, j, x);
  }

  ghost predicate Full(s: State) {
    BuffersOk(s) && |s.items| == s.bufs[s.active].size
  }

  /** The owner has been in its call since state `n`. */
  ghost predicate InCallSince(run: seq<State>, n: int, k: int) {
    0 <= n <= k < |run| && forall m | n <= m <= k :: !run[m].owner.Idle?
  }

  /** What the owner has loaded of `top` shows how many references there were then. */
  ghost predicate Loaded(s: State, now: State) {
    now.owner.PushActive? && s.bufs == now.bufs && s.active == now.active && |s.items| == now.owner.b - now.owner.t
  }

  ghost predicate CrashSoFar(run: seq<State>, k: nat)
    requires k < |run|
  {
    && (run[k].owner.PushActive? ==> exists n :: InCallSince(run, n, k) && Loaded(run[n], run[k]))
    && (run[k].owner.Crashed? ==> exists n :: InCallSince(run, n, k) && Full(run[n]))
  }

  lemma LoadsOrCrashes(s: State, s2: State)
    requires Inv(s) && (PushStep(s, s2) || PopStep(s, s2))
    ensures s2.owner.PushActive? ==> s.owner.PushTop? && Loaded(s, s2)
    ensures s2.owner.Crashed? ==> s.owner.PushActive? && s.owner.b - s.owner.t >= s.bufs[s.active].size
  {
    hide Get, Put, Stores, ThiefOk;
  }

  lemma FullThen(s: State, now: State)
    requires Inv(s) && Loaded(s, now) && now.active < |now.bufs| && now.owner.b - now.owner.t >= now.bufs[now.active].size
    ensures Full(s)
  {
    hide Get, OwnerOk, ThiefOk;
  }

  lemma BuffersStay(s: State, s2: State)
    requires Next(s, s2) && !Moves(s, s2, Owner)
    ensures s.owner.PushActive? ==> s2.bufs == s.bufs && s2.active == s.active
  {
    hide Get, Put;
  }

  lemma SinceNext(run: seq<State>, n: int, k: int)
    requires InCallSince(run, n, k) && k + 1 < |run| && !run[k + 1].owner.Idle?
    ensures InCallSince(run, n, k + 1)
  {
  }

  lemma {:induction false} CrashComesOn(run: seq<State>, k: nat)
    requires Run(run) && k < |run|
    ensures CrashSoFar(run, k)
  {
    hide Next, PushStep, PopStep, Inv, Loaded, Full;
    if k > 0 {
      var s, s2 := run[k - 1], run[k];
      assert Next(s, s2);
      CrashComesOn(run, k - 1);
      RunKeepsInv(run, k - 1);
      if s2.owner.PushActive? || s2.owner.Crashed? { CrashNext(run, k - 1); }
    }
  }

  lemma CrashNext(run: seq<State>, k: nat)
    requires Run(run) && k + 1 < |run| && Next(run[k], run[k + 1]) && CrashSoFar(run, k) && Inv(run[k])
    requires run[k + 1].owner.PushActive? || run[k + 1].owner.Crashed?
    ensures CrashSoFar(run, k + 1)
  {
    hide Run, Next, Inv, Loaded, Full;
    var s, s2 := run[k], run[k + 1];
    if Moves(s, s2, Owner) {
      CrashMoves(run, k);
    } else {
      BuffersStay(s, s2);
      if s2.owner.PushActive? {
        var n :| InCallSince(run, n, k) && Loaded(run[n], s);
        SinceNext(run, n, k);
        LoadedStays(run[n], s, s2);
      } else {
        var n :| InCallSince(run, n, k) && Full(run[n]);
        SinceNext(run, n, k);
      }
    }
  }

  lemma LoadedStays(s: State, now: State, next: State)
    requires Loaded(s, now) && next.owner == now.owner && next.bufs == now.bufs && next.active == now.active
    ensures Loaded(s, next)
  {
  }

  lemma CrashMoves(run: seq<State>, k: nat)
    requires Run(run) && k + 1 < |run| && Next(run[k], run[k + 1]) && CrashSoFar(run, k) && Inv(run[k])
    requires Moves(run[k], run[k + 1], Owner) && (run[k + 1].owner.PushActive? || run[k + 1].owner.Crashed?)
    ensures CrashSoFar(run, k + 1)
  {
    hide Run, Next, PushStep, PopStep, Inv, Full, Loaded;
    var s, s2 := run[k], run[k + 1];
    OwnerMoved(s, s2);
    NextBuffers(s, s2);
    LoadsOrCrashes(s, s2);
    if s2.owner.PushActive? {
      assert InCallSince(run, k, k + 1);
    } else {
      var n :| InCallSince(run, n, k) && Loaded(run[n], s);
      RunKeepsInv(run, n);
      FullThen(run[n], s);
      SinceNext(run, n, k);
    }
  }

  /** A push fails only if the deque was full at some point of the call. */
  lemma CrashesFull(run: seq<State>, k: nat)
    requires Run(run) && k < |run| && run[k].owner.Crashed?
    ensures exists n :: InCallSince(run, n, k) && Full(run[n])
  {
    hide Run, Full;
    CrashComesOn(run, k);
  }

  /** How far a pop begun in state `i` has come. */
  ghost predicate PopSoFar(run: seq<State>, i: nat, k: nat)
    requires i < k < |run|
  {
    && run[k].pushed == run[i].pushed
    && (InPop(run[k].owner) || run[k].owner.Idle?)
    && if run[k].owner.Idle? || run[k].owner.PopRestore? then
         && Took(run, Owner, i, k) == Bag(run[k].owner.got)
         && (run[k].owner.got.None? ==> exists n | i < n <= k :: run[n].items == [])
       else Took(run, Owner, i, k) == multiset{}
  }

  lemma NoPush(s: State, s2: State)
    requires Inv(s) && InPop(s.owner)
    ensures !PushStep(s, s2)
  {
  }

  /** What one step of a pop has done. */
  ghost predicate PopMoved(s: State, s2: State) {
    && s2.pushed == s.pushed && (InPop(s2.owner) || s2.owner.Idle?)
    && if s.owner.PopRestore? then s2.taken == s.taken && s2.owner == Idle(s.owner.got)
       else if s2.owner.Idle? || s2.owner.PopRestore? then
         && s2.taken == s.taken + Bag(s2.owner.got) && (s2.owner.got.None? ==> s.items == [])
       else s2.taken == s.taken
  }

  lemma PopReads(s: State, s2: State)
    requires Inv(s) && PopStep(s, s2) && (s.owner.PopActive? || s.owner.PopStore? || s.owner.PopRestore?)
    ensures PopMoved(s, s2)
  {
    hide Inv, Get, Stores;
  }

  lemma PopSees(s: State, s2: State)
    requires Inv(s) && PopStep(s, s2) && s.owner.PopTop?
    ensures PopMoved(s, s2)
  {
    hide Get, Stores, ThiefOk;
  }

  lemma PopReceives(s: State, s2: State)
    requires Inv(s) && PopStep(s, s2) && s.owner.PopGet?
    ensures PopMoved(s, s2)
  {
    hide Get, Stores, ThiefOk;
  }

  lemma PopRaces(s: State, s2: State)
    requires Inv(s) && PopStep(s, s2) && s.owner.PopCas?
    ensures PopMoved(s, s2)
  {
    hide Get, Stores, ThiefOk;
  }

  lemma PopMoves(s: State, s2: State)
    requires Inv(s) && InPop(s.owner) && (PushStep(s, s2) || PopStep(s, s2))
    ensures PopMoved(s, s2)
  {
    hide Inv, PushStep, PopStep, PopMoved;
    NoPush(s, s2);
    match s.owner {
      case PopTop(_, _) => PopSees(s, s2);
      case PopGet(_, _, _) => PopReceives(s, s2);
      case PopCas(_, _, _) => PopRaces(s, s2);
      case _ => PopReads(s, s2);
    }
  }

  lemma BagTaken(m: multiset<Ref>, got: Option<Ref>)
    ensures m + Bag(got) - m == Bag(got)
  {
    if got.Some? { TakenMore(m, got.value); }
  }

  lemma {:induction false} PopComesOn(run: seq<State>, i: nat, k: nat)
    requires Run(run) && i < k < |run| && run[i].owner.Idle? && InPop(run[i + 1].owner) && !run[i + 1].owner.PopRestore?
    requires forall n | i < n < k :: !run[n].owner.Idle?
    ensures PopSoFar(run, i, k)
  {
    hide Init, Next, PushStep, PopStep, InPop, Inv, Bag;
    var s, s2 := run[k - 1], run[k];
    assert Next(s, s2);
    if k == i + 1 {
      FirstMove(s, s2, 0);
      TookNothing(run, Owner, i);
    } else {
      PopComesOn(run, i, k - 1);
      if Moves(s, s2, Owner) {
        RunKeepsInv(run, k - 1);
        OwnerMoved(s, s2);
        PopMoves(s, s2);
        if s2.owner.Idle? || s2.owner.PopRestore? { BagTaken(s.taken, s2.owner.got); }
      } else {
        OwnerStayed(s, s2);
      }
    }
  }

  /** A pop that has returned gives the one reference that its moves have taken; or none, and then they
      have taken none and the deque was empty at some point of the call. */
  lemma PopReturns(run: seq<State>, i: nat, j: nat)
    requires Run(run) && OwnerCall(run, i, j) && InPop(run[i + 1].owner) && !run[i + 1].owner.PopRestore?
    ensures Took(run, Owner, i, j) == Bag(run[j].owner.got) && run[j].pushed == run[i].pushed
    ensures run[j].owner.got.None? ==> exists k | i < k <= j :: run[k].items == []
  {
    hide Run, InPop, Bag;
    PopComesOn(run, i, j);
  }

  /** The owner's pop comes back without a reference only from an empty deque. */
  lemma PopFindsNothing(s: State, s2: State)
    requires Inv(s) && PopStep(s, s2) && !s.owner.Idle? && s2.owner.Idle?
    ensures s2.taken == s.taken || s2.owner.got.None? ==> s.items == []
  {
    hide Get, Put, Stores, ThiefOk;
    if s.owner.PopGet? { TakenMore(s.taken, Get(s.bufs[s.owner.a], s.owner.b - 1)); }
  }

  ghost predicate ThiefCall(run: seq<State>, id: nat, i: nat, j: nat) {
    && i < j < |run| && (forall k | i <= k <= j :: id in run[k].thieves)
    && run[i].thieves[id].Out? && run[j].thieves[id].Out? && Moves(run[i], run[i + 1], Thief(id))
    && forall k | i < k < j :: !run[k].thieves[id].Out?
  }

  /** Nothing in the deque, or one reference that the owner is popping. */
  ghost predicate NothingToSteal(s: State) {
    s.items == [] || (|s.items| == 1 && Popping(s.owner))
  }

  lemma ThiefMoved(s: State, s2: State, id: nat)
    requires Next(s, s2) && Moves(s, s2, Thief(id))
    ensures BuffersOk(s) && StealStep(s, s2, id)
  {
    hide Get, Put;
  }

  lemma StealTurns(s: State, s2: State, id: nat)
    requires Inv(s) && id in s.thieves && s.thieves[id].StealBottom? && StealStep(s, s2, id)
    ensures id in s2.thieves && (s2.thieves[id].Out? ==> NothingToSteal(s))
  {
    hide Get, Put, Stores, OwnerOk, Inv;
    StealFindsNothing(s, s2, id);
  }

  lemma StealMoves(s: State, s2: State, id: nat)
    requires Inv(s) && id in s.thieves && StealStep(s, s2, id)
    ensures id in s2.thieves
    ensures s.thieves[id].Out? ==> s2.taken == s.taken && !s2.thieves[id].Out?
    ensures !s.thieves[id].Out? ==>
      if s2.thieves[id].Out? then
        && s2.taken == s.taken + Bag(s2.thieves[id].got)
        && (s2.thieves[id].got.None? ==> NothingToSteal(s))
      else s2.taken == s.taken
  {
    hide Get, Put, Stores, Inv, NothingToSteal;
    if s.thieves[id].StealBottom? { StealTurns(s, s2, id); }
  }

  /** How far a steal begun in state `i` has come. */
  ghost predicate StealSoFar(run: seq<State>, id: nat, i: nat, k: nat)
    requires i < k < |run| && id in run[k].thieves
  {
    var th := run[k].thieves[id];
    && Took(run, Thief(id), i, k) == (if th.Out? then Bag(th.got) else multiset{})
    && (th.Out? && th.got.None? ==> exists n | i <= n <= k :: NothingToSteal(run[n]))
  }

  lemma {:induction false} StealComesOn(run: seq<State>, id: nat, i: nat, k: nat)
    requires Run(run) && i < k < |run| && (forall n | i <= n <= k :: id in run[n].thieves)
    requires run[i].thieves[id].Out? && Moves(run[i], run[i + 1], Thief(id)) && forall n | i < n < k :: !run[n].thieves[id].Out?
    ensures StealSoFar(run, id, i, k)
  {
    hide Init, Next, StealStep, Inv, Bag, NothingToSteal;
    var s, s2 := run[k - 1], run[k];
    assert Next(s, s2);
    RunKeepsInv(run, k - 1);
    if k > i + 1 { StealComesOn(run, id, i, k - 1); }
    if Moves(s, s2, Thief(id)) {
      ThiefMoved(s, s2, id);
      StealMoves(s, s2, id);
      if s2.thieves[id].Out? { BagTaken(s.taken, s2.thieves[id].got); }
    }
    assert Took(run, Thief(id), i, i) == multiset{};
  }

  /** A steal that has returned gives the one reference that its moves have taken; or none, and then at
      some point of the call the deque was empty or held one reference that the owner was popping. */
  lemma StealReturns(run: seq<State>, id: nat, i: nat, j: nat)
    requires Run(run) && ThiefCall(run, id, i, j)
    ensures Took(run, Thief(id), i, j) == Bag(run[j].thieves[id].got)
    ensures run[j].thieves[id].got.None? ==> exists k | i <= k <= j :: NothingToSteal(run[k])
  {
    hide Run, Bag, NothingToSteal;
    StealComesOn(run, id, i, j);
  }

  // ----- every call ends -------------------------------------------------------------------

  /** A bound on the steps the owner has left to make in its call. */
  function OwnerLeft(o: Owner): int {
    match o
    case Idle(_) => 0
    case Crashed => 0
    case PushTop(_, b) => b + 6
    case PushActive(_, b, t) => b - t + 5
    case Growing(_, b, _, _, i) => b - i + 3
    case PushPut(_, _, _) => 2
    case PushBottom(_, _) => 1
    case PopActive(_) => 6
    case PopStore(_, _) => 5
    case PopTop(_, _) => 4
    case PopGet(_, _, _) => 3
    case PopCas(_, _, _) => 2
    case PopRestore(_, _) => 1
  }

  /** The owner's calls are wait-free: every step it makes brings its call nearer to the end. */
  lemma OwnerEnds(s: State, s2: State)
    requires Inv(s) && !s.owner.Idle? && (PushStep(s, s2) || PopStep(s, s2))
    ensures 0 <= OwnerLeft(s2.owner) < OwnerLeft(s.owner)
  {
    PushBounds(s);
    hide Inv, PushStep, PopStep, OwnerLeft;
    if PushStep(s, s2) { PushEnds(s, s2); } else { PopEnds(s, s2); }
  }

  lemma PushBounds(s: State)
    requires Inv(s)
    ensures BuffersOk(s)
    ensures s.top >= 0 && (s.owner.PushTop? ==> s.owner.b >= s.top)
    ensures s.owner.PushActive? ==> s.owner.b >= s.owner.t
    ensures s.owner.Growing? ==> s.owner.b >= s.owner.i
  {
    hide Get, Stores, ThiefOk, BuffersOk;
  }

  lemma PushEnds(s: State, s2: State)
    requires BuffersOk(s) && !s.owner.Idle? && PushStep(s, s2) && s.top >= 0
    requires s.owner.PushTop? ==> s.owner.b >= s.top
    requires s.owner.PushActive? ==> s.owner.b >= s.owner.t
    requires s.owner.Growing? ==> s.owner.b >= s.owner.i
    ensures 0 <= OwnerLeft(s2.owner) < OwnerLeft(s.owner)
  {
    hide Get, Put;
  }

  lemma PopEnds(s: State, s2: State)
    requires BuffersOk(s) && !s.owner.Idle? && PopStep(s, s2)
    ensures 0 <= OwnerLeft(s2.owner) < OwnerLeft(s.owner)
  {
    hide Get;
  }

  function ThiefLeft(th: Thief): int {
    match th
    case Out(_) => 0
    case StealBottom(_) => 4
    case StealActive(_) => 3
    case StealGet(_, _) => 2
    case StealCas(_, _) => 1
  }

  /** A thief's are lock-free: its call comes nearer to the end, or someone has taken a reference since
      the thief loaded `top`. */
  lemma ThiefEnds(s: State, s2: State, id: nat)
    requires Inv(s) && id in s.thieves && !s.thieves[id].Out? && StealStep(s, s2, id)
    ensures id in s2.thieves
    ensures 0 <= ThiefLeft(s2.thieves[id]) < ThiefLeft(s.thieves[id])
      || (s2.thieves[id].StealBottom? && s2.thieves[id].t == s.top > s.thieves[id].t)
  {
    hide Get, Put, Stores, OwnerOk;
    assert ThiefOk(s, s.thieves[id]);
  }

  ghost predicate CanPush(s: State, x: Ref)
    requires BuffersOk(s)
  {
    exists s2 :: PushStep(s, s2) && InPush(s2.owner, x)
  }

  /** A thief can always move.  So can the owner, unless it has crashed on a deque that cannot grow; between
      calls it can begin a pop, or a push of anything. */
  lemma NeverStuck(s: State)
    requires Inv(s)
    ensures forall id | id in s.thieves :: exists s2 :: StealStep(s, s2, id)
    ensures !s.owner.Crashed? ==> exists s2 :: PushStep(s, s2) || PopStep(s, s2)
    ensures s.owner.Idle? ==> exists s2 :: PopStep(s, s2) && InPop(s2.owner)
    ensures s.owner.Idle? ==> forall x :: CanPush(s, x)
  {
    hide Put, Stores;
    forall id | id in s.thieves ensures exists s2 :: StealStep(s, s2, id) {
      ThiefMoves(s, id);
    }
    if !s.owner.Crashed? { OwnerMoves(s); }
    if s.owner.Idle? {
      assert PopStep(s, s.(owner := PopActive(s.bottom)));
      forall x ensures CanPush(s, x) {
        var s2 := s.(owner := PushTop(x, s.bottom));
        assert PushStep(s, s2) && InPush(s2.owner, x);
      }
    }
  }

  /** The buffers double from the first to the last there can be. */
  ghost predicate SizesOk(bufs: seq<Buffer>) {
    && 0 < |bufs| <= MAX_BUFFERS && bufs[0].size == 1024
    && forall k | 0 <= k < |bufs| - 1 :: bufs[k + 1].size == 2 * bufs[k].size
  }

  lemma StepSizes(s: State, s2: State)
    requires Inv(s) && SizesOk(s.bufs) && Next(s, s2)
    ensures SizesOk(s2.bufs)
  {
    hide Inv, PushStep, PopStep, StealStep, SizesOk;
    if PushStep(s, s2) { PushSizes(s, s2); } else { OthersKeepBuffers(s, s2); }
  }

  lemma PushSizes(s: State, s2: State)
    requires Inv(s) && SizesOk(s.bufs) && PushStep(s, s2)
    ensures SizesOk(s2.bufs)
  {
    hide Stores, OwnerOk, ThiefOk, Get;
  }

  lemma OthersKeepBuffers(s: State, s2: State)
    requires BuffersOk(s) && (PopStep(s, s2) || exists id :: id in s.thieves && StealStep(s, s2, id))
    ensures s2.bufs == s.bufs
  {
    hide Get;
  }

  lemma {:induction false} BuffersDouble(run: seq<State>, i: nat)
    requires Run(run) && i < |run|
    ensures SizesOk(run[i].bufs)
  {
    hide SizesOk, Next;
    if i == 0 {
      assert SizesOk(run[0].bufs) by { OneBuffer(run[0].bufs); }
    } else {
      BuffersDouble(run, i - 1);
      RunKeepsInv(run, i - 1);
      StepSizes(run[i - 1], run[i]);
    }
  }

  lemma OneBuffer(bufs: seq<Buffer>)
    requires |bufs| == 1 && bufs[0].size == 1024
    ensures SizesOk(bufs)
  {
  }

  /** A push that finds its buffer full can grow it, but for the last size there is. */
  lemma CanGrow(s: State, x: Ref, b: int, t: int)
    requires Inv(s) && s.owner == PushActive(x, b, t) && b - t > s.bufs[s.active].size - 1 && s.active + 1 < MAX_BUFFERS
    ensures exists s2 :: PushStep(s, s2) && s2.owner.Growing?
  {
    hide Stores, ThiefOk;
    var size := 2 * s.bufs[s.active].size;
    var grown := Buffer(size, seq(size, _ => 0));
    var s2 := s.(bufs := s.bufs[..s.active + 1] + [grown], owner := Growing(x, b, t, s.active, t));
    assert PushStep(s, s2);
  }

  lemma ThiefMoves(s: State, id: nat)
    requires Inv(s) && id in s.thieves
    ensures exists s2 :: StealStep(s, s2, id)
  {
    hide Get, Put, Stores, OwnerOk;
    assert ThiefOk(s, s.thieves[id]);
    var s2 := match s.thieves[id]
      case Out(_) => s.(thieves := s.thieves[id := StealBottom(s.top)])
      case StealBottom(t) => s.(thieves := s.thieves[id := if s.bottom - t <= 0 then Out(None) else StealActive(t)])
      case StealActive(t) => s.(thieves := s.thieves[id := StealGet(t, s.active)])
      case StealGet(t, a) => s.(thieves := s.thieves[id := StealCas(t, Get(s.bufs[a], t))])
      case StealCas(t, ref) =>
        if s.top == t then
          s.(top := t + 1, thieves := s.thieves[id := Out(Some(ref))], items := WithoutFirst(s.items), taken := s.taken + multiset{ref})
        else s.(thieves := s.thieves[id := StealBottom(s.top)]);
    assert StealStep(s, s2, id);
  }

  lemma OwnerMoves(s: State)
    requires Inv(s) && !s.owner.Crashed?
    ensures exists s2 :: PushStep(s, s2) || PopStep(s, s2)
  {
    hide Get, Put, Stores, ThiefOk;
    match s.owner
    case Idle(_) => assert PopStep(s, s.(owner := PopActive(s.bottom)));
    case PushTop(x, b) => assert PushStep(s, s.(owner := PushActive(x, b, s.top)));
    case PushActive(x, b, t) =>
      if b - t > s.bufs[s.active].size - 1 { assert PushStep(s, s.(owner := Crashed)); }
      else { assert PushStep(s, s.(owner := PushPut(x, b, s.active))); }
    case Growing(x, b, t, a, i) =>
      if i < b {
        assert PushStep(s, s.(bufs := s.bufs[a + 1 := Put(s.bufs[a + 1], i, Get(s.bufs[a], i))], owner := s.owner.(i := i + 1)));
      } else {
        assert PushStep(s, s.(active := a + 1, owner := PushPut(x, b, a + 1)));
      }
    case PushPut(x, b, a) =>
      assert PushStep(s, s.(bufs := s.bufs[a := Put(s.bufs[a], b, x)], owner := PushBottom(x, b)));
    case PushBottom(x, b) =>
      assert PushStep(s, s.(bottom := b + 1, owner := Idle(None), items := s.items + [x], pushed := s.pushed + multiset{x}));
    case PopActive(b) => assert PopStep(s, s.(owner := PopStore(b, s.active)));
    case PopStore(b, a) => assert PopStep(s, s.(bottom := b - 1, owner := PopTop(b, a)));
    case PopTop(b, a) =>
      assert PopStep(s, s.(owner := if b - s.top > 0 then PopGet(b, a, s.top) else PopRestore(b, None)));
    case PopGet(b, a, t) => PopGetMoves(s);
    case PopCas(b, t, x) =>
      if s.top == t {
        assert PopStep(s, s.(top := t + 1, owner := PopRestore(b, Some(x)), items := WithoutFirst(s.items), taken := s.taken + multiset{x}));
      } else {
        assert PopStep(s, s.(owner := PopRestore(b, None)));
      }
    case PopRestore(b, got) => assert PopStep(s, s.(bottom := b, owner := Idle(got)));
  }

  lemma PopGetMoves(s: State)
    requires Inv(s) && s.owner.PopGet?
    ensures exists s2 :: PopStep(s, s2)
  {
    hide Get, Put, Stores, ThiefOk;
    var PopGet(b, a, t) := s.owner;
    var x := Get(s.bufs[a], b - 1);
    if b - t == 1 {
      assert PopStep(s, s.(owner := PopCas(b, t, x)));
    } else {
      assert PopStep(s, s.(owner := Idle(Some(x)), items := WithoutLast(s.items), taken := s.taken + multiset{x}));
    }
  }
}
