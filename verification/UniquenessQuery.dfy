/** The uniqueness query: how many static slots and object fields refer to an object, counted up to two,
    by a marking of its own from the static slots and the frames that stops short of the object. */
module UniquenessQuery {
  import opened Basics
  import opened ObjectModel
  import SeenSet

  datatype View = View(types: seq<TypeInfo>, store: map<int, Object>, statics: seq<seq<int>>, frames: seq<seq<int>>)

  /** A word the query follows. */
  predicate Ref(w: int) {
    w != 0 && w % 2 == 0
  }

  /** The words that are fields of an object: the references of a struct and the elements of a reference array. */
  ghost function Fields(v: View, o: int): (r: set<int>)
    requires o in v.store && ObjectOk(v.types, v.store[o])
    ensures forall j | j in r :: 0 <= j < |v.store[o]|
  {
    var obj := v.store[o];
    var t := v.types[obj[0] / 2];
    if t.kind.Struct? || t.kind.RefArray? then RefWords(t, obj) else {}
  }

  /** Every object is well formed, and every reference the query can meet leads to one. */
  ghost predicate WellFormed(v: View) {
    && (forall o | o in v.store :: o > 0 && ObjectOk(v.types, v.store[o]))
    && (forall r, i | 0 <= r < |v.statics| && 0 <= i < |v.statics[r]| && Ref(v.statics[r][i]) :: v.statics[r][i] in v.store)
    && (forall r, i | 0 <= r < |v.frames| && 0 <= i < |v.frames[r]| && Ref(v.frames[r][i]) :: v.frames[r][i] in v.store)
    && (forall o, j | o in v.store && j in Fields(v, o) && Ref(v.store[o][j]) :: v.store[o][j] in v.store)
  }

  ghost predicate InSome(rows: seq<seq<int>>, w: int) {
    exists r | 0 <= r < |rows| :: w in rows[r]
  }

  ghost predicate Seed(v: View, target: int, o: int) {
    Ref(o) && o != target && (InSome(v.statics, o) || InSome(v.frames, o))
  }

  ghost predicate Edge(v: View, target: int, a: int, b: int)
    requires WellFormed(v)
  {
    a in v.store && Ref(b) && b != target && exists j | j in Fields(v, a) :: v.store[a][j] == b
  }

  ghost predicate Path(v: View, target: int, p: seq<int>)
    requires WellFormed(v)
  {
    && |p| > 0 && Seed(v, target, p[0])
    && forall i | 0 < i < |p| :: Edge(v, target, p[i - 1], p[i])
  }

  /** Reachable from the static slots and the frames without passing through the target. */
  ghost predicate Reached(v: View, target: int, o: int)
    requires WellFormed(v)
  {
    exists p :: Path(v, target, p) && p[|p| - 1] == o
  }

  ghost function ReachedSet(v: View, target: int): set<int>
    requires WellFormed(v)
  {
    set o | o in v.store && Reached(v, target, o)
  }

  /** The static slots that hold the target. */
  ghost function StaticRefs(v: View, target: int): set<(int, int)> {
    set r, i | 0 <= r < |v.statics| && 0 <= i < |v.statics[r]| && Ref(target) && v.statics[r][i] == target :: (r, i)
  }

  /** The fields that hold the target, among the objects of a set. */
  ghost function FieldRefs(v: View, target: int, objects: set<int>): set<(int, int)>
    requires WellFormed(v) && forall o | o in objects :: o in v.store
  {
    set o, j | o in objects && j in Fields(v, o) && Ref(target) && v.store[o][j] == target :: (o, j)
  }

  ghost function References(v: View, target: int): nat
    requires WellFormed(v)
  {
    |StaticRefs(v, target)| + |FieldRefs(v, target, ReachedSet(v, target))|
  }

  // ----- what the marking keeps ------------------------------------------------------------

  /** The seen objects are the scanned ones and those on the work list, which lists each once; all are
      reachable, and the fields of the scanned ones have been seen. */
  ghost predicate Marking(v: View, target: int, held: set<nat>, done: set<nat>, work: seq<nat>)
    requires WellFormed(v)
  {
    && Distinct(work)
    && (forall x | x in held :: x in v.store && x != target && Reached(v, target, x))
    && (forall x :: x in held <==> x in done || x in work)
    && (forall x | x in work :: x !in done)
  }

  /** `slots` are the words of the fields, each once. */
  ghost predicate Lists(v: View, o: int, slots: seq<int>)
    requires WellFormed(v) && o in v.store
  {
    && Distinct(slots)
    && (forall k | 0 <= k < |slots| :: slots[k] in Fields(v, o))
    && (forall j | j in Fields(v, o) :: j in slots)
  }

  /** The first `k` of the words have been seen. */
  ghost predicate Scanned(v: View, target: int, held: set<nat>, o: int, slots: seq<int>, k: int)
    requires WellFormed(v) && o in v.store && Lists(v, o, slots)
  {
    forall i | 0 <= i < k && i < |slots| && Ref(v.store[o][slots[i]]) && v.store[o][slots[i]] != target ::
      v.store[o][slots[i]] in held
  }

  ghost predicate AllScanned(v: View, target: int, held: set<nat>, done: set<nat>)
    requires WellFormed(v)
  {
    forall o | o in done ::
      o in v.store && forall j | j in Fields(v, o) && Ref(v.store[o][j]) && v.store[o][j] != target :: v.store[o][j] in held
  }

  lemma {:induction false} PushKeeps(v: View, target: int, held: set<nat>, done: set<nat>, work: seq<nat>, w: nat)
    requires WellFormed(v) && Marking(v, target, held, done, work)
    requires w in v.store && w != target && Reached(v, target, w)
    ensures Marking(v, target, held + {w}, done, if w in held then work else work + [w])
  {
    hide Reached, WellFormed;
    if w in held { assert held + {w} == held; }
  }

  lemma SeedReached(v: View, target: int, w: int)
    requires WellFormed(v) && Seed(v, target, w)
    ensures Reached(v, target, w) && w in v.store && w > 0
  {
    hide Fields;
    assert Path(v, target, [w]);
    assert [w][|[w]| - 1] == w;
  }

  lemma FieldReached(v: View, target: int, o: int, j: int)
    requires WellFormed(v) && o in v.store && Reached(v, target, o) && j in Fields(v, o)
    requires Ref(v.store[o][j]) && v.store[o][j] != target
    ensures var w := v.store[o][j]; Reached(v, target, w) && w in v.store && w > 0
  {
    hide Fields, Seed;
    var w := v.store[o][j];
    var p :| Path(v, target, p) && p[|p| - 1] == o;
    assert Edge(v, target, o, w);
    assert Path(v, target, p + [w]);
    assert (p + [w])[|p + [w]| - 1] == w;
  }

  lemma EdgeSeen(v: View, target: int, held: set<nat>, a: int, b: int)
    requires WellFormed(v) && Edge(v, target, a, b) && a in held && AllScanned(v, target, held, held)
    ensures b in held
  {
    hide Fields;
  }

  /** Once the work list is empty everything reachable has been seen. */
  lemma {:induction false} PathSeen(v: View, target: int, held: set<nat>, p: seq<int>)
    requires WellFormed(v) && Path(v, target, p)
    requires forall o | Seed(v, target, o) :: o in held
    requires AllScanned(v, target, held, held)
    ensures p[|p| - 1] in held
  {
    hide Seed, Fields, WellFormed, Edge, AllScanned;
    if |p| > 1 {
      var q := p[..|p| - 1];
      PathSeen(v, target, held, q);
      EdgeSeen(v, target, held, p[|p| - 2], p[|p| - 1]);
    }
  }

  lemma AllReached(v: View, target: int, held: set<nat>, done: set<nat>)
    requires WellFormed(v) && Marking(v, target, held, done, []) && AllScanned(v, target, held, done)
    requires forall o | Seed(v, target, o) :: o in held
    ensures ReachedSet(v, target) == done
  {
    hide Seed, Fields, WellFormed, Edge;
    assert held == done;
    forall o | o in v.store && Reached(v, target, o) ensures o in held {
      var p :| Path(v, target, p) && p[|p| - 1] == o;
      PathSeen(v, target, held, p);
    }
  }

  // ----- counting --------------------------------------------------------------------------

  /** The pairs before position `i` of row `r`. */
  ghost function Before(refs: set<(int, int)>, r: int, i: int): set<(int, int)> {
    set p | p in refs && (p.0 < r || (p.0 == r && p.1 < i))
  }

  lemma BeforeNext(refs: set<(int, int)>, r: int, i: int)
    ensures |Before(refs, r, i + 1)| == |Before(refs, r, i)| + if (r, i) in refs then 1 else 0
  {
    assert Before(refs, r, i + 1) == Before(refs, r, i) + if (r, i) in refs then {(r, i)} else {};
  }

  /** The pairs of `o` with a word not in the list left out. */
  ghost function Within(refs: set<(int, int)>, o: int, words: seq<int>): set<(int, int)> {
    set p | p in refs && (p.0 != o || p.1 in words)
  }

  lemma WithinNext(refs: set<(int, int)>, o: int, slots: seq<int>, k: nat)
    requires Distinct(slots) && k < |slots|
    ensures |Within(refs, o, slots[..k + 1])| == |Within(refs, o, slots[..k])| + if (o, slots[k]) in refs then 1 else 0
  {
    assert slots[..k + 1] == slots[..k] + [slots[k]];
    assert slots[k] !in slots[..k];
    assert Within(refs, o, slots[..k + 1]) == Within(refs, o, slots[..k]) + if (o, slots[k]) in refs then {(o, slots[k])} else {};
  }

  lemma StaticNext(v: View, target: int, r: nat, i: nat)
    requires r < |v.statics| && i < |v.statics[r]|
    ensures |Before(StaticRefs(v, target), r, i + 1)| ==
      |Before(StaticRefs(v, target), r, i)| + if Ref(v.statics[r][i]) && v.statics[r][i] == target then 1 else 0
  {
    hide Before;
    BeforeNext(StaticRefs(v, target), r, i);
  }

  lemma StaticRow(v: View, target: int, r: nat)
    requires r < |v.statics|
    ensures Before(StaticRefs(v, target), r, |v.statics[r]|) == Before(StaticRefs(v, target), r + 1, 0)
  {
  }

  lemma StaticEnds(v: View, target: int)
    ensures Before(StaticRefs(v, target), 0, 0) == {}
    ensures Before(StaticRefs(v, target), |v.statics|, 0) == StaticRefs(v, target)
  {
  }

  /** The matches in the scanned objects and in the words of `o` listed. */
  ghost function FieldsIn(v: View, target: int, done: set<int>, o: int, words: seq<int>): set<(int, int)>
    requires WellFormed(v) && (forall x | x in done :: x in v.store) && o in v.store
  {
    Within(FieldRefs(v, target, done + {o}), o, words)
  }

  lemma FieldNext(v: View, target: int, done: set<int>, o: int, slots: seq<int>, k: nat)
    requires WellFormed(v) && (forall x | x in done :: x in v.store) && o in v.store && Lists(v, o, slots) && k < |slots|
    ensures |FieldsIn(v, target, done, o, slots[..k + 1])| ==
      |FieldsIn(v, target, done, o, slots[..k])| + if Ref(v.store[o][slots[k]]) && v.store[o][slots[k]] == target then 1 else 0
  {
    hide Fields, Within;
    WithinNext(FieldRefs(v, target, done + {o}), o, slots, k);
  }

  lemma FieldEnds(v: View, target: int, done: set<int>, o: int, slots: seq<int>)
    requires WellFormed(v) && (forall x | x in done :: x in v.store) && o in v.store && o !in done && Lists(v, o, slots)
    ensures FieldsIn(v, target, done, o, slots[..0]) == FieldRefs(v, target, done)
    ensures FieldsIn(v, target, done, o, slots) == FieldRefs(v, target, done + {o})
  {
    hide Fields;
  }

  lemma FieldSome(v: View, target: int, done: set<int>, o: int, words: seq<int>)
    requires WellFormed(v) && (forall x | x in done :: x in v.store && Reached(v, target, x))
    requires o in v.store && Reached(v, target, o)
    ensures |FieldsIn(v, target, done, o, words)| <= |FieldRefs(v, target, ReachedSet(v, target))|
  {
    hide Fields, Reached;
    SubsetSize(FieldsIn(v, target, done, o, words), FieldRefs(v, target, ReachedSet(v, target)));
  }

  // ----- the seeds -------------------------------------------------------------------------

  /** The references in the rows before position `i` of row `r` have been seen. */
  ghost predicate RowsSeen(rows: seq<seq<int>>, target: int, held: set<nat>, r: int, i: int) {
    forall x, y | 0 <= x < |rows| && 0 <= y < |rows[x]| && (x < r || (x == r && y < i)) ::
      Ref(rows[x][y]) && rows[x][y] != target ==> rows[x][y] in held
  }

  lemma RowsNext(rows: seq<seq<int>>, target: int, was: set<nat>, now: set<nat>, r: nat, i: nat)
    requires r < |rows| && i < |rows[r]| && RowsSeen(rows, target, was, r, i) && was <= now
    requires Ref(rows[r][i]) && rows[r][i] != target ==> rows[r][i] in now
    ensures RowsSeen(rows, target, now, r, i + 1)
  {
  }

  lemma RowsRow(rows: seq<seq<int>>, target: int, held: set<nat>, r: nat)
    requires r < |rows| && RowsSeen(rows, target, held, r, |rows[r]|)
    ensures RowsSeen(rows, target, held, r + 1, 0)
  {
  }

  lemma RowsStart(rows: seq<seq<int>>, target: int, held: set<nat>)
    ensures RowsSeen(rows, target, held, 0, 0)
  {
  }

  lemma RowsGrow(rows: seq<seq<int>>, target: int, was: set<nat>, now: set<nat>, r: int, i: int)
    requires RowsSeen(rows, target, was, r, i) && was <= now
    ensures RowsSeen(rows, target, now, r, i)
  {
  }

  lemma SeedsSeen(v: View, target: int, held: set<nat>)
    requires RowsSeen(v.statics, target, held, |v.statics|, 0) && RowsSeen(v.frames, target, held, |v.frames|, 0)
    ensures forall o | Seed(v, target, o) :: o in held
  {
  }

  lemma SlotIsSeed(v: View, target: int, rows: seq<seq<int>>, r: nat, i: nat)
    requires WellFormed(v) && (rows == v.statics || rows == v.frames) && r < |rows| && i < |rows[r]|
    requires Ref(rows[r][i]) && rows[r][i] != target
    ensures var w := rows[r][i]; w > 0 && w in v.store && Reached(v, target, w)
  {
    assert InSome(rows, rows[r][i]);
    SeedReached(v, target, rows[r][i]);
  }

  /** A reference met: seen for the first time, it goes on the work list. */
  method Meet(v: View, target: int, seen: SeenSet.Set, work: seq<nat>, w: nat, ghost done: set<nat>) returns (now: seq<nat>)
    requires WellFormed(v) && seen.Valid() && Marking(v, target, seen.held, done, work)
    requires w > 0 && w in v.store && w != target && Reached(v, target, w)
    modifies seen, seen.tab
    ensures seen.Valid() && Marking(v, target, seen.held, done, now) && seen.held == old(seen.held) + {w}
    ensures seen.tab == old(seen.tab) || fresh(seen.tab)
  {
    hide WellFormed, Marking, Reached;
    PushKeeps(v, target, seen.held, done, work, w);
    var isNew := seen.Insert(w);
    now := if isNew then work + [w] else work;
  }

  method MeetSlot(v: View, target: int, seen: SeenSet.Set, work: seq<nat>, ghost rows: seq<seq<int>>, ghost r: nat, ghost i: nat, w: int)
    returns (now: seq<nat>)
    requires WellFormed(v) && seen.Valid() && Marking(v, target, seen.held, {}, work)
    requires (rows == v.statics || rows == v.frames) && r < |rows| && i < |rows[r]| && w == rows[r][i]
    requires RowsSeen(rows, target, seen.held, r, i)
    modifies seen, seen.tab
    ensures seen.Valid() && Marking(v, target, seen.held, {}, now) && old(seen.held) <= seen.held
    ensures RowsSeen(rows, target, seen.held, r, i + 1)
    ensures seen.tab == old(seen.tab) || fresh(seen.tab)
  {
    hide WellFormed, Marking, Reached, RowsSeen;
    now := work;
    ghost var was := seen.held;
    if w != 0 && w % 2 == 0 && w != target {
      SlotIsSeed(v, target, rows, r, i);
      now := Meet(v, target, seen, work, w, {});
    }
    RowsNext(rows, target, was, seen.held, r, i);
  }

  /** The static slots: each that holds the target counts, and the others are where the marking starts. */
  method SeedStatics(v: View, target: int, seen: SeenSet.Set) returns (work: seq<nat>, count: nat)
    requires WellFormed(v) && seen.Valid() && seen.held == {}
    modifies seen, seen.tab
    ensures seen.Valid() && Marking(v, target, seen.held, {}, work)
    ensures RowsSeen(v.statics, target, seen.held, |v.statics|, 0) && count == |StaticRefs(v, target)|
    ensures seen.tab == old(seen.tab) || fresh(seen.tab)
  {
    hide WellFormed, Reached, RowsSeen, Before, StaticRefs, Marking;
    work, count := [], 0;
    NoneMarked(v, target);
    RowsStart(v.statics, target, {});
    StaticEnds(v, target);
    var r := 0;
    while r < |v.statics|
      invariant 0 <= r <= |v.statics|
      invariant seen.Valid() && Marking(v, target, seen.held, {}, work)
      invariant RowsSeen(v.statics, target, seen.held, r, 0) && count == |Before(StaticRefs(v, target), r, 0)|
      invariant seen.tab == old(seen.tab) || fresh(seen.tab)
    {
      var i := 0;
      while i < |v.statics[r]|
        invariant 0 <= i <= |v.statics[r]|
        invariant seen.Valid() && Marking(v, target, seen.held, {}, work)
        invariant RowsSeen(v.statics, target, seen.held, r, i) && count == |Before(StaticRefs(v, target), r, i)|
        invariant seen.tab == old(seen.tab) || fresh(seen.tab)
      {
        var w := v.statics[r][i];
        StaticNext(v, target, r, i);
        if w != 0 && w % 2 == 0 && w == target { count := count + 1; }
        work := MeetSlot(v, target, seen, work, v.statics, r, i, w);
        i := i + 1;
      }
      RowsRow(v.statics, target, seen.held, r);
      StaticRow(v, target, r);
      r := r + 1;
    }
  }

  /** The frames: where the marking starts, but a slot that holds the target does not count.  With two
      references counted already the rest is not looked at. */
  method SeedFrames(v: View, target: int, seen: SeenSet.Set, before: seq<nat>, count: nat) returns (work: seq<nat>)
    requires WellFormed(v) && seen.Valid() && Marking(v, target, seen.held, {}, before)
    modifies seen, seen.tab
    ensures seen.Valid() && Marking(v, target, seen.held, {}, work) && old(seen.held) <= seen.held
    ensures count < 2 ==> RowsSeen(v.frames, target, seen.held, |v.frames|, 0)
    ensures seen.tab == old(seen.tab) || fresh(seen.tab)
  {
    hide WellFormed, Reached, RowsSeen, Marking;
    work := before;
    RowsStart(v.frames, target, seen.held);
    var r := 0;
    while r < |v.frames| && count < 2
      invariant 0 <= r <= |v.frames|
      invariant seen.Valid() && Marking(v, target, seen.held, {}, work) && old(seen.held) <= seen.held
      invariant RowsSeen(v.frames, target, seen.held, r, 0)
      invariant seen.tab == old(seen.tab) || fresh(seen.tab)
    {
      var i := 0;
      while i < |v.frames[r]|
        invariant 0 <= i <= |v.frames[r]|
        invariant seen.Valid() && Marking(v, target, seen.held, {}, work) && old(seen.held) <= seen.held
        invariant RowsSeen(v.frames, target, seen.held, r, i)
        invariant seen.tab == old(seen.tab) || fresh(seen.tab)
      {
        work := MeetSlot(v, target, seen, work, v.frames, r, i, v.frames[r][i]);
        i := i + 1;
      }
      RowsRow(v.frames, target, seen.held, r);
      r := r + 1;
    }
  }

  lemma NoneMarked(v: View, target: int)
    requires WellFormed(v)
    ensures Marking(v, target, {}, {}, [])
  {
  }

  // ----- the marking -----------------------------------------------------------------------

  lemma NoneScanned(v: View, target: int, held: set<nat>, o: int, slots: seq<int>)
    requires WellFormed(v) && o in v.store && Lists(v, o, slots)
    ensures Scanned(v, target, held, o, slots, 0)
  {
  }

  lemma ScanNext(v: View, target: int, was: set<nat>, now: set<nat>, done: set<nat>, o: int, slots: seq<int>, k: nat)
    requires WellFormed(v) && o in v.store && Lists(v, o, slots) && k < |slots| && was <= now
    requires Scanned(v, target, was, o, slots, k) && AllScanned(v, target, was, done)
    requires var w := v.store[o][slots[k]]; Ref(w) && w != target ==> w in now
    ensures Scanned(v, target, now, o, slots, k + 1) && AllScanned(v, target, now, done)
  {
    hide Fields;
  }

  /** One field of the object being scanned. */
  method ScanField(v: View, target: int, seen: SeenSet.Set, before: seq<nat>, ghost done: set<nat>, o: nat, slots: seq<int>, k: nat,
                   count: nat)
    returns (work: seq<nat>, sum: nat)
    requires WellFormed(v) && seen.Valid() && o in v.store && o in done && Reached(v, target, o)
    requires Lists(v, o, slots) && k < |slots|
    requires Marking(v, target, seen.held, done, before) && AllScanned(v, target, seen.held, done - {o})
    requires Scanned(v, target, seen.held, o, slots, k) && forall x | x in done :: x in v.store
    modifies seen, seen.tab
    ensures seen.Valid() && Marking(v, target, seen.held, done, work) && AllScanned(v, target, seen.held, done - {o})
    ensures Scanned(v, target, seen.held, o, slots, k + 1) && old(seen.held) <= seen.held
    ensures sum - |FieldsIn(v, target, done - {o}, o, slots[..k + 1])| == count - |FieldsIn(v, target, done - {o}, o, slots[..k])|
    ensures seen.tab == old(seen.tab) || fresh(seen.tab)
  {
    hide WellFormed, Marking, Reached, Scanned, AllScanned, FieldsIn;
    var w := v.store[o][slots[k]];
    work, sum := before, count;
    ghost var was := seen.held;
    FieldNext(v, target, done - {o}, o, slots, k);
    if w != 0 && w % 2 == 0 {
      if w == target {
        sum := sum + 1;
      } else {
        FieldReached(v, target, o, slots[k]);
        work := Meet(v, target, seen, before, w, done);
      }
    }
    ScanNext(v, target, was, seen.held, done - {o}, o, slots, k);
  }

  /** The words to scan: by the offsets of a struct, or one after the other in an array of references. */
  method FieldsOf(v: View, o: nat) returns (slots: seq<int>)
    requires WellFormed(v) && o in v.store
    ensures Lists(v, o, slots)
  {
    var obj := v.store[o];
    var t := TypeOf(v.types, obj[0]);
    FieldsListed(v, o);
    slots := if t.kind.Struct? || t.kind.RefArray? then RefSlots(t, obj) else [];
  }

  lemma FieldsListed(v: View, o: int)
    requires WellFormed(v) && o in v.store
    ensures var t := TypeOf(v.types, v.store[o][0]);
      Lists(v, o, if t.kind.Struct? || t.kind.RefArray? then RefSlots(t, v.store[o]) else [])
  {
    hide RefSlots, RefWords, Sized, TypeOk;
    var obj := v.store[o];
    var t := TypeOf(v.types, obj[0]);
    if t.kind.Struct? || t.kind.RefArray? {
      RefSlotsInside(v.types, obj);
      forall j ensures j in RefSlots(t, obj) <==> j in RefWords(t, obj) { RefSlotsAre(v.types, obj, j); }
    }
  }

  /** The fields of an object, until two references are counted. */
  method ScanObject(v: View, target: int, seen: SeenSet.Set, before: seq<nat>, ghost done: set<nat>, o: nat, count: nat)
    returns (work: seq<nat>, sum: nat, ghost words: seq<int>)
    requires WellFormed(v) && seen.Valid() && o in v.store && o in done && Reached(v, target, o) && count < 2
    requires Marking(v, target, seen.held, done, before) && AllScanned(v, target, seen.held, done - {o})
    requires forall x | x in done :: x in v.store
    modifies seen, seen.tab
    ensures seen.Valid() && Marking(v, target, seen.held, done, work) && old(seen.held) <= seen.held
    ensures sum - |FieldsIn(v, target, done - {o}, o, words)| == count - |FieldRefs(v, target, done - {o})|
    ensures sum < 2 ==> Lists(v, o, words) && AllScanned(v, target, seen.held, done)
    ensures seen.tab == old(seen.tab) || fresh(seen.tab)
  {
    hide WellFormed, Marking, Reached, Scanned, AllScanned, FieldsIn, FieldRefs, Lists;
    var slots := FieldsOf(v, o);
    FieldEnds(v, target, done - {o}, o, slots);
    NoneScanned(v, target, seen.held, o, slots);
    var i := 0;
    work, sum := before, count;
    while i < |slots| && sum < 2
      invariant 0 <= i <= |slots|
      invariant seen.Valid() && Marking(v, target, seen.held, done, work) && AllScanned(v, target, seen.held, done - {o})
      invariant Scanned(v, target, seen.held, o, slots, i) && old(seen.held) <= seen.held
      invariant sum - |FieldsIn(v, target, done - {o}, o, slots[..i])| == count - |FieldRefs(v, target, done - {o})|
      invariant seen.tab == old(seen.tab) || fresh(seen.tab)
    {
      work, sum := ScanField(v, target, seen, work, done, o, slots, i, sum);
      i := i + 1;
    }
    words := slots[..i];
    if sum < 2 {
      assert words == slots;
      ObjectScanned(v, target, seen.held, done, o, slots);
    }
  }

  lemma ObjectScanned(v: View, target: int, held: set<nat>, done: set<nat>, o: nat, slots: seq<int>)
    requires WellFormed(v) && o in v.store && Lists(v, o, slots)
    requires AllScanned(v, target, held, done - {o}) && Scanned(v, target, held, o, slots, |slots|)
    ensures AllScanned(v, target, held, done)
  {
    hide Fields;
    forall j | j in Fields(v, o) && Ref(v.store[o][j]) && v.store[o][j] != target ensures v.store[o][j] in held {
      assert j in slots;
    }
  }

  lemma PopKeeps(v: View, target: int, held: set<nat>, done: set<nat>, work: seq<nat>)
    requires WellFormed(v) && Marking(v, target, held, done, work) && work != []
    ensures var o := work[|work| - 1];
      && o !in done && o in v.store && Reached(v, target, o)
      && Marking(v, target, held, done + {o}, work[..|work| - 1])
  {
    hide WellFormed, Reached;
    var o, rest := work[|work| - 1], work[..|work| - 1];
    assert work == rest + [o];
  }

  /** The count after an object: all that its fields add, or at least two. */
  lemma CountHolds(v: View, target: int, done: set<nat>, o: nat, sum: nat, words: seq<int>)
    requires WellFormed(v) && (forall x | x in done :: x in v.store && Reached(v, target, x))
    requires o in v.store && o !in done && Reached(v, target, o)
    requires sum == |StaticRefs(v, target)| + |FieldsIn(v, target, done, o, words)|
    ensures sum <= References(v, target)
    ensures Lists(v, o, words) ==> sum == |StaticRefs(v, target)| + |FieldRefs(v, target, done + {o})|
  {
    hide Fields, Reached, StaticRefs, FieldRefs, WellFormed, FieldsIn, Lists;
    FieldSome(v, target, done, o, words);
    if Lists(v, o, words) { FieldEnds(v, target, done, o, words); }
  }

  /** What the loop over the work list keeps: a count under two is exact for the objects scanned so far. */
  ghost predicate Counted(v: View, target: int, held: set<nat>, done: set<nat>, count: nat)
    requires WellFormed(v)
  {
    && (forall x | x in done :: x in v.store && Reached(v, target, x))
    && (count < 2 ==>
      && count == |StaticRefs(v, target)| + |FieldRefs(v, target, done)|
      && AllScanned(v, target, held, done)
      && forall o | Seed(v, target, o) :: o in held)
    && (count >= 2 ==> References(v, target) >= 2)
  }

  /** Takes objects off the work list and scans them until it is empty or two references are counted. */
  method Drain(v: View, target: int, seen: SeenSet.Set, before: seq<nat>, already: nat)
    returns (count: nat, ghost order: seq<nat>)
    requires WellFormed(v) && seen.Valid() && Marking(v, target, seen.held, {}, before)
    requires Counted(v, target, seen.held, {}, already)
    modifies seen, seen.tab
    ensures Min(2, count) == Min(2, References(v, target))
    ensures Distinct(order) && forall o | o in order :: Reached(v, target, o)
    ensures count < 2 ==> forall o | o in ReachedSet(v, target) :: o in order
  {
    hide WellFormed, Marking, Reached, AllScanned, References, FieldRefs, StaticRefs, Seed, FieldsIn, ReachedSet, Fields, Counted, Lists;
    order := [];
    var work := before;
    count := already;
    ghost var done: set<nat> := {};
    CountedReached(v, target, seen.held, done, count);
    while work != [] && count < 2
      invariant seen.Valid() && Marking(v, target, seen.held, done, work) && Counted(v, target, seen.held, done, count)
      invariant (forall o :: o in order <==> o in done) && (forall x | x in done :: x in v.store && Reached(v, target, x))
      invariant Distinct(order) && (seen.tab == old(seen.tab) || fresh(seen.tab))
      decreases |v.store.Keys - done|
    {
      PopKeeps(v, target, seen.held, done, work);
      var o := work[|work| - 1];
      ghost var was, c, held := done, count, seen.held;
      Fewer(v.store.Keys, done, o);
      CountedParts(v, target, held, was, c);
      done := done + {o};
      assert done - {o} == was;
      order := order + [o];
      ghost var words;
      work, count, words := ScanObject(v, target, seen, work[..|work| - 1], done, o, count);
      CountHolds(v, target, was, o, count, words);
      CountedNext(v, target, held, seen.held, was, o, c, count);
    }
    if count < 2 {
      CountedParts(v, target, seen.held, done, count);
      AllReached(v, target, seen.held, done);
      Exact(v, target, done, count);
    } else {
      CountedMany(v, target, seen.held, done, count);
    }
  }

  lemma CountedReached(v: View, target: int, held: set<nat>, done: set<nat>, count: nat)
    requires WellFormed(v) && Counted(v, target, held, done, count)
    ensures forall x | x in done :: x in v.store && Reached(v, target, x)
  {
  }

  lemma CountedParts(v: View, target: int, held: set<nat>, done: set<nat>, count: nat)
    requires WellFormed(v) && Counted(v, target, held, done, count) && count < 2
    ensures forall x | x in done :: x in v.store && Reached(v, target, x)
    ensures count == |StaticRefs(v, target)| + |FieldRefs(v, target, done)|
    ensures AllScanned(v, target, held, done) && forall o | Seed(v, target, o) :: o in held
  {
  }

  lemma CountedMany(v: View, target: int, held: set<nat>, done: set<nat>, count: nat)
    requires WellFormed(v) && Counted(v, target, held, done, count) && count >= 2
    ensures References(v, target) >= 2
  {
  }

  lemma CountedNext(v: View, target: int, was: set<nat>, now: set<nat>, done: set<nat>, o: nat, count: nat, sum: nat)
    requires WellFormed(v) && Counted(v, target, was, done, count) && count < 2 && was <= now
    requires o in v.store && Reached(v, target, o) && sum <= References(v, target)
    requires forall x | x in done + {o} :: x in v.store
    requires sum < 2 ==>
      AllScanned(v, target, now, done + {o}) && sum == |StaticRefs(v, target)| + |FieldRefs(v, target, done + {o})|
    ensures Counted(v, target, now, done + {o}, sum)
  {
    hide AllScanned, Fields, FieldRefs, StaticRefs, References, Reached, Seed;
  }

  /** The query: the number of references to the target in static slots and in the fields of the objects
      reachable without passing through it, at most two.  Each of those objects is scanned at most once,
      and below two exactly once. */
  method Query(v: View, target: int) returns (result: nat, ghost order: seq<nat>)
    requires WellFormed(v)
    ensures result == Min(2, References(v, target))
    ensures Distinct(order) && forall o | o in order :: Reached(v, target, o)
    ensures target != 0 && result < 2 ==> forall o | o in ReachedSet(v, target) :: o in order
  {
    hide WellFormed, Marking, Reached, AllScanned, References, FieldRefs, RowsSeen, StaticRefs, Seed, ReachedSet, Fields, Counted;
    if target == 0 {
      NoReferences(v);
      return 0, [];
    }
    var seen := new SeenSet.Set();
    var work, count := SeedStatics(v, target, seen);
    ghost var was := seen.held;
    work := SeedFrames(v, target, seen, work, count);
    RowsGrow(v.statics, target, was, seen.held, |v.statics|, 0);
    AtStart(v, target, seen.held, count);
    count, order := Drain(v, target, seen, work, count);
    result := if count >= 2 then 2 else count;
  }

  lemma NoReferences(v: View)
    requires WellFormed(v)
    ensures References(v, 0) == 0
  {
    hide Fields;
    assert StaticRefs(v, 0) == {} && FieldRefs(v, 0, ReachedSet(v, 0)) == {};
  }

  lemma AtStart(v: View, target: int, held: set<nat>, count: nat)
    requires WellFormed(v) && count == |StaticRefs(v, target)|
    requires RowsSeen(v.statics, target, held, |v.statics|, 0)
    requires count < 2 ==> RowsSeen(v.frames, target, held, |v.frames|, 0)
    ensures Counted(v, target, held, {}, count)
  {
    hide Fields;
    assert FieldRefs(v, target, {}) == {};
    if count < 2 { SeedsSeen(v, target, held); }
  }

  lemma Exact(v: View, target: int, done: set<nat>, count: nat)
    requires WellFormed(v) && ReachedSet(v, target) == done
    requires (forall o | o in done :: o in v.store) && count == |StaticRefs(v, target)| + |FieldRefs(v, target, done)|
    ensures count == References(v, target)
  {
  }

  lemma Fewer(all: set<int>, done: set<nat>, o: nat)
    requires o in all && o !in done
    ensures |all - (done + {o})| < |all - done|
  {
    assert all - done == (all - (done + {o})) + {o};
  }
}
