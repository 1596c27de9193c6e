/** A Robin Hood hash table: an entry sits at its home slot or after it, and no entry is closer to home
    than one it could have displaced.  A key's home is its remainder by the table's size, which is a
    power of two. */
module RobinHood {
  import opened Ring

  type Key = nat
  datatype Entry = Entry(k: Key, v: int)
  datatype Table = Table(data: seq<Entry>, bits: seq<bool>)

  ghost predicate Shape(t: Table) {
    |t.data| == |t.bits| > 0
  }

  /** How far the entry in slot `i` is from home. */
  function Dist(t: Table, i: int): int
    requires |t.data| == |t.bits| > 0 && 0 <= i < |t.bits|
  {
    Sub(i, Slot(t.data[i].k, |t.bits|), |t.bits|)
  }

  /** An entry away from home stands right after one that is at most one place less far from its own. */
  ghost predicate Ordered(t: Table)
    requires Shape(t)
  {
    forall i | 0 <= i < |t.bits| && t.bits[i] && Dist(t, i) > 0 ::
      t.bits[Sub(i, 1, |t.bits|)] && Dist(t, Sub(i, 1, |t.bits|)) >= Dist(t, i) - 1
  }

  ghost predicate At(t: Table, i: int, k: Key) {
    0 <= i < |t.bits| && |t.data| == |t.bits| && t.bits[i] && t.data[i].k == k
  }

  ghost predicate Unique(t: Table) {
    forall i, j, k :: At(t, i, k) && At(t, j, k) ==> i == j
  }

  /** The table holds exactly the pairs of the map. */
  ghost predicate Represents(t: Table, m: map<Key, int>)
    requires Shape(t)
  {
    && (forall i | 0 <= i < |t.bits| && t.bits[i] :: t.data[i].k in m && m[t.data[i].k] == t.data[i].v)
    && (forall k | k in m :: exists i :: At(t, i, k))
  }

  // ----- searching -------------------------------------------------------------------------

  /** Every slot from an entry's home up to the entry is full, and no closer to home than its offset. */
  lemma {:induction false} Path(t: Table, i: nat, d: nat)
    requires Shape(t) && Ordered(t) && i < |t.bits| && t.bits[i] && d <= Dist(t, i)
    ensures var s := Add(Slot(t.data[i].k, |t.bits|), d, |t.bits|); 0 <= s < |t.bits| && t.bits[s] && Dist(t, s) >= d
    decreases Dist(t, i) - d
  {
    var n, h := |t.bits|, Slot(t.data[i].k, |t.bits|);
    if d == Dist(t, i) {
      assert Add(h, d, n) == i;
    } else {
      Path(t, i, d + 1);
      var s := Add(h, d + 1, n);
      assert Sub(s, 1, n) == Add(h, d, n);
    }
  }

  /** The first `d` slots from the home of `k` are full, at least as far from home as their offset,
      and hold other keys. */
  ghost predicate Passed(t: Table, k: Key, d: int)
    requires Shape(t)
  {
    forall e | 0 <= e < d && e < |t.bits| ::
      var s := Add(Slot(k, |t.bits|), e, |t.bits|);
      t.bits[s] && t.data[s].k != k && Dist(t, s) >= e
  }

  /** A search that comes to an empty slot, or to an entry closer to home than the search, has missed nothing. */
  lemma NotThere(t: Table, k: Key, d: nat)
    requires Shape(t) && Ordered(t) && Passed(t, k, d) && d < |t.bits|
    requires var s := Add(Slot(k, |t.bits|), d, |t.bits|); !t.bits[s] || Dist(t, s) < d
    ensures forall i :: !At(t, i, k)
  {
    forall i ensures !At(t, i, k) {
      if At(t, i, k) {
        var D := Dist(t, i);
        assert Add(Slot(k, |t.bits|), D, |t.bits|) == i;
        if D >= d { Path(t, i, d); }
      }
    }
  }

  /** With an empty slot somewhere a search stops before it has gone round. */
  lemma StopsInTime(t: Table, k: Key, d: nat, gap: nat)
    requires Shape(t) && Passed(t, k, d) && gap < |t.bits| && !t.bits[gap] && d <= |t.bits|
    ensures d <= Sub(gap, Slot(k, |t.bits|), |t.bits|) < |t.bits|
  {
    var n, h := |t.bits|, Slot(k, |t.bits|);
    var e := Sub(gap, h, n);
    assert Add(h, e, n) == gap;
  }

  // ----- inserting -------------------------------------------------------------------------

  /** From `idx` on, `m` slots are full and the next is empty. */
  ghost predicate Run(t: Table, idx: int, m: int)
    requires Shape(t) && 0 <= idx < |t.bits|
  {
    && 0 <= m < |t.bits| && !t.bits[Add(idx, m, |t.bits|)]
    && forall j | 0 <= j < m :: t.bits[Add(idx, j, |t.bits|)]
  }

  function InsertedAt(t: Table, idx: int, m: int, e: Entry, i: int): Entry
    requires |t.data| == |t.bits| > 0 && 0 <= idx < |t.bits| && 0 <= i < |t.bits|
  {
    if i == idx then e else if Sub(i, idx, |t.bits|) <= m then t.data[Sub(i, 1, |t.bits|)] else t.data[i]
  }

  /** The run moves up one slot and the entry takes the slot freed at `idx`. */
  ghost predicate Inserted(t: Table, r: Table, idx: int, m: int, e: Entry)
    requires Shape(t) && 0 <= idx < |t.bits| && 0 <= m < |t.bits|
  {
    && |r.data| == |r.bits| == |t.bits| && r.bits == t.bits[Add(idx, m, |t.bits|) := true]
    && forall i | 0 <= i < |t.bits| :: r.data[i] == InsertedAt(t, idx, m, e, i)
  }

  /** Where a new key goes: past every entry at least as far from home, before the first that is closer. */
  ghost predicate Spot(t: Table, k: Key, d: int)
    requires Shape(t)
  {
    && 0 <= d < |t.bits| && Passed(t, k, d)
    && var s := Add(Slot(k, |t.bits|), d, |t.bits|); t.bits[s] ==> Dist(t, s) < d
  }

  /** An entry that moves up is one further from home: with a gap in the table it is not home again. */
  lemma MovedDist(t: Table, i: nat, gap: nat)
    requires Shape(t) && Ordered(t) && i < |t.bits| && t.bits[i] && gap < |t.bits| && !t.bits[gap]
    ensures var n := |t.bits|; Sub(Add(i, 1, n), Slot(t.data[i].k, n), n) == Dist(t, i) + 1
  {
    var n, h := |t.bits|, Slot(t.data[i].k, |t.bits|);
    var e := Sub(gap, h, n);
    assert Add(h, e, n) == gap;
    if Dist(t, i) == n - 1 { Path(t, i, e); }
  }

  /** What slot `i` holds afterwards, and how far that is from home. */
  lemma InsertedSlot(t: Table, r: Table, k: Key, v: int, d: nat, m: nat, i: nat)
    requires Shape(t) && Ordered(t) && Spot(t, k, d) && Run(t, Add(Slot(k, |t.bits|), d, |t.bits|), m) && i < |t.bits|
    requires Inserted(t, r, Add(Slot(k, |t.bits|), d, |t.bits|), m, Entry(k, v))
    ensures var n := |t.bits|; var idx := Add(Slot(k, n), d, n);
      if i == idx then r.bits[i] && r.data[i] == Entry(k, v) && Dist(r, i) == d
      else if Sub(i, idx, n) <= m then
        r.bits[i] && t.bits[Sub(i, 1, n)] && r.data[i] == t.data[Sub(i, 1, n)] && Dist(r, i) == Dist(t, Sub(i, 1, n)) + 1
      else r.bits[i] == t.bits[i] && r.data[i] == t.data[i] && Dist(r, i) == Dist(t, i)
  {
    var n := |t.bits|;
    SlotAfter(k, d, n);
    hide Ordered, Spot, Slot;
    var idx := Add(Slot(k, n), d, n);
    var j := Sub(i, idx, n);
    assert Add(idx, j, n) == i;
    if 0 < j <= m {
      assert Add(idx, j - 1, n) == Sub(i, 1, n);
      MovedDist(t, Sub(i, 1, n), Add(idx, m, n));
      assert Add(Sub(i, 1, n), 1, n) == i;
    }
  }

  lemma InsertedOrdered(t: Table, r: Table, k: Key, v: int, d: nat, m: nat)
    requires Shape(t) && Ordered(t) && Spot(t, k, d) && Run(t, Add(Slot(k, |t.bits|), d, |t.bits|), m)
    requires Inserted(t, r, Add(Slot(k, |t.bits|), d, |t.bits|), m, Entry(k, v))
    ensures Ordered(r)
  {
    var n := |t.bits|;
    forall i | 0 <= i < n && r.bits[i] && Dist(r, i) > 0
      ensures r.bits[Sub(i, 1, n)] && Dist(r, Sub(i, 1, n)) >= Dist(r, i) - 1
    {
      InsertedNext(t, r, k, v, d, m, i);
    }
  }

  lemma InsertedNext(t: Table, r: Table, k: Key, v: int, d: nat, m: nat, i: nat)
    requires Shape(t) && Ordered(t) && Spot(t, k, d) && Run(t, Add(Slot(k, |t.bits|), d, |t.bits|), m)
    requires Inserted(t, r, Add(Slot(k, |t.bits|), d, |t.bits|), m, Entry(k, v))
    requires i < |t.bits| && r.bits[i] && Dist(r, i) > 0
    ensures r.bits[Sub(i, 1, |t.bits|)] && Dist(r, Sub(i, 1, |t.bits|)) >= Dist(r, i) - 1
  {
    var n := |t.bits|;
    SlotAfter(k, d, n);
    var h := Slot(k, n);
    var idx := Add(h, d, n);
    var p := Sub(i, 1, n);
    InsertedSlot(t, r, k, v, d, m, i);
    InsertedSlot(t, r, k, v, d, m, p);
    if i == idx {
      assert p == Add(h, d - 1, n);
      assert t.bits[p] && Dist(t, p) >= d - 1;
      assert Sub(p, idx, n) == n - 1 && Add(idx, n - 1, n) == p;
    }
    assert Sub(i, idx, n) == m + 1 ==> p == Add(idx, m, n);
    hide Passed, Inserted, Slot, InsertedAt;
  }

  /** Every key is still there once. */
  lemma InsertedUnique(t: Table, r: Table, k: Key, v: int, d: nat, m: nat)
    requires Shape(t) && Ordered(t) && Unique(t) && forall i :: !At(t, i, k)
    requires Spot(t, k, d) && Run(t, Add(Slot(k, |t.bits|), d, |t.bits|), m)
    requires Inserted(t, r, Add(Slot(k, |t.bits|), d, |t.bits|), m, Entry(k, v))
    ensures Unique(r)
  {
    var n := |t.bits|;
    SlotAfter(k, d, n);
    var idx := Add(Slot(k, n), d, n);
    forall i, j, x | At(r, i, x) && At(r, j, x) ensures i == j {
      InsertedSlot(t, r, k, v, d, m, i);
      InsertedSlot(t, r, k, v, d, m, j);
      var a := if Sub(i, idx, n) <= m then Sub(i, 1, n) else i;
      var b := if Sub(j, idx, n) <= m then Sub(j, 1, n) else j;
      assert i != idx ==> At(t, a, x);
      assert j != idx ==> At(t, b, x);
      if i != idx && j != idx { MovedFrom(t, idx, m, i, j); }
    }
  }

  /** The map gains the pair. */
  lemma InsertedRepresents(t: Table, r: Table, k: Key, v: int, d: nat, m: nat, model: map<Key, int>)
    requires Shape(t) && Ordered(t) && Represents(t, model) && k !in model
    requires Spot(t, k, d) && Run(t, Add(Slot(k, |t.bits|), d, |t.bits|), m)
    requires Inserted(t, r, Add(Slot(k, |t.bits|), d, |t.bits|), m, Entry(k, v))
    ensures Represents(r, model[k := v])
  {
    var n := |t.bits|;
    SlotAfter(k, d, n);
    var idx := Add(Slot(k, n), d, n);
    forall i | 0 <= i < n && r.bits[i]
      ensures r.data[i].k in model[k := v] && model[k := v][r.data[i].k] == r.data[i].v
    {
      InsertedSlot(t, r, k, v, d, m, i);
    }
    InsertedSlot(t, r, k, v, d, m, idx);
    assert At(r, idx, k);
    forall x | x in model ensures exists i :: At(r, i, x) {
      var i :| At(t, i, x);
      var i2 := MovedTo(t, r, k, v, d, m, i);
      assert At(r, i2, x);
    }
    hide Inserted, Spot, Ordered;
  }

  /** Where an old entry is now. */
  lemma MovedTo(t: Table, r: Table, k: Key, v: int, d: nat, m: nat, i: nat) returns (i2: nat)
    requires Shape(t) && Ordered(t) && Spot(t, k, d) && Run(t, Add(Slot(k, |t.bits|), d, |t.bits|), m)
    requires Inserted(t, r, Add(Slot(k, |t.bits|), d, |t.bits|), m, Entry(k, v))
    requires i < |t.bits| && t.bits[i]
    ensures i2 < |t.bits| && r.bits[i2] && r.data[i2] == t.data[i]
  {
    var n := |t.bits|;
    SlotAfter(k, d, n);
    var idx := Add(Slot(k, n), d, n);
    var j := Sub(i, idx, n);
    assert Add(idx, j, n) == i;
    i2 := if j < m then Add(i, 1, n) else i;
    InsertedSlot(t, r, k, v, d, m, i2);
    MovedOffset(idx, i, m, n);
    hide Ordered, Spot, Inserted, Dist, Slot, InsertedAt;
  }

  lemma MovedOffset(idx: nat, i: nat, m: nat, n: nat)
    requires idx < n && i < n && m < n
    ensures var j := Sub(i, idx, n);
      && (j < m ==> Add(i, 1, n) != idx && Sub(Add(i, 1, n), idx, n) == j + 1 && Sub(Add(i, 1, n), 1, n) == i)
      && (j == m ==> i == Add(idx, m, n))
      && (j > m ==> i != idx)
  {
  }

  lemma MovedFrom(t: Table, idx: nat, m: nat, i: nat, j: nat)
    requires Shape(t) && idx < |t.bits| && m < |t.bits| && i < |t.bits| && j < |t.bits| && i != idx && j != idx
    requires Run(t, idx, m)
    requires var n := |t.bits|;
      var a := if Sub(i, idx, n) <= m then Sub(i, 1, n) else i;
      var b := if Sub(j, idx, n) <= m then Sub(j, 1, n) else j;
      a == b && t.bits[a]
    ensures i == j
  {
    var n := |t.bits|;
    assert Add(idx, Sub(i, idx, n), n) == i && Add(idx, Sub(j, idx, n), n) == j;
  }

  // ----- removing --------------------------------------------------------------------------

  /** After slot `p`, `m` entries in a row are away from home, and then comes one at home or a gap. */
  ghost predicate Tail(t: Table, p: int, m: int)
    requires Shape(t) && 0 <= p < |t.bits|
  {
    && 0 <= m < |t.bits| - 1
    && (forall j | 1 <= j <= m :: t.bits[Add(p, j, |t.bits|)] && Dist(t, Add(p, j, |t.bits|)) > 0)
    && var s := Add(p, m + 1, |t.bits|); t.bits[s] ==> Dist(t, s) == 0
  }

  function RemovedAt(t: Table, p: int, m: int, i: int): Entry
    requires |t.data| == |t.bits| > 0 && 0 <= p < |t.bits| && 0 <= i < |t.bits|
  {
    if Sub(i, p, |t.bits|) < m then t.data[Add(i, 1, |t.bits|)] else t.data[i]
  }

  /** The entries after `p` move down one slot each, and the last slot is freed. */
  ghost predicate Removed(t: Table, r: Table, p: int, m: int)
    requires Shape(t) && 0 <= p < |t.bits| && 0 <= m < |t.bits|
  {
    && |r.data| == |r.bits| == |t.bits| && r.bits == t.bits[Add(p, m, |t.bits|) := false]
    && forall i | 0 <= i < |t.bits| :: r.data[i] == RemovedAt(t, p, m, i)
  }

  lemma RemovedSlot(t: Table, r: Table, p: nat, m: nat, i: nat)
    requires Shape(t) && p < |t.bits| && t.bits[p] && Tail(t, p, m) && Removed(t, r, p, m) && i < |t.bits|
    ensures var n := |t.bits|;
      if Sub(i, p, n) < m then
        && r.bits[i] && t.bits[i] && t.bits[Add(i, 1, n)] && r.data[i] == t.data[Add(i, 1, n)]
        && Dist(t, Add(i, 1, n)) > 0 && Dist(r, i) == Dist(t, Add(i, 1, n)) - 1
      else if Sub(i, p, n) == m then !r.bits[i]
      else r.bits[i] == t.bits[i] && r.data[i] == t.data[i] && Dist(r, i) == Dist(t, i)
  {
    var n := |t.bits|;
    var j := Sub(i, p, n);
    assert Add(p, j, n) == i;
    assert j < m ==> Add(p, j + 1, n) == Add(i, 1, n) && Add(i, 1, n) != Add(p, 0, n);
    var next := Add(i, 1, n);
  }

  lemma RemovedOrdered(t: Table, r: Table, p: nat, m: nat)
    requires Shape(t) && Ordered(t) && p < |t.bits| && t.bits[p] && Tail(t, p, m) && Removed(t, r, p, m)
    ensures Ordered(r)
  {
    var n := |t.bits|;
    forall i | 0 <= i < n && r.bits[i] && Dist(r, i) > 0
      ensures r.bits[Sub(i, 1, n)] && Dist(r, Sub(i, 1, n)) >= Dist(r, i) - 1
    {
      RemovedNext(t, r, p, m, i);
    }
  }

  lemma RemovedNext(t: Table, r: Table, p: nat, m: nat, i: nat)
    requires Shape(t) && Ordered(t) && p < |t.bits| && t.bits[p] && Tail(t, p, m) && Removed(t, r, p, m)
    requires i < |t.bits| && r.bits[i] && Dist(r, i) > 0
    ensures r.bits[Sub(i, 1, |t.bits|)] && Dist(r, Sub(i, 1, |t.bits|)) >= Dist(r, i) - 1
  {
    var n := |t.bits|;
    var q, next := Sub(i, 1, n), Add(i, 1, n);
    RemovedSlot(t, r, p, m, i);
    RemovedSlot(t, r, p, m, q);
    Neighbours(p, i, m, n);
    assert Sub(next, 1, n) == i;
    hide Removed, RemovedAt, Slot;
  }

  lemma Neighbours(p: nat, i: nat, m: nat, n: nat)
    requires p < n && i < n && m < n - 1
    ensures var j := Sub(i, p, n);
      && (j == 0 ==> i == p && Sub(Sub(i, 1, n), p, n) == n - 1)
      && (j > 0 ==> Sub(Sub(i, 1, n), p, n) == j - 1)
      && (j == m + 1 ==> i == Add(p, m + 1, n))
  {
  }

  lemma RemovedUnique(t: Table, r: Table, p: nat, m: nat)
    requires Shape(t) && Unique(t) && p < |t.bits| && t.bits[p] && Tail(t, p, m) && Removed(t, r, p, m)
    ensures Unique(r)
  {
    var n := |t.bits|;
    forall i, j, x | At(r, i, x) && At(r, j, x) ensures i == j {
      RemovedSlot(t, r, p, m, i);
      RemovedSlot(t, r, p, m, j);
      var a := if Sub(i, p, n) < m then Add(i, 1, n) else i;
      var b := if Sub(j, p, n) < m then Add(j, 1, n) else j;
      assert At(t, a, x) && At(t, b, x);
      OffsetsApart(p, m, i, j, n);
    }
  }

  lemma OffsetsApart(p: nat, m: nat, i: nat, j: nat, n: nat)
    requires p < n && m < n - 1 && i < n && j < n && Sub(i, p, n) != m && Sub(j, p, n) != m
    requires (if Sub(i, p, n) < m then Add(i, 1, n) else i) == (if Sub(j, p, n) < m then Add(j, 1, n) else j)
    ensures i == j
  {
  }

  lemma RemovedRepresents(t: Table, r: Table, p: nat, m: nat, model: map<Key, int>)
    requires Shape(t) && Unique(t) && Represents(t, model) && p < |t.bits| && t.bits[p] && Tail(t, p, m) && Removed(t, r, p, m)
    ensures Represents(r, model - {t.data[p].k})
  {
    var n, k := |t.bits|, t.data[p].k;
    forall i | 0 <= i < n && r.bits[i]
      ensures r.data[i].k in model - {k} && (model - {k})[r.data[i].k] == r.data[i].v
    {
      RemovedSlot(t, r, p, m, i);
      var a := if Sub(i, p, n) < m then Add(i, 1, n) else i;
      assert At(t, a, r.data[i].k) && At(t, p, k);
      assert Add(p, 0, n) == p && Add(p, Sub(i, p, n), n) == i;
    }
    forall x | x in model - {k} ensures exists i :: At(r, i, x) {
      var i :| At(t, i, x);
      var i2 := if 1 <= Sub(i, p, n) <= m then Sub(i, 1, n) else i;
      Neighbours(p, i, m, n);
      RemovedSlot(t, r, p, m, i2);
      assert At(t, p, k) && Add(Sub(i, 1, n), 1, n) == i;
      assert At(r, i2, x);
    }
  }

  /** Overwriting the value of a key that is there. */
  lemma Overwritten(t: Table, r: Table, i: nat, k: Key, v: int, model: map<Key, int>)
    requires Shape(t) && Ordered(t) && Unique(t) && Represents(t, model) && At(t, i, k)
    requires r == Table(t.data[i := Entry(k, v)], t.bits)
    ensures Ordered(r) && Unique(r) && Represents(r, model[k := v]) && k in model
  {
    forall j | 0 <= j < |t.bits| ensures Dist(r, j) == Dist(t, j) && r.data[j].k == t.data[j].k {}
    forall j, x ensures At(r, j, x) == At(t, j, x) {}
    forall j | 0 <= j < |r.bits| && r.bits[j]
      ensures r.data[j].k in model[k := v] && model[k := v][r.data[j].k] == r.data[j].v
    {
      assert At(t, j, t.data[j].k);
    }
    forall x | x in model ensures exists j :: At(r, j, x) {
      var j :| At(t, j, x);
      assert At(r, j, x);
    }
    assert At(r, i, k);
  }

  /** In a table that represents a map, a key no slot holds is not in the map. */
  lemma Absent(t: Table, model: map<Key, int>, k: Key)
    requires Shape(t) && Represents(t, model) && forall i :: !At(t, i, k)
    ensures k !in model
  {
  }

  lemma Present(t: Table, model: map<Key, int>, i: nat)
    requires Shape(t) && Represents(t, model) && i < |t.bits| && t.bits[i]
    ensures t.data[i].k in model && model[t.data[i].k] == t.data[i].v && At(t, i, t.data[i].k)
  {
  }

  // ----- one step of a search --------------------------------------------------------------

  /** A full slot, at least as far from home as the search, that holds another key, is passed. */
  lemma PassOne(t: Table, k: Key, d: nat)
    requires Shape(t) && Passed(t, k, d) && d < |t.bits|
    requires var s := Add(Slot(k, |t.bits|), d, |t.bits|);
      0 <= s < |t.bits| && t.bits[s] && Dist(t, s) >= d && (t.data[s].k != k || Dist(t, s) > d)
    ensures Passed(t, k, d + 1)
  {
  }

  /** Next to an entry as far from home as the search stands one at most one place further. */
  lemma NextNoFurther(t: Table, k: Key, d: nat)
    requires Shape(t) && Ordered(t) && d + 1 < |t.bits|
    requires var s := Add(Slot(k, |t.bits|), d, |t.bits|); 0 <= s < |t.bits| && t.bits[s] && Dist(t, s) == d
    ensures var s := Add(Slot(k, |t.bits|), d + 1, |t.bits|); 0 <= s < |t.bits| && (t.bits[s] ==> Dist(t, s) <= d + 1)
  {
    var n := |t.bits|;
    var s, s2 := Add(Slot(k, n), d, n), Add(Slot(k, n), d + 1, n);
    assert Sub(s2, 1, n) == s;
  }
}
