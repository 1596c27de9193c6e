/** The hash table as the code keeps it, in two arrays rewritten in place, and the address map on top. */
module AddressMap {
  import opened Ring
  import opened RobinHood
  import opened AddressHash

  class HashTable {
    var data: array<Entry>
    var bits: array<bool>
    var size: nat
    var nItems: nat
    ghost var model: map<Key, int>

    function Now(): Table
      reads this, data, bits
    {
      Table(data[..], bits[..])
    }

    ghost predicate Valid()
      reads this, data, bits
    {
      && data.Length == bits.Length == size && size >= 8 && PowerOfTwo(size)
      && Ordered(Now()) && Unique(Now()) && Represents(Now(), model)
      && nItems == Count(bits[..]) < size
    }

    constructor (size: nat)
      requires size >= 8 && PowerOfTwo(size)
      ensures Valid() && model == map[] && this.size == size && nItems == 0 && fresh(data) && fresh(bits)
    {
      data := new Entry[size](_ => Entry(0, 0));
      bits := new bool[size](_ => false);
      this.size, nItems, model := size, 0, map[];
      new;
      CountNone(bits[..]);
    }

    /** The slot of an index that may run past the end: in use or not, its entry, and how far that is
        from home. */
    method Look(idx: nat, ghost t: Table) returns (full: bool, e: Entry, dist: int)
      requires data.Length == bits.Length == size > 0 && t == Now()
      ensures var s := Slot(idx, size); 0 <= s < size == |t.data| && full == t.bits[s] && e == t.data[s] && dist == Dist(t, s)
    {
      DistanceIs(idx, data[Slot(idx, size)].k, size);
      full := bits[Slot(idx, size)];
      e := data[Slot(idx, size)];
      dist := Slot(idx - e.k, size);
    }

    method SlotEntry(i: nat, ghost t: Table) returns (full: bool, e: Entry)
      requires Valid() && t == Now() && i < size
      ensures i < |t.bits| && Shape(t) && full == t.bits[i] && e == t.data[i]
    {
      hide Ordered, Unique, Represents, Slot, Dist;
      SlotOfSmall(i, size);
      var dist;
      full, e, dist := Look(i, t);
    }

    /** The slot `d` places after the key's home. */
    method LookAfter(k: Key, d: nat, ghost t: Table) returns (full: bool, e: Entry, dist: int)
      requires Valid() && t == Now() && d < size
      ensures Sees(t, k, d, full, e, dist)
    {
      SlotAfter(k, d, size);
      full, e, dist := Look(k + d, t);
    }

    lemma Basics(t: Table) returns (gap: nat)
      requires Valid() && t == Now()
      ensures Shape(t) && |t.bits| == size > 0
      ensures Ordered(t) && Unique(t) && Represents(t, model)
      ensures gap < size && !t.bits[gap]
      ensures data.Length == bits.Length == size && size >= 8 && PowerOfTwo(size) && nItems == Count(t.bits) < size
    {
      gap := SomeEmpty(t.bits);
    }

    /** Walks from the key's home past the entries further from theirs, then past those exactly as far.
        Either the key is found, or the place where it goes. */
    method FindSpot(k: Key, ghost t: Table) returns (found: bool, d: nat)
      requires Valid() && t == Now()
      ensures d < size == |t.bits|
      ensures found ==> At(t, Add(Slot(k, |t.bits|), d, |t.bits|), k)
      ensures !found ==> Spot(t, k, d) && (forall i :: !At(t, i, k)) && k !in model
    {
      hide Ordered, Unique, Represents, Passed, Slot, Dist, Valid, Add, Now, Sub, Sees, Spot, At;
      ghost var gap := Basics(t);
      d, found := 0, false;
      NonePassed(t, k);
      var full, e, dist := LookAfter(k, d, t);
      while full && d < dist
        invariant d < size && Passed(t, k, d) && Sees(t, k, d, full, e, dist)
        decreases size - d
      {
        PassFurther(t, k, d, e, dist, gap);
        d := d + 1;
        full, e, dist := LookAfter(k, d, t);
      }
      while full && d == dist
        invariant d < size && Passed(t, k, d) && Sees(t, k, d, full, e, dist) && (full ==> dist <= d)
        decreases size - d
      {
        if e.k == k {
          FoundAt(t, k, d, e, dist);
          return true, d;
        }
        PassEqual(t, k, d, e, gap);
        d := d + 1;
        ghost var before := e;
        full, e, dist := LookAfter(k, d, t);
        NextSees(t, k, d - 1, before, full, e, dist);
      }
      SpotAt(t, k, d, full, e, dist);
      Absent(t, model, k);
    }

    /** Whether the slot `j` places after an index is in use. */
    method SlotFull(idx: nat, j: nat, ghost t: Table) returns (full: bool)
      requires Valid() && t == Now() && j < size
      ensures full == FullAt(t, Slot(idx, size), j)
    {
      SlotAfter(idx, j, size);
      full := bits[Slot(idx + j, size)];
    }

    /** How many slots in a row are full from an index on. */
    method CountFull(idx: nat, ghost t: Table) returns (m: nat)
      requires Valid() && t == Now()
      ensures m < size == |t.bits| && Run(t, Slot(idx, size), m)
    {
      hide Ordered, Unique, Represents, Valid, Now, Add, Sub, FullAt, FullFrom, Run;
      ghost var gap := Basics(t);
      m := 0;
      ghost var s := Slot(idx, size);
      NoneFull(t, s);
      var full := SlotFull(idx, m, t);
      while full
        invariant m < size && FullFrom(t, s, m) && full == FullAt(t, s, m)
        decreases size - m
      {
        FullMore(t, s, m, gap);
        m := m + 1;
        full := SlotFull(idx, m, t);
      }
      RunFound(t, s, m);
    }

    /** Moves the entries of a run up by one slot, the last first. */
    method ShiftUp(idx: nat, m: nat, ghost t: Table)
      requires data.Length == bits.Length == size == |t.bits| && Shape(t) && t.data == data[..]
      requires m < size
      modifies data
      ensures Shifted(t, data[..], Slot(idx, size), m, 0)
    {
      hide Shifted, Shape, Add;
      var i := m;
      NoneShifted(t, Slot(idx, size), m);
      while i > 0
        invariant 0 <= i <= m && Shifted(t, data[..], Slot(idx, size), m, i)
      {
        i := i - 1;
        SlotAfter(idx, i, size);
        SlotAfter(idx, i + 1, size);
        ShiftOne(t, data[..], Slot(idx, size), m, i);
        data[Slot(idx + i + 1, size)] := data[Slot(idx + i, size)];
      }
    }

    /** Moves the run that starts at an index up by one slot and takes the empty slot after it in use. */
    method OpenSlot(idx: nat, ghost t: Table) returns (ghost m: nat)
      requires Valid() && t == Now()
      modifies this`nItems, data, bits
      ensures m < size == |t.bits| && Run(t, Slot(idx, size), m)
      ensures nItems == old(nItems) + 1
      ensures var s := Add(Slot(idx, size), m, size); 0 <= s < size && bits[..] == t.bits[s := true]
      ensures Shifted(t, data[..], Slot(idx, size), m, 0)
    {
      hide Ordered, Unique, Represents, Shifted, Run, Add, Dist, At, Sub;
      var n := CountFull(idx, t);
      m := n;
      SlotAfter(idx, n, size);
      bits[Slot(idx + n, size)] := true;
      nItems := nItems + 1;
      ShiftUp(idx, n, t);
    }

    /** Puts a new key in its place, after moving the run that starts there up by one slot. */
    method PutAt(k: Key, v: int, d: nat, ghost t: Table)
      requires Valid() && t == Now() && d < size && Spot(t, k, d) && k !in model && nItems + 1 < size
      modifies this`nItems, this`model, data, bits
      ensures Valid() && model == old(model)[k := v] && nItems == old(nItems) + 1
    {
      hide Ordered, Unique, Represents, Spot, Shifted, Run, Inserted, Slot, Add, Dist, At, Sub, Valid;
      ghost var gap := Basics(t);
      SlotAfter(k, d, size);
      ghost var m := OpenSlot(k + d, t);
      ghost var now := data[..];
      data[Slot(k + d, size)] := Entry(k, v);
      PutDone(t, Now(), k, v, d, m, model, now);
      model := model[k := v];
      IsValid();
    }

    lemma IsValid()
      requires data.Length == bits.Length == size && size >= 8 && PowerOfTwo(size)
      requires Shape(Now()) && Ordered(Now()) && Unique(Now()) && Represents(Now(), model)
      requires nItems == Count(Now().bits) < size
      ensures Valid()
    {
    }

    /** The pair goes into the table; a key that is there gets the new value. */
    method DoInsert(k: Key, v: int)
      requires Valid() && nItems + 1 < size
      modifies this`nItems, this`model, data, bits
      ensures Valid() && model == old(model)[k := v]
      ensures nItems == old(nItems) + if k in old(model) then 0 else 1
    {
      hide Ordered, Unique, Represents, Spot, Slot, Add, Dist, Sub;
      ghost var t := Now();
      ghost var gap := Basics(t);
      var found, d := FindSpot(k, t);
      if found {
        SlotAfter(k, d, size);
        data[Slot(k + d, size)] := Entry(k, v);
        model := model[k := v];
        Overwritten(t, Now(), Slot(k + d, size), k, v, old(model));
      } else {
        PutAt(k, v, d, t);
      }
    }

    /** Walks from the key's home until it is found, or a slot is empty or closer to home than the search. */
    method Find(k: Key) returns (found: bool, d: nat)
      requires Valid()
      ensures found == (k in model)
      ensures found ==> Slot(k + d, size) < data.Length && data[Slot(k + d, size)].v == model[k]
    {
      hide Ordered, Unique, Represents, Passed, Slot, Dist, Valid, Add, Now, Sub, Sees, At;
      ghost var t := Now();
      ghost var gap := Basics(t);
      d := 0;
      NonePassed(t, k);
      var full, e, dist := LookAfter(k, d, t);
      while full
        invariant d < size && Passed(t, k, d) && Sees(t, k, d, full, e, dist)
        decreases size - d
      {
        if e.k == k {
          EntryFound(t, k, d, e, dist, model);
          NowIs(t);
          return true, d;
        }
        if dist < d { break; }
        PassOther(t, k, d, e, dist, gap);
        d := d + 1;
        full, e, dist := LookAfter(k, d, t);
      }
      SpotAt(t, k, d, full, e, dist);
      Absent(t, model, k);
      found := false;
    }

    lemma NowIs(t: Table)
      requires t == Now()
      ensures t.data == data[..] && t.bits == bits[..]
    {
    }

    method Contains(k: Key) returns (found: bool)
      requires Valid()
      ensures found == (k in model)
    {
      var d;
      found, d := Find(k);
    }

    method Lookup(k: Key, fallback: int) returns (v: int)
      requires Valid()
      ensures v == if k in model then model[k] else fallback
    {
      var found, d := Find(k);
      v := if found then data[Slot(k + d, size)].v else fallback;
    }

    // ----- removing ------------------------------------------------------------------------

    /** Walks from the key's home to the key, or to an empty slot. */
    method Locate(k: Key, ghost t: Table) returns (found: bool, d: nat)
      requires Valid() && t == Now()
      ensures d < size == |t.bits| && found == (k in model)
      ensures found ==> At(t, Add(Slot(k, |t.bits|), d, |t.bits|), k)
    {
      hide Ordered, Unique, Represents, Searched, Slot, Dist, Valid, Add, Now, Sub, Sees, At;
      ghost var gap := Basics(t);
      d := 0;
      NoneSearched(t, k);
      var full, e, dist := LookAfter(k, d, t);
      while full && e.k != k
        invariant d < size && Searched(t, k, d) && Sees(t, k, d, full, e, dist)
        decreases size - d
      {
        SearchOne(t, k, d, e, dist, gap);
        d := d + 1;
        full, e, dist := LookAfter(k, d, t);
      }
      found := full;
      if full {
        FoundAt(t, k, d, e, dist);
        EntryFound(t, k, d, e, dist, model);
      } else {
        NotSearched(t, k, d, e, dist);
        Absent(t, model, k);
      }
    }

    /** The slot after the ones already drawn down, as it was and still is. */
    method LookNext(last: nat, ghost s: nat, ghost m: nat, ghost t: Table) returns (full: bool, dist: int)
      requires data.Length == bits.Length == size == |t.bits| && Shape(t) && t.bits == bits[..]
      requires m + 1 < size && s < size && Slot(last, size) == Add(s, m, size) && Drawn(t, data[..], s, m)
      ensures Next(t, s, m, full, dist)
    {
      hide Ordered, Unique, Represents, Slot, Dist, Drawn, Add, Sub;
      ghost var r := Now();
      var e;
      full, e, dist := Look(last + 1, r);
      StepsTo(s, m, last, size);
      NextIs(t, r, s, m);
    }

    /** Moves the entries after a slot down by one, up to one that is at home or a gap. */
    method ShiftDown(p: nat, ghost t: Table, ghost gap: nat) returns (ghost m: nat, last: nat)
      requires data.Length == bits.Length == size == |t.bits| && Shape(t) && t == Now()
      requires gap < size && !t.bits[gap] && t.bits[Slot(p, size)]
      modifies data
      ensures m < size && Tail(t, Slot(p, size), m)
      ensures Slot(last, size) == Add(Slot(p, size), m, size) && Drawn(t, data[..], Slot(p, size), m)
    {
      hide Ordered, Unique, Represents, Slot, Dist, Drawn, Add, Sub, Next, Tail, Away;
      m, last := 0, p;
      ghost var s := Slot(p, size);
      NoneDrawn(t, s, gap);
      var full, dist := LookNext(last, s, m, t);
      while full && dist != 0
        invariant m + 1 < size && Slot(last, size) == Add(s, m, size) && t.bits == bits[..]
        invariant Away(t, s, m) && Drawn(t, data[..], s, m) && Next(t, s, m, full, dist)
        decreases size - m
      {
        DrawOne(t, data[..], s, m, dist, gap);
        StepsTo(s, m, last, size);
        data[Slot(last, size)] := data[Slot(last + 1, size)];
        last, m := last + 1, m + 1;
        full, dist := LookNext(last, s, m, t);
      }
      TailFound(t, s, m, full, dist);
    }

    /** Takes the entry `d` places after the key's home out, and fills its place from the slots after it. */
    method RemoveAt(k: Key, d: nat, ghost t: Table)
      requires Valid() && t == Now() && d < size == |t.bits| && At(t, Add(Slot(k, |t.bits|), d, |t.bits|), k)
      modifies this`nItems, this`model, data, bits
      ensures Valid() && model == old(model) - {k} && nItems == old(nItems) - 1
    {
      hide Ordered, Unique, Represents, Tail, Drawn, Removed, Slot, Add, Dist, Sub, Valid, At, Shape;
      ghost var gap := Basics(t);
      AtSlot(t, k, d);
      ghost var s := Slot(k + d, size);
      ghost var m;
      var last;
      m, last := ShiftDown(k + d, t, gap);
      LastFull(t, s, m);
      bits[Slot(last, size)] := false;
      DrawnDone(t, Now(), s, m, model);
      nItems := nItems - 1;
      model := model - {k};
      IsValid();
    }

    // ----- resizing ------------------------------------------------------------------------

    /** Puts every entry of another table into this one. */
    method Populate(src: HashTable)
      requires Valid() && model == map[] && nItems == 0 && src.Valid() && src.nItems < size
      requires src != this && src.data != data && src.bits != bits
      modifies this`nItems, this`model, data, bits
      ensures Valid() && model == src.model && nItems <= src.nItems
    {
      hide Valid, Held, Ordered, Unique, Represents, Slot, Shape, Dist, CountTo;
      ghost var t := src.Now();
      ghost var gap := src.Basics(t);
      NoneHeld(t);
      var i := 0;
      while i < src.size
        invariant 0 <= i <= src.size == |t.bits| && Valid() && src.Valid() && t == src.Now()
        invariant model == Held(t, i) && nItems <= CountTo(t, i)
      {
        CountBelow(t, i);
        HoldOne(t, i);
        var full, e := src.SlotEntry(i, t);
        if full { DoInsert(e.k, e.v); }
        i := i + 1;
      }
      HeldAll(t, src.model);
    }

    /** Moves the entries to fresh arrays of another size. */
    method Resize(newSize: nat)
      requires Valid() && nItems < newSize && newSize >= 8 && PowerOfTwo(newSize)
      modifies this
      ensures Valid() && model == old(model) && size == newSize && nItems <= old(nItems) && fresh(data) && fresh(bits)
    {
      hide Ordered, Unique, Represents, PowerOfTwo;
      var table := new HashTable(newSize);
      table.Populate(this);
      data, bits, size, nItems := table.data, table.bits, table.size, table.nItems;
      assert Now() == table.Now();
    }

    /** Adds or overwrites a pair, after doubling the table when it is seven eighths full. */
    method Insert(k: Key, v: int)
      requires Valid()
      modifies this, data, bits
      ensures Valid() && model == old(model)[k := v]
      ensures data == old(data) || fresh(data)
      ensures bits == old(bits) || fresh(bits)
    {
      hide Ordered, Unique, Represents;
      if nItems >= size - size / 8 {
        Doubled(size);
        Resize(size * 2);
      }
      DoInsert(k, v);
    }

    /** Removes a key, then halves the table when it is no more than one eighth full; `false` stands for
        the trap when the key is not there. */
    method Remove(k: Key) returns (ok: bool)
      requires Valid()
      modifies this, data, bits
      ensures Valid() && ok == (k in old(model)) && model == old(model) - {k}
      ensures data == old(data) || fresh(data)
      ensures bits == old(bits) || fresh(bits)
    {
      hide Ordered, Unique, Represents, At, Add, Slot;
      ghost var t := Now();
      var found, d := Locate(k, t);
      if !found {
        assert model - {k} == model;
        return false;
      }
      RemoveAt(k, d, t);
      if size > 8 && nItems <= size / 8 {
        Halved(size);
        Resize(size / 2);
      }
      ok := true;
    }

    // ----- all of it -----------------------------------------------------------------------

    method Clear()
      requires Valid()
      modifies this`nItems, this`model, bits
      ensures Valid() && model == map[] && nItems == 0
    {
      forall i | 0 <= i < bits.Length { bits[i] := false; }
      nItems, model := 0, map[];
      CountNone(bits[..]);
    }

    /** The pairs in the order a walk over the slots hands them out, and the number of items kept. */
    method Each() returns (s: seq<(Key, int)>)
      requires Valid()
      ensures Lists(s, model) && |s| == nItems
    {
      hide Valid, Lists, Visited, Ordered, Unique, Represents, Slot, Shape;
      ghost var t := Now();
      ghost var gap := Basics(t);
      NoneVisited(t);
      s := [];
      var i := 0;
      while i < size
        invariant 0 <= i <= size && s == Visited(t, i)
      {
        VisitOne(t, i);
        var full, e := SlotEntry(i, t);
        if full { s := s + [(e.k, e.v)]; }
        i := i + 1;
      }
      VisitedAll(t, model);
    }
  }

  /** The address map: the table under the hashes of the addresses. */
  class Map {
    var table: HashTable
    ghost var addrs: map<nat, int>

    ghost predicate Valid()
      reads this, table, table.data, table.bits
    {
      table.Valid() && Hashed(addrs, table.model)
    }

    constructor ()
      ensures Valid() && addrs == map[] && fresh(table) && fresh(table.data) && fresh(table.bits)
    {
      table := new HashTable(8);
      addrs := map[];
    }

    method Insert(addr: nat, v: int)
      requires Valid() && addr < WORD64
      modifies this`addrs, table, table.data, table.bits
      ensures Valid() && addrs == old(addrs)[addr := v]
      ensures table.data == old(table.data) || fresh(table.data)
      ensures table.bits == old(table.bits) || fresh(table.bits)
    {
      hide Hash64, Unhash64, Hashed;
      HashedInsert(addrs, table.model, addr, v);
      table.Insert(Hash64(addr), v);
      addrs := addrs[addr := v];
    }

    method Remove(addr: nat) returns (ok: bool)
      requires Valid() && addr < WORD64
      modifies this`addrs, table, table.data, table.bits
      ensures Valid() && ok == (addr in old(addrs)) && addrs == old(addrs) - {addr}
      ensures table.data == old(table.data) || fresh(table.data)
      ensures table.bits == old(table.bits) || fresh(table.bits)
    {
      hide Hash64, Unhash64, Hashed;
      HashedRemove(addrs, table.model, addr);
      ok := table.Remove(Hash64(addr));
      addrs := addrs - {addr};
    }

    method Contains(addr: nat) returns (found: bool)
      requires Valid() && addr < WORD64
      ensures found == (addr in addrs)
    {
      hide Hash64, Unhash64, Hashed;
      HashedLookup(addrs, table.model, addr);
      found := table.Contains(Hash64(addr));
    }

    method Lookup(addr: nat, fallback: int) returns (v: int)
      requires Valid() && addr < WORD64
      ensures v == if addr in addrs then addrs[addr] else fallback
    {
      hide Hash64, Unhash64, Hashed;
      HashedLookup(addrs, table.model, addr);
      v := table.Lookup(Hash64(addr), fallback);
    }

    /** The addresses themselves, recovered from their hashes, each once with its value. */
    method Each() returns (s: seq<(nat, int)>)
      requires Valid()
      ensures Lists(s, addrs) && |s| == table.nItems
    {
      hide Hash64, Unhash64, Hashed, Lists;
      var hashed := table.Each();
      s := Unhashed(hashed);
      EachUnhashed(hashed, addrs, table.model);
    }
  }

  /** What a search knows of the slot `d` places after the key's home. */
  ghost predicate Sees(t: Table, k: Key, d: int, full: bool, e: Entry, dist: int)
    requires Shape(t)
  {
    var n := |t.bits|;
    var s := Add(Slot(k, n), d, n);
    0 <= s < n && full == t.bits[s] && e == t.data[s] && dist == Dist(t, s)
  }

  lemma PassFurther(t: Table, k: Key, d: nat, e: Entry, dist: int, gap: nat)
    requires Shape(t) && Passed(t, k, d) && d < |t.bits| && Sees(t, k, d, true, e, dist) && d < dist
    requires gap < |t.bits| && !t.bits[gap]
    ensures Passed(t, k, d + 1) && d + 1 < |t.bits|
  {
    PassOne(t, k, d);
    StopsInTime(t, k, d + 1, gap);
  }

  lemma PassEqual(t: Table, k: Key, d: nat, e: Entry, gap: nat)
    requires Shape(t) && Ordered(t) && Passed(t, k, d) && d < |t.bits| && Sees(t, k, d, true, e, d) && e.k != k
    requires gap < |t.bits| && !t.bits[gap]
    ensures Passed(t, k, d + 1) && d + 1 < |t.bits|
  {
    PassOne(t, k, d);
    StopsInTime(t, k, d + 1, gap);
  }

  lemma NextSees(t: Table, k: Key, d: nat, e: Entry, full: bool, e2: Entry, dist: int)
    requires Shape(t) && Ordered(t) && d + 1 < |t.bits| && Sees(t, k, d, true, e, d) && Sees(t, k, d + 1, full, e2, dist)
    ensures full ==> dist <= d + 1
  {
    NextNoFurther(t, k, d);
  }

  lemma FoundAt(t: Table, k: Key, d: nat, e: Entry, dist: int)
    requires Shape(t) && Sees(t, k, d, true, e, dist) && e.k == k
    ensures At(t, Add(Slot(k, |t.bits|), d, |t.bits|), k)
  {
  }

  lemma SpotAt(t: Table, k: Key, d: nat, full: bool, e: Entry, dist: int)
    requires Shape(t) && Ordered(t) && Passed(t, k, d) && d < |t.bits| && Sees(t, k, d, full, e, dist) && (full ==> dist < d)
    ensures Spot(t, k, d) && forall i :: !At(t, i, k)
  {
    NotThere(t, k, d);
  }

  ghost predicate FullAt(t: Table, s: int, j: int)
    requires Shape(t)
  {
    var i := Add(s, j, |t.bits|);
    0 <= i < |t.bits| && t.bits[i]
  }

  ghost predicate FullFrom(t: Table, s: int, m: int)
    requires Shape(t)
  {
    forall j | 0 <= j < m :: FullAt(t, s, j)
  }

  lemma NoneFull(t: Table, s: int)
    requires Shape(t)
    ensures FullFrom(t, s, 0)
  {
  }

  lemma FullMore(t: Table, s: nat, m: nat, gap: nat)
    requires Shape(t) && s < |t.bits| && m < |t.bits| && FullFrom(t, s, m) && FullAt(t, s, m)
    requires gap < |t.bits| && !t.bits[gap]
    ensures m + 1 < |t.bits| && FullFrom(t, s, m + 1)
  {
    var e := Sub(gap, s, |t.bits|);
    assert Add(s, e, |t.bits|) == gap;
    assert !FullAt(t, s, e);
  }

  lemma RunFound(t: Table, s: nat, m: nat)
    requires Shape(t) && s < |t.bits| && m < |t.bits| && FullFrom(t, s, m) && !FullAt(t, s, m)
    ensures Run(t, s, m)
  {
    forall j | 0 <= j < m ensures t.bits[Add(s, j, |t.bits|)] {
      assert FullAt(t, s, j);
    }
  }

  /** The entries of the run from offset `i` on have moved up by one slot. */
  ghost predicate Shifted(t: Table, now: seq<Entry>, s: int, m: int, i: int)
    requires Shape(t) && 0 <= s < |t.bits|
  {
    && |now| == |t.bits|
    && forall x | 0 <= x < |t.bits| ::
      now[x] == if i < Sub(x, s, |t.bits|) <= m then t.data[Sub(x, 1, |t.bits|)] else t.data[x]
  }

  lemma NoneShifted(t: Table, s: int, m: int)
    requires Shape(t) && 0 <= s < |t.bits|
    ensures Shifted(t, t.data, s, m, m)
  {
  }

  lemma ShiftOne(t: Table, now: seq<Entry>, s: int, m: int, i: int)
    requires Shape(t) && 0 <= s < |t.bits| && 0 <= i < m < |t.bits| && Shifted(t, now, s, m, i + 1)
    ensures var to, from := Add(s, i + 1, |t.bits|), Add(s, i, |t.bits|);
      0 <= to < |now| && 0 <= from < |now| && Shifted(t, now[to := now[from]], s, m, i)
  {
    var n := |t.bits|;
    var to, from := Add(s, i + 1, n), Add(s, i, n);
    assert Sub(to, s, n) == i + 1 && Sub(from, s, n) == i && Sub(to, 1, n) == from;
    forall x | 0 <= x < n && x != to ensures Sub(x, s, n) != i + 1 {}
  }

  lemma PutDone(t: Table, r: Table, k: Key, v: int, d: nat, m: nat, model: map<Key, int>, now: seq<Entry>)
    requires Shape(t) && Ordered(t) && Unique(t) && Represents(t, model) && k !in model
    requires 0 <= d < |t.bits| && Spot(t, k, d) && 0 <= Add(Slot(k, |t.bits|), d, |t.bits|) < |t.bits| && m < |t.bits|
    requires Run(t, Add(Slot(k, |t.bits|), d, |t.bits|), m)
    requires Shifted(t, now, Add(Slot(k, |t.bits|), d, |t.bits|), m, 0) && |now| == |t.bits|
    requires r.data == now[Add(Slot(k, |t.bits|), d, |t.bits|) := Entry(k, v)]
    requires var s := Add(Add(Slot(k, |t.bits|), d, |t.bits|), m, |t.bits|); 0 <= s < |t.bits| && r.bits == t.bits[s := true]
    ensures Shape(r) && Ordered(r) && Unique(r) && Represents(r, model[k := v]) && Count(r.bits) == Count(t.bits) + 1
  {
    var n := |t.bits|;
    var s := Add(Slot(k, n), d, n);
    assert Inserted(t, r, s, m, Entry(k, v));
    forall i ensures !At(t, i, k) {}
    InsertedOrdered(t, r, k, v, d, m);
    InsertedUnique(t, r, k, v, d, m);
    InsertedRepresents(t, r, k, v, d, m, model);
    CountSet(t.bits, Add(s, m, n), true);
  }

  lemma PassOther(t: Table, k: Key, d: nat, e: Entry, dist: int, gap: nat)
    requires Shape(t) && Passed(t, k, d) && d < |t.bits| && Sees(t, k, d, true, e, dist) && d <= dist && e.k != k
    requires gap < |t.bits| && !t.bits[gap]
    ensures Passed(t, k, d + 1) && d + 1 < |t.bits|
  {
    PassOne(t, k, d);
    StopsInTime(t, k, d + 1, gap);
  }

  lemma EntryFound(t: Table, k: Key, d: nat, e: Entry, dist: int, model: map<Key, int>)
    requires Shape(t) && Represents(t, model) && d < |t.bits| && Sees(t, k, d, true, e, dist) && e.k == k
    ensures k in model && Slot(k + d, |t.bits|) < |t.data| && t.data[Slot(k + d, |t.bits|)].v == model[k]
  {
    SlotAfter(k, d, |t.bits|);
    Present(t, model, Add(Slot(k, |t.bits|), d, |t.bits|));
  }

  /** The first `d` slots from the home of `k` are full and hold other keys. */
  ghost predicate Searched(t: Table, k: Key, d: int)
    requires Shape(t)
  {
    forall e | 0 <= e < d && e < |t.bits| ::
      var s := Add(Slot(k, |t.bits|), e, |t.bits|); t.bits[s] && t.data[s].k != k
  }

  lemma NoneSearched(t: Table, k: Key)
    requires Shape(t)
    ensures Searched(t, k, 0)
  {
  }

  lemma SearchOne(t: Table, k: Key, d: nat, e: Entry, dist: int, gap: nat)
    requires Shape(t) && Searched(t, k, d) && d < |t.bits| && Sees(t, k, d, true, e, dist) && e.k != k
    requires gap < |t.bits| && !t.bits[gap]
    ensures Searched(t, k, d + 1) && d + 1 < |t.bits|
  {
    var x := Sub(gap, Slot(k, |t.bits|), |t.bits|);
    assert Add(Slot(k, |t.bits|), x, |t.bits|) == gap;
  }

  lemma NotSearched(t: Table, k: Key, d: nat, e: Entry, dist: int)
    requires Shape(t) && Ordered(t) && Searched(t, k, d) && d < |t.bits| && Sees(t, k, d, false, e, dist)
    ensures forall i :: !At(t, i, k)
  {
    forall i ensures !At(t, i, k) {
      if At(t, i, k) {
        var far := Dist(t, i);
        assert Add(Slot(k, |t.bits|), far, |t.bits|) == i;
        if far >= d { Path(t, i, d); }
      }
    }
  }

  /** The `m` entries after slot `s` have moved down by one slot. */
  ghost predicate Drawn(t: Table, now: seq<Entry>, s: int, m: int)
    requires Shape(t) && 0 <= s < |t.bits|
  {
    |now| == |t.bits| && forall i | 0 <= i < |t.bits| :: now[i] == RemovedAt(t, s, m, i)
  }

  /** The `m` entries after slot `s` are away from home. */
  ghost predicate Away(t: Table, s: int, m: int)
    requires Shape(t) && 0 <= s < |t.bits|
  {
    forall j | 1 <= j <= m && j < |t.bits| :: t.bits[Add(s, j, |t.bits|)] && Dist(t, Add(s, j, |t.bits|)) > 0
  }

  ghost predicate Next(t: Table, s: int, m: int, full: bool, dist: int)
    requires Shape(t)
  {
    var i := Add(s, m + 1, |t.bits|);
    0 <= i < |t.bits| && full == t.bits[i] && dist == Dist(t, i)
  }

  lemma NextIs(t: Table, r: Table, s: nat, m: nat)
    requires Shape(t) && s < |t.bits| && m + 1 < |t.bits| && Drawn(t, r.data, s, m) && r.bits == t.bits
    ensures var i := Add(s, m + 1, |t.bits|); 0 <= i < |t.bits| && r.bits[i] == t.bits[i] && Dist(r, i) == Dist(t, i)
  {
    assert Sub(Add(s, m + 1, |t.bits|), s, |t.bits|) == m + 1;
  }

  lemma StepsTo(s: nat, m: nat, last: nat, n: nat)
    requires s < n && m + 1 < n && Slot(last, n) == Add(s, m, n)
    ensures Slot(last + 1, n) == Add(s, m + 1, n)
    ensures 0 <= Add(s, m, n) < n && 0 <= Add(s, m + 1, n) < n
  {
    SlotAfter(last, 1, n);
  }

  lemma NoneDrawn(t: Table, s: nat, gap: nat)
    requires Shape(t) && s < |t.bits| && t.bits[s] && gap < |t.bits| && !t.bits[gap]
    ensures Drawn(t, t.data, s, 0) && Away(t, s, 0) && 1 < |t.bits| && Add(s, 0, |t.bits|) == s
  {
  }

  lemma DrawOne(t: Table, now: seq<Entry>, s: nat, m: nat, dist: int, gap: nat)
    requires Shape(t) && s < |t.bits| && m + 1 < |t.bits| && Drawn(t, now, s, m) && Away(t, s, m)
    requires Next(t, s, m, true, dist) && dist != 0 && t.bits[s] && gap < |t.bits| && !t.bits[gap]
    ensures m + 2 < |t.bits| && Away(t, s, m + 1)
    ensures var to, from := Add(s, m, |t.bits|), Add(s, m + 1, |t.bits|);
      0 <= to < |now| && 0 <= from < |now| && Drawn(t, now[to := now[from]], s, m + 1)
  {
    var n := |t.bits|;
    var to, from := Add(s, m, n), Add(s, m + 1, n);
    var g := Sub(gap, s, n);
    assert Add(s, g, n) == gap;
    assert Sub(to, s, n) == m && Sub(from, s, n) == m + 1 && Add(to, 1, n) == from;
    forall x | 0 <= x < n && x != to ensures Sub(x, s, n) != m {}
  }

  lemma TailFound(t: Table, s: nat, m: nat, full: bool, dist: int)
    requires Shape(t) && s < |t.bits| && m + 1 < |t.bits| && Away(t, s, m) && Next(t, s, m, full, dist)
    requires full ==> dist == 0
    ensures Tail(t, s, m)
  {
  }

  lemma AtSlot(t: Table, k: Key, d: nat)
    requires Shape(t) && d < |t.bits| && At(t, Add(Slot(k, |t.bits|), d, |t.bits|), k)
    ensures 0 <= Slot(k + d, |t.bits|) < |t.bits| && t.bits[Slot(k + d, |t.bits|)]
    ensures |t.data| == |t.bits| && t.data[Slot(k + d, |t.bits|)].k == k
  {
    SlotAfter(k, d, |t.bits|);
  }

  lemma DrawnDone(t: Table, r: Table, s: nat, m: nat, model: map<Key, int>)
    requires Shape(t) && Ordered(t) && Unique(t) && Represents(t, model) && s < |t.bits| && t.bits[s]
    requires Tail(t, s, m) && Drawn(t, r.data, s, m) && 0 <= Add(s, m, |t.bits|) < |t.bits|
    requires r.bits == t.bits[Add(s, m, |t.bits|) := false]
    ensures Shape(r) && Ordered(r) && Unique(r) && Represents(r, model - {t.data[s].k})
    ensures Count(r.bits) == Count(t.bits) - 1
  {
    var n := |t.bits|;
    assert Removed(t, r, s, m);
    RemovedOrdered(t, r, s, m);
    RemovedUnique(t, r, s, m);
    RemovedRepresents(t, r, s, m, model);
    LastFull(t, s, m);
    CountSet(t.bits, Add(s, m, n), false);
  }

  lemma LastFull(t: Table, s: nat, m: nat)
    requires Shape(t) && s < |t.bits| && t.bits[s] && Tail(t, s, m)
    ensures 0 <= Add(s, m, |t.bits|) < |t.bits| && t.bits[Add(s, m, |t.bits|)]
  {
  }

  /** The pairs in the first `i` slots. */
  ghost function Held(t: Table, i: nat): map<Key, int>
    requires Shape(t) && i <= |t.bits|
  {
    if i == 0 then map[]
    else if t.bits[i - 1] then Held(t, i - 1)[t.data[i - 1].k := t.data[i - 1].v]
    else Held(t, i - 1)
  }

  ghost function CountTo(t: Table, i: nat): nat
    requires Shape(t) && i <= |t.bits|
  {
    Count(t.bits[..i])
  }

  lemma NoneHeld(t: Table)
    requires Shape(t)
    ensures Held(t, 0) == map[] && CountTo(t, 0) == 0
  {
  }

  lemma HoldOne(t: Table, i: nat)
    requires Shape(t) && i < |t.bits|
    ensures Held(t, i + 1) == if t.bits[i] then Held(t, i)[t.data[i].k := t.data[i].v] else Held(t, i)
    ensures CountTo(t, i + 1) == CountTo(t, i) + if t.bits[i] then 1 else 0
  {
    assert t.bits[..i + 1][..i] == t.bits[..i];
  }

  lemma {:induction false} CountBelow(t: Table, i: nat)
    requires Shape(t) && i < |t.bits|
    ensures CountTo(t, i) + (if t.bits[i] then 1 else 0) <= Count(t.bits)
    decreases |t.bits| - i
  {
    HoldOne(t, i);
    if i + 1 < |t.bits| {
      CountBelow(t, i + 1);
    } else {
      assert t.bits[..i + 1] == t.bits;
    }
  }

  lemma {:induction false} HeldTo(t: Table, i: nat, model: map<Key, int>)
    requires Shape(t) && i <= |t.bits| && Represents(t, model)
    ensures forall k | k in Held(t, i) :: k in model && Held(t, i)[k] == model[k]
    ensures forall j, k | At(t, j, k) && j < i :: k in Held(t, i)
  {
    if i > 0 {
      HeldTo(t, i - 1, model);
      if t.bits[i - 1] { Present(t, model, i - 1); }
    }
  }

  lemma HeldAll(t: Table, model: map<Key, int>)
    requires Shape(t) && Represents(t, model)
    ensures Held(t, |t.bits|) == model && CountTo(t, |t.bits|) == Count(t.bits)
  {
    HeldTo(t, |t.bits|, model);
    assert t.bits[..|t.bits|] == t.bits;
  }

  /** A listing of a map: every pair once. */
  ghost predicate Lists(s: seq<(nat, int)>, m: map<nat, int>) {
    && (forall i | 0 <= i < |s| :: s[i].0 in m && m[s[i].0] == s[i].1)
    && (forall i, j | 0 <= i < j < |s| :: s[i].0 != s[j].0)
    && (forall k | k in m :: exists i | 0 <= i < |s| :: s[i].0 == k)
  }

  /** What a walk over the first `i` slots hands out. */
  ghost function Visited(t: Table, i: nat): seq<(Key, int)>
    requires Shape(t) && i <= |t.bits|
  {
    if i == 0 then [] else Visited(t, i - 1) + if t.bits[i - 1] then [(t.data[i - 1].k, t.data[i - 1].v)] else []
  }

  lemma NoneVisited(t: Table)
    requires Shape(t)
    ensures Visited(t, 0) == []
  {
  }

  lemma VisitOne(t: Table, i: nat)
    requires Shape(t) && i < |t.bits|
    ensures Visited(t, i + 1) == if t.bits[i] then Visited(t, i) + [(t.data[i].k, t.data[i].v)] else Visited(t, i)
  {
  }

  lemma {:induction false} VisitedTo(t: Table, i: nat, model: map<Key, int>)
    requires Shape(t) && Unique(t) && Represents(t, model) && i <= |t.bits|
    ensures |Visited(t, i)| == CountTo(t, i)
    ensures forall x | 0 <= x < |Visited(t, i)| ::
      var p := Visited(t, i)[x]; p.0 in model && model[p.0] == p.1 && HeldBelow(t, i, p.0)
    ensures forall x, y | 0 <= x < y < |Visited(t, i)| :: Visited(t, i)[x].0 != Visited(t, i)[y].0
    ensures forall j | 0 <= j < i && t.bits[j] :: exists x | 0 <= x < |Visited(t, i)| :: Visited(t, i)[x].0 == t.data[j].k
  {
    hide Represents, Unique;
    if i > 0 {
      VisitedTo(t, i - 1, model);
      HoldOne(t, i - 1);
      var before, now := Visited(t, i - 1), Visited(t, i);
      assert before <= now;
      if t.bits[i - 1] {
        Present(t, model, i - 1);
        NotBelow(t, i - 1);
        assert now[|before|].0 == t.data[i - 1].k;
        assert At(t, i - 1, t.data[i - 1].k);
      }
      forall j | 0 <= j < i && t.bits[j] ensures exists x | 0 <= x < |now| :: now[x].0 == t.data[j].k {
        if j < i - 1 {
          var x :| 0 <= x < |before| && before[x].0 == t.data[j].k;
          assert now[x].0 == t.data[j].k;
        }
      }
    }
  }

  ghost predicate HeldBelow(t: Table, i: int, k: Key) {
    exists j :: j < i && At(t, j, k)
  }

  lemma NotBelow(t: Table, i: nat)
    requires Shape(t) && Unique(t) && i < |t.bits| && t.bits[i]
    ensures !HeldBelow(t, i, t.data[i].k)
  {
    assert At(t, i, t.data[i].k);
  }

  lemma VisitedAll(t: Table, model: map<Key, int>)
    requires Shape(t) && Unique(t) && Represents(t, model)
    ensures Lists(Visited(t, |t.bits|), model) && |Visited(t, |t.bits|)| == Count(t.bits)
  {
    var s := Visited(t, |t.bits|);
    VisitedTo(t, |t.bits|, model);
    assert t.bits[..|t.bits|] == t.bits;
    forall k | k in model ensures exists i | 0 <= i < |s| :: s[i].0 == k {
      var j :| At(t, j, k);
      var x :| 0 <= x < |s| && s[x].0 == t.data[j].k;
      assert s[x].0 == k;
    }
  }

  // ----- addresses under their hashes ------------------------------------------------------

  /** The table holds each address under its hash, and nothing else. */
  ghost predicate Hashed(addrs: map<nat, int>, m: map<nat, int>) {
    && (forall a | a in addrs :: a < WORD64 && Hash64(a) in m && m[Hash64(a)] == addrs[a])
    && (forall h | h in m :: h < WORD64 && Unhash64(h) in addrs)
  }

  lemma HashedInsert(addrs: map<nat, int>, m: map<nat, int>, addr: nat, v: int)
    requires Hashed(addrs, m) && addr < WORD64
    ensures Hashed(addrs[addr := v], m[Hash64(addr) := v])
  {
    hide Hash64, Unhash64;
    UnhashHash64(addr);
    forall a | a in addrs ensures Hash64(a) == Hash64(addr) ==> a == addr { UnhashHash64(a); }
  }

  lemma HashedRemove(addrs: map<nat, int>, m: map<nat, int>, addr: nat)
    requires Hashed(addrs, m) && addr < WORD64
    ensures Hashed(addrs - {addr}, m - {Hash64(addr)}) && (addr in addrs <==> Hash64(addr) in m)
  {
    hide Hash64, Unhash64;
    UnhashHash64(addr);
    forall a | a in addrs ensures Hash64(a) == Hash64(addr) ==> a == addr { UnhashHash64(a); }
    forall h | h in m ensures Unhash64(h) == addr ==> h == Hash64(addr) { UnhashHash64(h); }
  }

  lemma HashedLookup(addrs: map<nat, int>, m: map<nat, int>, addr: nat)
    requires Hashed(addrs, m) && addr < WORD64
    ensures addr in addrs <==> Hash64(addr) in m
    ensures addr in addrs ==> m[Hash64(addr)] == addrs[addr]
  {
    hide Hash64, Unhash64;
    UnhashHash64(addr);
  }

  function Unhashed(s: seq<(nat, int)>): seq<(nat, int)> {
    seq(|s|, i requires 0 <= i < |s| => (Unhash64(s[i].0), s[i].1))
  }

  lemma UnhashedOne(s: seq<(nat, int)>, addrs: map<nat, int>, m: map<nat, int>, i: nat)
    requires Hashed(addrs, m) && i < |s| && s[i].0 in m && m[s[i].0] == s[i].1
    ensures Unhash64(s[i].0) in addrs && addrs[Unhash64(s[i].0)] == s[i].1 && Hash64(Unhash64(s[i].0)) == s[i].0
  {
    hide Hash64, Unhash64;
    UnhashHash64(s[i].0);
  }

  lemma Listed(s: seq<(nat, int)>, m: map<nat, int>, k: nat) returns (i: nat)
    requires Lists(s, m) && k in m
    ensures i < |s| && s[i].0 == k
  {
    i :| 0 <= i < |s| && s[i].0 == k;
  }

  lemma ListedAddress(s: seq<(nat, int)>, addrs: map<nat, int>, m: map<nat, int>, addr: nat) returns (i: nat)
    requires Hashed(addrs, m) && Lists(s, m) && addr in addrs
    ensures i < |s| && Unhash64(s[i].0) == addr
  {
    hide Hash64, Unhash64, Lists;
    UnhashHash64(addr);
    var h := Hash64(addr);
    assert h in m;
    hide Hashed;
    i := Listed(s, m, h);
  }

  /** Walking the table and undoing the hash of each key lists the addresses. */
  lemma EachUnhashed(s: seq<(nat, int)>, addrs: map<nat, int>, m: map<nat, int>)
    requires Hashed(addrs, m) && Lists(s, m)
    ensures Lists(Unhashed(s), addrs)
  {
    hide Hash64, Unhash64, Hashed;
    var r := Unhashed(s);
    forall i | 0 <= i < |s| ensures r[i].0 in addrs && addrs[r[i].0] == r[i].1 && Hash64(r[i].0) == s[i].0 {
      UnhashedOne(s, addrs, m, i);
    }
    forall i, j | 0 <= i < j < |s| ensures r[i].0 != r[j].0 {
      assert Hash64(r[i].0) == s[i].0 && Hash64(r[j].0) == s[j].0;
    }
    forall a | a in addrs ensures exists i | 0 <= i < |r| :: r[i].0 == a {
      var i := ListedAddress(s, addrs, m, a);
      assert r[i].0 == a;
    }
  }

  lemma NonePassed(t: Table, k: Key)
    requires Shape(t)
    ensures Passed(t, k, 0)
  {
  }
}
