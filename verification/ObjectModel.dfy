/** The object model the collector traces: type table, object sizes, reference slots.

    An object is the sequence of its machine words; word 0 is the tag, which is
    `(typeid << 1) | 1` while the object is live and the new address once it is forwarded. */
module ObjectModel {
  type Addr = int

  type Object = seq<int>

  datatype Kind = Struct | RefArray | ScalarArray | Ephemeron | PodArray | Tagged

  datatype TypeInfo = TypeInfo(size: nat, kind: Kind, nrefs: nat, refoffs: seq<nat>)

  // Word indexes inside an ephemeron.  The state byte and the epoch each get a word here.
  const STATE: nat := 1
  const EPOCH: nat := 2
  const CHAIN: nat := 3
  const KEY: nat := 4
  const VALUE: nat := 5
  const EPHEMERON_BYTES: nat := 48

  /** A word that the collector follows: neither null nor an immediate. */
  predicate Pointer(w: int) {
    w != 0 && w % 8 == 0
  }

  function AlignUp(n: int): int {
    (n + 7) / 8 * 8
  }

  predicate KnownTag(types: seq<TypeInfo>, tag: int) {
    tag % 2 == 1 && 0 <= tag / 2 < |types|
  }

  function TypeOf(types: seq<TypeInfo>, tag: int): TypeInfo
    requires KnownTag(types, tag)
  {
    types[tag / 2]
  }

  predicate IsArray(k: Kind) {
    k.RefArray? || k.ScalarArray? || k.PodArray?
  }

  function SizeInBytes(t: TypeInfo, o: Object): int
    requires IsArray(t.kind) ==> |o| >= 2
  {
    match t.kind
    case Struct => t.size
    case RefArray => 16 + o[1] * 8
    case ScalarArray => AlignUp(16 + o[1] * t.size)
    case PodArray => AlignUp(16 + o[1] * t.size)
    case Tagged => t.size
    case Ephemeron => EPHEMERON_BYTES
  }

  /** The word indexes the tracer visits, in the order it visits them. */
  function RefSlots(t: TypeInfo, o: Object): seq<int>
    requires IsArray(t.kind) ==> |o| >= 2
  {
    match t.kind
    case Struct => seq(|t.refoffs|, i requires 0 <= i < |t.refoffs| => t.refoffs[i] / 8)
    case Tagged => if t.size / 8 <= t.nrefs then [] else seq(t.size / 8 - t.nrefs, i requires 0 <= i => t.nrefs + i)
    case RefArray => if o[1] <= 0 then [] else seq(o[1], i requires 0 <= i => 2 + i)
    case PodArray => if o[1] <= 0 then [] else PodSlots(t, o[1])
    case ScalarArray => []
    case Ephemeron => []
  }

  /** Slots of element `i` of an array of flat structs, from its byte offset. */
  function ElementSlots(t: TypeInfo, i: nat): seq<int> {
    seq(|t.refoffs|, r requires 0 <= r < |t.refoffs| => 2 + (i * t.size + t.refoffs[r]) / 8)
  }

  /** Slots of the first `len` elements of an array of flat structs. */
  function PodSlots(t: TypeInfo, len: nat): seq<int> {
    if len == 0 then [] else PodSlots(t, len - 1) + ElementSlots(t, len - 1)
  }

  predicate Distinct<T(==)>(s: seq<T>) {
    forall i, j :: 0 <= i < j < |s| ==> s[i] != s[j]
  }

  /** What registering a type promises the tracer. */
  ghost predicate TypeOk(t: TypeInfo) {
    && (t.kind.Struct? ==>
          && t.size >= 8
          && |t.refoffs| == t.nrefs
          && Distinct(t.refoffs)
          && forall off | off in t.refoffs :: off % 8 == 0 && 8 <= off && off + 8 <= t.size)
    && (t.kind.Tagged? ==> t.size >= 8 && t.nrefs >= 1)
    && (t.kind.PodArray? ==>
          && t.size % 8 == 0
          && |t.refoffs| == t.nrefs
          && Distinct(t.refoffs)
          && forall off | off in t.refoffs :: off % 8 == 0 && off + 8 <= t.size)
  }

  /** Field `r` of element `i` of an array of flat structs is word `j`. */
  predicate FieldAt(t: TypeInfo, i: int, r: int, j: int)
    requires 0 <= r < |t.refoffs|
  {
    8 * (j - 2) == i * t.size + t.refoffs[r]
  }

  /** Word `j` is where the layout of the kind puts a reference. */
  ghost predicate IsRef(t: TypeInfo, o: Object, j: int)
    requires IsArray(t.kind) ==> |o| >= 2
  {
    match t.kind
    case Struct => exists r | 0 <= r < |t.refoffs| :: 8 * j == t.refoffs[r]
    case Tagged => t.nrefs <= j < t.size / 8
    case RefArray => 2 <= j < 2 + o[1]
    case PodArray => exists i, r | 0 <= i < o[1] && 0 <= r < |t.refoffs| :: FieldAt(t, i, r, j)
    case ScalarArray => false
    case Ephemeron => false
  }

  /** An object has words for its header and its fields or elements, and no word more. */
  ghost predicate Sized(t: TypeInfo, o: Object)
    requires IsArray(t.kind) ==> |o| >= 2
  {
    match t.kind
    case Struct => t.size <= 8 * |o| < t.size + 8
    case Tagged => t.size <= 8 * |o| < t.size + 8
    case RefArray => |o| == 2 + o[1]
    case ScalarArray => 16 + o[1] * t.size <= 8 * |o| < 24 + o[1] * t.size
    case PodArray => 16 + o[1] * t.size <= 8 * |o| < 24 + o[1] * t.size
    case Ephemeron => |o| == 6
  }

  /** An object whose words agree with its tag. */
  ghost predicate ObjectOk(types: seq<TypeInfo>, o: Object) {
    && |o| >= 1
    && KnownTag(types, o[0])
    && var t := types[o[0] / 2];
       && TypeOk(t)
       && (IsArray(t.kind) ==> |o| >= 2 && o[1] >= 0)
       && Sized(t, o)
  }

  /** The words of an object that hold references. */
  ghost function RefWords(t: TypeInfo, o: Object): set<int>
    requires IsArray(t.kind) ==> |o| >= 2
  {
    set j | 0 <= j < |o| && IsRef(t, o, j)
  }

  /** The collector's size, rounded up, is that of the object's words. */
  lemma SizeIs(types: seq<TypeInfo>, o: Object)
    requires ObjectOk(types, o)
    ensures AlignUp(SizeInBytes(TypeOf(types, o[0]), o)) == 8 * |o|
  {
    hide TypeOk;
  }

  ghost predicate SlotsInside(slots: seq<int>, lo: int, hi: int) {
    && Distinct(slots)
    && forall s | s in slots :: lo <= s < hi
  }

  lemma ElementSlotsInside(t: TypeInfo, i: nat, words: nat)
    requires t.kind.PodArray? && TypeOk(t) && t.size == 8 * words
    ensures SlotsInside(ElementSlots(t, i), 2 + i * words, 2 + i * words + words)
  {
    var slots := ElementSlots(t, i);
    assert i * t.size == 8 * (i * words);
    forall r | 0 <= r < |slots|
      ensures slots[r] == 2 + i * words + t.refoffs[r] / 8
      ensures t.refoffs[r] % 8 == 0 && t.refoffs[r] / 8 < words
    {
      assert t.refoffs[r] in t.refoffs;
    }
  }

  lemma {:induction false} PodSlotsInside(t: TypeInfo, len: nat, words: nat)
    requires t.kind.PodArray? && TypeOk(t) && t.size == 8 * words
    ensures SlotsInside(PodSlots(t, len), 2, 2 + len * words)
  {
    if len > 0 {
      PodSlotsInside(t, len - 1, words);
      ElementSlotsInside(t, len - 1, words);
      assert len * words == (len - 1) * words + words;
      SlotsApart(PodSlots(t, len - 1), ElementSlots(t, len - 1), 2, 2 + (len - 1) * words, 2 + len * words);
    }
  }

  lemma SlotsApart(front: seq<int>, last: seq<int>, lo: int, mid: int, hi: int)
    requires SlotsInside(front, lo, mid) && SlotsInside(last, mid, hi) && lo <= mid <= hi
    ensures SlotsInside(front + last, lo, hi)
  {
    forall i, j | 0 <= i < j < |front + last|
      ensures (front + last)[i] != (front + last)[j]
    {
      if i < |front| <= j {
        assert front[i] in front && last[j - |front|] in last;
      }
    }
  }

  lemma StructSlotsInside(t: TypeInfo, o: Object)
    requires t.kind.Struct? && TypeOk(t) && 8 * |o| == AlignUp(t.size)
    ensures SlotsInside(RefSlots(t, o), 1, |o|)
  {
    var slots := RefSlots(t, o);
    forall i | 0 <= i < |slots|
      ensures 1 <= slots[i] < |o| && 8 * slots[i] == t.refoffs[i]
    {
      assert t.refoffs[i] in t.refoffs;
    }
  }

  lemma PodArraySlotsInside(t: TypeInfo, o: Object)
    requires t.kind.PodArray? && TypeOk(t) && |o| >= 2 && o[1] >= 0
    requires 8 * |o| == AlignUp(16 + o[1] * t.size)
    ensures SlotsInside(RefSlots(t, o), 2, |o|)
  {
    var words := t.size / 8;
    assert o[1] * t.size == 8 * (o[1] * words);
    PodSlotsInside(t, o[1], words);
  }

  lemma RefArraySlotsInside(t: TypeInfo, o: Object)
    requires t.kind.RefArray? && |o| >= 2 && o[1] >= 0 && 8 * |o| == AlignUp(16 + o[1] * 8)
    ensures SlotsInside(RefSlots(t, o), 2, |o|)
  {
  }

  lemma TaggedSlotsInside(t: TypeInfo, o: Object)
    requires t.kind.Tagged? && TypeOk(t) && 8 * |o| == AlignUp(t.size)
    ensures SlotsInside(RefSlots(t, o), 1, |o|)
  {
  }

  /** Every slot the tracer visits lies inside the object, past the tag (and past the length of
      an array), and no slot is visited twice. */
  lemma RefSlotsInside(types: seq<TypeInfo>, o: Object)
    requires ObjectOk(types, o)
    ensures var t := TypeOf(types, o[0]);
            SlotsInside(RefSlots(t, o), if IsArray(t.kind) then 2 else 1, |o|)
  {
    var t := TypeOf(types, o[0]);
    SizeIs(types, o);
    match t.kind
    case Struct => StructSlotsInside(t, o);
    case Tagged => TaggedSlotsInside(t, o);
    case RefArray => RefArraySlotsInside(t, o);
    case PodArray => PodArraySlotsInside(t, o);
    case ScalarArray => assert RefSlots(t, o) == [];
    case Ephemeron => assert RefSlots(t, o) == [];
  }

  lemma ElementSlotsAre(t: TypeInfo, i: nat, words: nat, j: int)
    requires t.kind.PodArray? && TypeOk(t) && t.size == 8 * words
    ensures j in ElementSlots(t, i) <==> exists r | 0 <= r < |t.refoffs| :: FieldAt(t, i, r, j)
  {
    var slots := ElementSlots(t, i);
    assert i * t.size == 8 * (i * words);
    forall r | 0 <= r < |slots| ensures slots[r] == j <==> FieldAt(t, i, r, j) {
      assert t.refoffs[r] in t.refoffs;
    }
    if r :| 0 <= r < |t.refoffs| && FieldAt(t, i, r, j) { assert slots[r] == j; }
  }

  lemma {:induction false} PodSlotsAre(t: TypeInfo, len: nat, words: nat, j: int)
    requires t.kind.PodArray? && TypeOk(t) && t.size == 8 * words
    ensures j in PodSlots(t, len) <==> exists i, r | 0 <= i < len && 0 <= r < |t.refoffs| :: FieldAt(t, i, r, j)
  {
    if len > 0 {
      PodSlotsAre(t, len - 1, words, j);
      ElementSlotsAre(t, len - 1, words, j);
      hide TypeOk, FieldAt;
    }
  }

  lemma StructSlotsAre(t: TypeInfo, o: Object, j: int)
    requires t.kind.Struct? && TypeOk(t)
    ensures j in RefSlots(t, o) <==> IsRef(t, o, j)
  {
    var slots := RefSlots(t, o);
    forall r | 0 <= r < |slots| ensures slots[r] == j <==> 8 * j == t.refoffs[r] {
      assert t.refoffs[r] in t.refoffs;
    }
    if r :| 0 <= r < |t.refoffs| && 8 * j == t.refoffs[r] { assert slots[r] == j; }
  }

  lemma WordSlotsAre(t: TypeInfo, o: Object, j: int)
    requires t.kind.Tagged? || (t.kind.RefArray? && |o| >= 2)
    ensures j in RefSlots(t, o) <==> IsRef(t, o, j)
  {
    var slots := RefSlots(t, o);
    var first := if t.kind.Tagged? then t.nrefs else 2;
    forall k | 0 <= k < |slots| ensures slots[k] == first + k {}
    if IsRef(t, o, j) { assert slots[j - first] == j; }
  }

  /** The tracer visits just the words where the layout of the kind puts references. */
  lemma RefSlotsAre(types: seq<TypeInfo>, o: Object, j: int)
    requires ObjectOk(types, o)
    ensures var t := TypeOf(types, o[0]); j in RefSlots(t, o) <==> IsRef(t, o, j)
    ensures j in RefSlots(TypeOf(types, o[0]), o) <==> j in RefWords(TypeOf(types, o[0]), o)
  {
    var t := TypeOf(types, o[0]);
    RefSlotsInside(types, o);
    match t.kind
    case Struct => StructSlotsAre(t, o, j);
    case PodArray => PodSlotsAre(t, o[1], t.size / 8, j);
    case ScalarArray => assert RefSlots(t, o) == [];
    case Ephemeron => assert RefSlots(t, o) == [];
    case _ => WordSlotsAre(t, o, j);
  }
}
