/** Linear-log buckets: values below twice 2 to the precision have a bucket each, and above that every
    doubling has 2 to the precision buckets. */
module Histogram {
  import opened Basics
  import opened AddressHash
  import opened Swar

  /** The precisions for which a power of two is an `int` of the code. */
  const PRECISIONS: nat := 31

  /** The bucket of a value: how long it is past the precision, and the bits after its first one. */
  function Unclamped(precision: nat, val: nat): nat {
    if val < Pow2(precision) then val
    else
      LenLong(val, precision);
      var major := Len(val) - precision;
      Or(Up(major, precision), And(Shift(val, major - 1), AllOnes(precision)))
  }

  function Bucket(maxBits: nat, precision: nat, val: nat): (i: nat)
    ensures i <= Up(maxBits, precision)
  {
    Min(Unclamped(precision, val), Up(maxBits, precision))
  }

  /** The least value of a bucket, were there no bound on it. */
  function BucketMin(precision: nat, idx: nat): nat {
    var major, minor := Shift(idx, precision), And(idx, AllOnes(precision));
    if major > 0 then Up(Or(Pow2(precision), minor), major - 1) else minor
  }

  const WORD: nat := 64

  /** What the code gives for it: the bits that a word keeps. */
  function MinVal(precision: nat, idx: nat): nat {
    PowPositive(WORD);
    BucketMin(precision, idx) % Pow2(WORD)
  }

  lemma {:induction false} LenLong(val: nat, precision: nat)
    requires val >= Pow2(precision)
    ensures Len(val) > precision
  {
    PowPositive(precision);
    if precision > 0 {
      PowNext(precision);
      LenLong(val / 2, precision - 1);
    }
  }

  lemma {:induction false} LenShort(val: nat, k: nat)
    requires val < Pow2(k)
    ensures Len(val) <= k
  {
    assert Pow2(0) == 1;
    if k > 0 && val > 0 { LenShort(val / 2, k - 1); }
  }

  lemma ModBelow(x: nat, precision: nat)
    ensures Pow2(precision) > 0 && And(x, AllOnes(precision)) == x % Pow2(precision) < Pow2(precision)
  {
    OnesNext(precision);
    PowPositive(precision);
    AndLow(x, precision, AllOnes(precision));
  }

  lemma {:induction false} UpOne(p: nat)
    ensures Up(1, p) == Pow2(p)
  {
    if p > 0 { UpOne(p - 1); }
  }

  lemma {:induction false} UpSum(a: nat, b: nat, p: nat)
    ensures Up(a + b, p) == Up(a, p) + Up(b, p)
  {
    if p > 0 { UpSum(a, b, p - 1); }
  }

  /** Values below twice 2 to the precision are their own buckets. */
  lemma UnclampedSmall(p: nat, val: nat)
    requires val < 2 * Pow2(p)
    ensures Unclamped(p, val) == val
  {
    if val >= Pow2(p) {
      LenLong(val, p);
      LenShort(val, p + 1);
      assert Len(val) - p == 1 && Shift(val, 0) == val;
      hide Or, And, Shift, Len, AllOnes, Up;
      ModBelow(val, p);
      RemainderIs(val, Pow2(p), 1, val - Pow2(p));
      UpOne(p);
      OrIs(1, p, val - Pow2(p));
    }
  }

  /** Halving a larger value takes it 2 to the precision buckets down. */
  lemma UnclampedHalf(p: nat, val: nat)
    requires val >= 2 * Pow2(p)
    ensures Unclamped(p, val) == Unclamped(p, val / 2) + Pow2(p)
  {
    PowPositive(p);
    LenLong(val, p);
    LenLong(val / 2, p);
    assert Len(val) == 1 + Len(val / 2);
    var major := Len(val / 2) - p;
    assert Shift(val, major) == Shift(val / 2, major - 1);
    hide Or, And, Shift, Len, AllOnes, Up, Pow2;
    var minor := And(Shift(val / 2, major - 1), AllOnes(p));
    ModBelow(Shift(val / 2, major - 1), p);
    OrIs(major + 1, p, minor);
    OrIs(major, p, minor);
    UpSum(major, 1, p);
    UpOne(p);
  }

  lemma {:induction false} ShiftSmall(idx: nat, p: nat)
    requires idx < Pow2(p)
    ensures Shift(idx, p) == 0
  {
    ShiftOut(idx, p, p);
  }

  lemma MinSmall(p: nat, idx: nat)
    requires idx < 2 * Pow2(p)
    ensures BucketMin(p, idx) == idx
  {
    ModBelow(idx, p);
    UpOne(p);
    if idx < Pow2(p) {
      ShiftSmall(idx, p);
      RemainderIs(idx, Pow2(p), 0, idx);
    } else {
      var x := idx - Pow2(p);
      ShiftLow(1, x, p);
      RemainderIs(idx, Pow2(p), 1, x);
      OrIs(1, p, x);
      assert Up(idx, 0) == idx;
      hide Or, And, Shift, AllOnes, Pow2;
    }
  }

  /** The bucket 2 to the precision further up starts at twice the value. */
  lemma MinDouble(p: nat, idx: nat)
    requires idx >= Pow2(p)
    ensures BucketMin(p, idx + Pow2(p)) == 2 * BucketMin(p, idx)
  {
    PowPositive(p);
    var major, minor := Shift(idx, p), idx % Pow2(p);
    ModBelow(idx, p);
    ModBelow(idx + Pow2(p), p);
    UpSplit(idx, p);
    UpOne(p);
    UpSum(major, 1, p);
    ShiftLow(major + 1, minor, p);
    PowTimesUp(major, p);
    hide Or, And, Shift, AllOnes, Pow2, Up;
    MajorSome(idx, p);
    RemainderStep(idx, Pow2(p));
    UpNext(Or(Pow2(p), minor), major);
  }

  lemma RemainderStep(x: nat, n: nat)
    requires n > 0
    ensures (x + n) % n == x % n
  {
    assert x == n * (x / n) + x % n;
    assert n * (x / n + 1) == n * (x / n) + n;
    RemainderIs(x + n, n, x / n + 1, x % n);
  }

  lemma {:induction false} PowTimesUp(a: nat, p: nat)
    ensures Up(a, p) == Pow2(p) * a
  {
    if p > 0 { PowTimesUp(a, p - 1); }
  }

  /** A number is its high part and its low `p` bits. */
  lemma {:induction false} UpSplit(idx: nat, p: nat)
    ensures Pow2(p) > 0 && Up(Shift(idx, p), p) + idx % Pow2(p) == idx
  {
    PowPositive(p);
    if p > 0 {
      UpSplit(idx / 2, p - 1);
      PowNext(p);
      HalfRemainder(idx, Pow2(p - 1));
    }
  }

  lemma MajorSome(idx: nat, p: nat)
    requires idx >= Pow2(p)
    ensures Shift(idx, p) > 0
  {
    UpSplit(idx, p);
    UpNothing(p);
  }

  lemma {:induction false} UnclampedFrom(p: nat, val: nat)
    requires val >= Pow2(p)
    ensures Unclamped(p, val) >= Pow2(p)
  {
    PowPositive(p);
    hide Pow2, Unclamped;
    if val < 2 * Pow2(p) {
      UnclampedSmall(p, val);
    } else {
      UnclampedHalf(p, val);
      UnclampedFrom(p, val / 2);
    }
  }

  lemma {:induction false} MinFrom(p: nat, idx: nat)
    requires idx >= Pow2(p)
    ensures BucketMin(p, idx) >= Pow2(p)
    decreases idx
  {
    PowPositive(p);
    hide Pow2, BucketMin;
    if idx < 2 * Pow2(p) {
      MinSmall(p, idx);
    } else {
      MinDouble(p, idx - Pow2(p));
      MinFrom(p, idx - Pow2(p));
    }
  }

  /** A value's bucket is at or past one exactly when the value reaches its least value. */
  lemma {:induction false} AtLeast(p: nat, val: nat, idx: nat)
    ensures Unclamped(p, val) >= idx <==> val >= BucketMin(p, idx)
    decreases val
  {
    var n := Pow2(p);
    PowPositive(p);
    hide Pow2, Unclamped, BucketMin;
    if val < 2 * n { UnclampedSmall(p, val); } else { UnclampedHalf(p, val); UnclampedFrom(p, val / 2); }
    if idx < 2 * n { MinSmall(p, idx); } else { MinDouble(p, idx - n); MinFrom(p, idx - n); }
    if val >= 2 * n && idx >= 2 * n { AtLeast(p, val / 2, idx - n); }
  }

  lemma ClampedAtLeast(maxBits: nat, p: nat, val: nat, idx: nat)
    requires idx <= Up(maxBits, p)
    ensures Bucket(maxBits, p, val) >= idx <==> val >= BucketMin(p, idx)
  {
    AtLeast(p, val, idx);
  }

  /** The bucket of the greatest value of `k` bits. */
  lemma {:induction false} LastBucket(p: nat, k: nat)
    requires k >= p
    ensures Pow2(k) > 0 && Unclamped(p, Pow2(k) - 1) + 1 == Up(k - p + 1, p)
  {
    hide Unclamped, Pow2, Up;
    PowPositive(p);
    PowPositive(k);
    UpOne(p);
    if k == p {
      UnclampedSmall(p, Pow2(p) - 1);
    } else {
      PowNext(k);
      PowGrows(p, k - 1);
      LastBucket(p, k - 1);
      UpSum(k - p, 1, p);
      if k == p + 1 {
        UnclampedSmall(p, Pow2(k) - 1);
      } else {
        PowNext(p + 1);
        PowGrows(p + 1, k - 1);
        UnclampedHalf(p, Pow2(k) - 1);
      }
    }
  }

  lemma {:induction false} PowGrows(a: nat, b: nat)
    requires a <= b
    ensures Pow2(a) <= Pow2(b)
  {
    if a < b {
      PowNext(b);
      PowGrows(a, b - 1);
    }
  }

  /** A bucket's least value is itself the value of a word exactly for the buckets that such values reach. */
  lemma MinFits(p: nat, idx: nat)
    requires p < PRECISIONS
    ensures BucketMin(p, idx) < Pow2(WORD) <==> idx < Up(WORD + 1 - p, p)
  {
    hide Pow2, Unclamped, BucketMin, Up;
    LastBucket(p, WORD);
    AtLeast(p, Pow2(WORD) - 1, idx);
  }

  /** For a value of a word: its bucket is at or past one exactly when it reaches what the code gives as the
      bucket's least value.  This holds for the buckets that words reach and for no others. */
  lemma BucketAtLeast(maxBits: nat, p: nat, idx: nat)
    requires p < PRECISIONS && idx <= Up(maxBits, p)
    ensures (forall val | 0 <= val < Pow2(WORD) :: Bucket(maxBits, p, val) >= idx <==> val >= MinVal(p, idx))
      <==> idx < Up(WORD + 1 - p, p)
  {
    hide Pow2, Bucket, BucketMin, Up;
    PowPositive(WORD);
    MinFits(p, idx);
    var m := BucketMin(p, idx);
    if m < Pow2(WORD) {
      RemainderIs(m, Pow2(WORD), 0, m);
      forall val | 0 <= val < Pow2(WORD) ensures Bucket(maxBits, p, val) >= idx <==> val >= MinVal(p, idx) {
        ClampedAtLeast(maxBits, p, val, idx);
      }
    } else {
      ClampedAtLeast(maxBits, p, MinVal(p, idx), idx);
    }
  }

  /** Every bucket is reached when the bits of the values and the precision together make at most a word. */
  lemma AllReached(maxBits: nat, p: nat, idx: nat)
    requires p < PRECISIONS && maxBits + p <= WORD && idx <= Up(maxBits, p)
    ensures idx < Up(WORD + 1 - p, p)
  {
    hide Up, Pow2;
    var more := WORD + 1 - p - maxBits;
    PowPositive(p);
    UpSum(maxBits, more, p);
    PowTimesUp(more, p);
    MulBounds(Pow2(p), more);
  }

  /** The first bucket of each doubling starts at a power of 2. */
  lemma {:induction false} FirstMin(p: nat, k: nat)
    requires k > 0
    ensures Up(k, p) >= Pow2(p) && BucketMin(p, Up(k, p)) == Pow2(p + k - 1)
  {
    PowPositive(p);
    UpOne(p);
    if k == 1 {
      hide BucketMin, Pow2;
      MinSmall(p, Up(k, p));
    } else {
      FirstMin(p, k - 1);
      UpSum(k - 1, 1, p);
      hide BucketMin;
      MinDouble(p, Up(k - 1, p));
    }
  }

  /** With the space's own 63 bits and precision of 2 the last bucket is not: its least value is given as 0. */
  lemma LastMinIsZero()
    ensures Up(63, 2) == 252 && MinVal(2, 252) == 0
    ensures forall val | 0 <= val < Pow2(WORD) :: Bucket(63, 2, val) < 252
  {
    hide Pow2, Bucket, BucketMin;
    PowPositive(WORD);
    FirstMin(2, 63);
    forall val | 0 <= val < Pow2(WORD) ensures Bucket(63, 2, val) < 252 {
      ClampedAtLeast(63, 2, val, 252);
    }
  }

  lemma BucketMonotone(maxBits: nat, p: nat, v: nat, w: nat)
    requires v <= w && p < PRECISIONS
    ensures Bucket(maxBits, p, v) <= Bucket(maxBits, p, w)
  {
    hide Bucket, BucketMin;
    ClampedAtLeast(maxBits, p, v, Bucket(maxBits, p, v));
    ClampedAtLeast(maxBits, p, w, Bucket(maxBits, p, v));
  }
}
