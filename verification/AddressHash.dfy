/** The bit mixers that hash addresses, for 64-bit and 32-bit words, and their inverses.  A word is a
    number below 2 to its width; a product wraps. */
module AddressHash {
  import opened Basics

  function Pow2(n: nat): nat {
    if n == 0 then 1 else 2 * Pow2(n - 1)
  }

  /** Exclusive or, bit by bit. */
  function Xor(a: nat, b: nat): nat {
    if a == 0 && b == 0 then 0 else 2 * Xor(a / 2, b / 2) + (a + b) % 2
  }

  /** Shift right. */
  function Shift(x: nat, n: nat): nat {
    if n == 0 then x else Shift(x / 2, n - 1)
  }

  /** `x ^= x >> n` */
  function Fold(x: nat, n: nat): nat {
    Xor(x, Shift(x, n))
  }

  /** `x ^= x >> n ^ x >> 2n` */
  function FoldTwice(x: nat, n: nat): nat {
    Xor(x, Xor(Shift(x, n), Shift(x, 2 * n)))
  }

  const WORD64: nat := 0x1_0000_0000_0000_0000
  const WORD32: nat := 0x1_0000_0000

  function Times(x: nat, c: nat, word: nat): nat
    requires word > 0
  {
    x * c % word
  }

  function Hash64(x: nat): nat {
    var a := Fold(x, 30);
    var b := Times(a, 0xbf58476d1ce4e5b9, WORD64);
    var c := Fold(b, 27);
    var d := Times(c, 0x94d049bb133111eb, WORD64);
    Fold(d, 31)
  }

  function Unhash64(x: nat): nat {
    var a := FoldTwice(x, 31);
    var b := Times(a, 0x319642b2d24d8ec3, WORD64);
    var c := FoldTwice(b, 27);
    var d := Times(c, 0x96de1b173f119089, WORD64);
    FoldTwice(d, 30)
  }

  function Hash32(x: nat): nat {
    var a := Fold(x, 16);
    var b := Times(a, 0x7feb352d, WORD32);
    var c := Fold(b, 15);
    var d := Times(c, 0x846ca68b, WORD32);
    Fold(d, 16)
  }

  function Unhash32(x: nat): nat {
    var a := Fold(x, 16);
    var b := Times(a, 0x43021123, WORD32);
    var c := FoldTwice(b, 15);
    var d := Times(c, 0x1d69e2a5, WORD32);
    Fold(d, 16)
  }

  // ----- exclusive or and shifts -----------------------------------------------------------

  lemma XorBits(a: nat, b: nat)
    ensures Xor(a, b) / 2 == Xor(a / 2, b / 2) && Xor(a, b) % 2 == (a + b) % 2
  {
  }

  lemma {:induction false} XorZero(a: nat)
    ensures Xor(a, 0) == a && Xor(0, a) == a && Xor(a, a) == 0
  {
    if a != 0 { XorZero(a / 2); }
  }

  lemma {:induction false} XorCommutes(a: nat, b: nat)
    ensures Xor(a, b) == Xor(b, a)
    decreases a + b
  {
    if a != 0 || b != 0 { XorCommutes(a / 2, b / 2); }
  }

  lemma Parity(a: int, b: int, c: int, u: int, v: int)
    requires u % 2 == (a + b) % 2 && v % 2 == (b + c) % 2
    ensures (u + c) % 2 == (a + v) % 2
  {
  }

  lemma {:induction false} XorAssociates(a: nat, b: nat, c: nat)
    ensures Xor(Xor(a, b), c) == Xor(a, Xor(b, c))
    decreases a + b + c
  {
    if a == 0 && b == 0 && c == 0 {
    } else {
      hide Xor;
      XorAssociates(a / 2, b / 2, c / 2);
      XorBits(a, b);
      XorBits(b, c);
      XorBits(Xor(a, b), c);
      XorBits(a, Xor(b, c));
      Parity(a, b, c, Xor(a, b), Xor(b, c));
      SameBits(Xor(Xor(a, b), c), Xor(a, Xor(b, c)));
    }
  }

  lemma SameBits(x: nat, y: nat)
    requires x / 2 == y / 2 && x % 2 == y % 2
    ensures x == y
  {
  }

  lemma {:induction false} ShiftXor(a: nat, b: nat, n: nat)
    ensures Shift(Xor(a, b), n) == Xor(Shift(a, n), Shift(b, n))
  {
    if n > 0 {
      XorBits(a, b);
      ShiftXor(a / 2, b / 2, n - 1);
    }
  }

  lemma {:induction false} ShiftShift(x: nat, m: nat, n: nat)
    ensures Shift(Shift(x, m), n) == Shift(x, m + n)
    decreases m
  {
    if m > 0 { ShiftShift(x / 2, m - 1, n); }
  }

  lemma {:induction false} ShiftOut(x: nat, n: nat, width: nat)
    requires x < Pow2(width) && n >= width
    ensures Shift(x, n) == 0
    decreases n
  {
    if n > 0 {
      if width > 0 { ShiftOut(x / 2, n - 1, width - 1); } else { ShiftOut(0, n - 1, 0); }
    }
  }

  lemma {:induction false} ShiftBound(x: nat, n: nat)
    ensures Shift(x, n) <= x
  {
    if n > 0 { ShiftBound(x / 2, n - 1); }
  }

  lemma {:induction false} XorBound(a: nat, b: nat, width: nat)
    requires a < Pow2(width) && b < Pow2(width)
    ensures Xor(a, b) < Pow2(width)
    decreases width
  {
    if width > 0 { XorBound(a / 2, b / 2, width - 1); }
  }

  lemma FoldBound(x: nat, n: nat, width: nat)
    requires x < Pow2(width)
    ensures Fold(x, n) < Pow2(width) && FoldTwice(x, n) < Pow2(width)
  {
    ShiftBound(x, n);
    ShiftBound(x, 2 * n);
    XorBound(x, Shift(x, n), width);
    XorBound(Shift(x, n), Shift(x, 2 * n), width);
    XorBound(x, Xor(Shift(x, n), Shift(x, 2 * n)), width);
  }

  /** Terms that occur twice cancel. */
  lemma Cancel(a: nat, b: nat, c: nat, d: nat)
    ensures Xor(Xor(a, b), Xor(b, c)) == Xor(a, c)
    ensures Xor(Xor(a, b), Xor(Xor(b, c), Xor(c, d))) == Xor(a, d)
    ensures Xor(Xor(a, Xor(b, c)), Xor(b, Xor(c, d))) == Xor(a, d)
  {
    CancelMiddle(a, b, c);
    CancelMiddle(b, c, d);
    CancelMiddle(a, b, d);
    XorAssociates(b, c, d);
    CancelMiddle(a, Xor(b, c), d);
  }

  lemma CancelMiddle(a: nat, b: nat, c: nat)
    ensures Xor(Xor(a, b), Xor(b, c)) == Xor(a, c)
  {
    XorAssociates(a, b, Xor(b, c));
    XorAssociates(b, b, c);
    XorZero(b);
    XorZero(c);
  }

  /** Folding by at least half the width undoes itself. */
  lemma FoldTwiceOver(x: nat, n: nat, width: nat)
    requires x < Pow2(width) && 2 * n >= width
    ensures Fold(Fold(x, n), n) == x
  {
    ShiftXor(x, Shift(x, n), n);
    ShiftShift(x, n, n);
    ShiftOut(x, n + n, width);
    CancelMiddle(x, Shift(x, n), 0);
    XorZero(x);
  }

  /** Folding by at least a third of the width is undone by folding twice, and the other way round. */
  lemma FoldInverse(x: nat, n: nat, width: nat)
    requires x < Pow2(width) && 3 * n >= width
    ensures FoldTwice(Fold(x, n), n) == x && Fold(FoldTwice(x, n), n) == x
  {
    var s1, s2, s3 := Shift(x, n), Shift(x, 2 * n), Shift(x, 3 * n);
    ShiftShift(x, n, n);
    ShiftShift(x, n, 2 * n);
    ShiftShift(x, 2 * n, n);
    ShiftXor(x, s1, n);
    ShiftXor(x, s1, 2 * n);
    ShiftXor(x, Xor(s1, s2), n);
    ShiftXor(s1, s2, n);
    ShiftOut(x, 3 * n, width);
    Cancel(x, s1, s2, 0);
    XorZero(x);
    XorZero(s2);
  }

  // ----- products --------------------------------------------------------------------------

  /** Factors whose product is 1 modulo the word undo each other. */
  lemma TimesInverse(x: nat, c: nat, c2: nat, word: nat, q: nat)
    requires x < word && c * c2 == word * q + 1
    ensures Times(Times(x, c, word), c2, word) == x
  {
    var k := x * c / word;
    var r := x * c % word;
    assert x * c == word * k + r;
    Reassociate(x, c, c2, word, q, k, r);
    RemainderIs(r * c2, word, x * q - k * c2, x);
  }

  lemma Reassociate(x: int, c: int, c2: int, word: int, q: int, k: int, r: int)
    requires x * c == word * k + r && c * c2 == word * q + 1
    ensures r * c2 == word * (x * q - k * c2) + x
  {
    assert x * c * c2 == (word * k + r) * c2 == word * k * c2 + r * c2;
    assert x * (c * c2) == x * (word * q + 1) == x * (word * q) + x;
    assert word * (x * q - k * c2) == word * (x * q) - word * (k * c2);
  }

  lemma Widths()
    ensures Pow2(64) == WORD64 && Pow2(32) == WORD32
  {
    assert Pow2(8) == 0x100;
    assert Pow2(16) == 0x1_0000;
    assert Pow2(24) == 0x100_0000;
    assert Pow2(32) == WORD32;
    assert Pow2(40) == 0x100_0000_0000;
    assert Pow2(48) == 0x1_0000_0000_0000;
    assert Pow2(56) == 0x100_0000_0000_0000;
  }

  /** Every address comes back from its hash, and every word is the hash of some address. */
  lemma UnhashHash64(x: nat)
    requires x < WORD64
    ensures Hash64(x) < WORD64 && Unhash64(x) < WORD64
    ensures Unhash64(Hash64(x)) == x && Hash64(Unhash64(x)) == x
  {
    Widths();
    hide Pow2, Fold, FoldTwice, Times;
    Forth64(x);
    Back64(x);
  }

  lemma Forth64(x: nat)
    requires x < WORD64
    ensures Hash64(x) < WORD64 && Unhash64(Hash64(x)) == x
  {
    Widths();
    hide Pow2, Fold, FoldTwice;
    var a := Fold(x, 30);
    var b := Times(a, 0xbf58476d1ce4e5b9, WORD64);
    var c := Fold(b, 27);
    var d := Times(c, 0x94d049bb133111eb, WORD64);
    FoldBound(x, 30, 64);
    FoldBound(b, 27, 64);
    FoldBound(d, 31, 64);
    FoldInverse(d, 31, 64);
    TimesInverse(c, 0x94d049bb133111eb, 0x319642b2d24d8ec3, WORD64, (0x94d049bb133111eb * 0x319642b2d24d8ec3) / WORD64);
    FoldInverse(b, 27, 64);
    TimesInverse(a, 0xbf58476d1ce4e5b9, 0x96de1b173f119089, WORD64, (0xbf58476d1ce4e5b9 * 0x96de1b173f119089) / WORD64);
    FoldInverse(x, 30, 64);
  }

  lemma Back64(x: nat)
    requires x < WORD64
    ensures Unhash64(x) < WORD64 && Hash64(Unhash64(x)) == x
  {
    Widths();
    hide Pow2, Fold, FoldTwice;
    var a := FoldTwice(x, 31);
    var b := Times(a, 0x319642b2d24d8ec3, WORD64);
    var c := FoldTwice(b, 27);
    var d := Times(c, 0x96de1b173f119089, WORD64);
    FoldBound(x, 31, 64);
    FoldBound(b, 27, 64);
    FoldBound(d, 30, 64);
    FoldInverse(d, 30, 64);
    TimesInverse(c, 0x96de1b173f119089, 0xbf58476d1ce4e5b9, WORD64, (0xbf58476d1ce4e5b9 * 0x96de1b173f119089) / WORD64);
    FoldInverse(b, 27, 64);
    TimesInverse(a, 0x319642b2d24d8ec3, 0x94d049bb133111eb, WORD64, (0x94d049bb133111eb * 0x319642b2d24d8ec3) / WORD64);
    FoldInverse(x, 31, 64);
  }

  /** The same for the 32-bit mixer. */
  lemma UnhashHash32(x: nat)
    requires x < WORD32
    ensures Hash32(x) < WORD32 && Unhash32(Hash32(x)) == x
    ensures Unhash32(x) < WORD32 && Hash32(Unhash32(x)) == x
  {
    hide Pow2, Fold, FoldTwice, Times;
    Forth32(x);
    Back32(x);
  }

  lemma Forth32(x: nat)
    requires x < WORD32
    ensures Hash32(x) < WORD32 && Unhash32(Hash32(x)) == x
  {
    Widths();
    hide Pow2, Fold, FoldTwice;
    var a := Fold(x, 16);
    var b := Times(a, 0x7feb352d, WORD32);
    var c := Fold(b, 15);
    var d := Times(c, 0x846ca68b, WORD32);
    FoldBound(x, 16, 32);
    FoldBound(b, 15, 32);
    FoldBound(d, 16, 32);
    FoldTwiceOver(d, 16, 32);
    TimesInverse(c, 0x846ca68b, 0x43021123, WORD32, (0x846ca68b * 0x43021123) / WORD32);
    FoldInverse(b, 15, 32);
    TimesInverse(a, 0x7feb352d, 0x1d69e2a5, WORD32, (0x7feb352d * 0x1d69e2a5) / WORD32);
    FoldTwiceOver(x, 16, 32);
  }

  lemma Back32(x: nat)
    requires x < WORD32
    ensures Unhash32(x) < WORD32 && Hash32(Unhash32(x)) == x
  {
    Widths();
    hide Pow2, Fold, FoldTwice;
    var a := Fold(x, 16);
    var b := Times(a, 0x43021123, WORD32);
    var c := FoldTwice(b, 15);
    var d := Times(c, 0x1d69e2a5, WORD32);
    FoldBound(x, 16, 32);
    FoldBound(b, 15, 32);
    FoldBound(d, 16, 32);
    FoldTwiceOver(d, 16, 32);
    TimesInverse(c, 0x1d69e2a5, 0x7feb352d, WORD32, (0x7feb352d * 0x1d69e2a5) / WORD32);
    FoldInverse(b, 15, 32);
    TimesInverse(a, 0x43021123, 0x846ca68b, WORD32, (0x846ca68b * 0x43021123) / WORD32);
    FoldTwiceOver(x, 16, 32);
  }
}
