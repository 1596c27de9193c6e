/** Scans of metadata bytes, eight at a time in a 64-bit word, and the loops over single bytes they stand
    for.  A word is the number its eight bytes make, the first byte lowest. */
module Swar {
  import opened Basics
  import opened AddressHash

  const WORD: nat := WORD64

  /** Bitwise and. */
  function And(a: nat, b: nat): nat {
    if a == 0 || b == 0 then 0 else 2 * And(a / 2, b / 2) + if a % 2 == 1 && b % 2 == 1 then 1 else 0
  }

  ghost predicate Bytes(s: seq<nat>) {
    forall i | 0 <= i < |s| :: s[i] < 256
  }

  function Word(s: seq<nat>): nat {
    if s == [] then 0 else s[0] + 256 * Word(s[1..])
  }

  function Broadcast(b: nat): nat {
    b * 0x0101010101010101 % WORD
  }

  function Same(n: nat, b: nat): seq<nat> {
    seq(n, _ => b)
  }

  // ----- bits ------------------------------------------------------------------------------

  lemma AndBits(a: nat, b: nat)
    ensures And(a, b) / 2 == And(a / 2, b / 2)
    ensures And(a, b) % 2 == if a % 2 == 1 && b % 2 == 1 then 1 else 0
  {
    if a == 0 || b == 0 {
      assert And(0, b / 2) == 0 && And(a / 2, 0) == 0;
    } else {
      HalfSum(And(a / 2, b / 2), if a % 2 == 1 && b % 2 == 1 then 1 else 0);
    }
  }

  lemma HalfSum(half: nat, x: nat)
    ensures (2 * half + x) / 2 == half + x / 2 && (2 * half + x) % 2 == x % 2
  {
    RemainderIs(2 * half + x, 2, half + x / 2, x % 2);
  }

  lemma PowNext(k: nat)
    requires k > 0
    ensures Pow2(k) == 2 * Pow2(k - 1) && Pow2(k - 1) > 0
  {
    PowPositive(k - 1);
  }

  lemma {:induction false} PowPositive(k: nat)
    ensures Pow2(k) > 0
  {
    if k > 0 { PowPositive(k - 1); }
  }

  /** A number shifted up by `k` bits. */
  function Up(a: nat, k: nat): nat {
    if k == 0 then a else 2 * Up(a, k - 1)
  }

  lemma HalfBelow(x: nat, p: nat)
    requires x < 2 * p
    ensures x / 2 < p
  {
  }

  lemma AndNone()
    ensures And(0, 0) == 0 && Pow2(0) == 1
  {
  }

  lemma XorNone()
    ensures Xor(0, 0) == 0 && Pow2(0) == 1
  {
  }

  lemma UpZero(a: nat)
    ensures Up(a, 0) == a
  {
  }

  lemma UpNext(a: nat, k: nat)
    requires k > 0
    ensures Up(a, k) == 2 * Up(a, k - 1)
  {
  }

  lemma AndStep(a: nat, x: nat, b: nat, y: nat, c: nat)
    requires And(a + x / 2, b + y / 2) == c + And(x / 2, y / 2)
    ensures And(2 * a + x, 2 * b + y) == 2 * c + And(x, y)
  {
    hide And;
    HalfSum(a, x);
    HalfSum(b, y);
    AndBits(2 * a + x, 2 * b + y);
    AndBits(x, y);
    Doubles(And(2 * a + x, 2 * b + y), c, And(x, y));
  }

  /** Numbers in two parts are taken part by part. */
  lemma {:induction false} SplitAnd(k: nat, a: nat, x: nat, b: nat, y: nat)
    requires x < Pow2(k) && y < Pow2(k)
    ensures And(Up(a, k) + x, Up(b, k) + y) == Up(And(a, b), k) + And(x, y)
  {
    AndNone();
    UpZero(a);
    UpZero(b);
    UpZero(And(a, b));
    hide And, Pow2, Up;
    if k > 0 {
      PowNext(k);
      UpNext(a, k);
      UpNext(b, k);
      UpNext(And(a, b), k);
      HalfBelow(x, Pow2(k - 1));
      HalfBelow(y, Pow2(k - 1));
      SplitAnd(k - 1, a, x / 2, b, y / 2);
      AndStep(Up(a, k - 1), x, Up(b, k - 1), y, Up(And(a, b), k - 1));
    }
  }

  /** Bitwise or. */
  function Or(a: nat, b: nat): nat {
    AndSmaller(a, b);
    a + b - And(a, b)
  }

  lemma {:induction false} AndSmaller(a: nat, b: nat)
    ensures And(a, b) <= a
  {
    if a != 0 && b != 0 { AndSmaller(a / 2, b / 2); }
  }

  /** Bits put below others are added to them. */
  lemma OrIs(high: nat, k: nat, x: nat)
    requires x < Pow2(k)
    ensures Or(Up(high, k), x) == Up(high, k) + x
  {
    PowPositive(k);
    SplitAnd(k, high, 0, 0, x);
    assert And(high, 0) == 0 && And(0, x) == 0;
    UpNothing(k);
  }

  lemma {:induction false} UpNothing(k: nat)
    ensures Up(0, k) == 0
  {
    if k > 0 { UpNothing(k - 1); }
  }

  lemma {:induction false} AndBelow(x: nat, y: nat, k: nat)
    requires x < Pow2(k) || y < Pow2(k)
    ensures And(x, y) < Pow2(k)
  {
    if k == 0 {
      assert And(0, y) == 0 && And(x, 0) == 0;
    } else {
      PowNext(k);
      hide And, Pow2;
      AndBits(x, y);
      AndBelow(x / 2, y / 2, k - 1);
    }
  }

  lemma Doubles(u: nat, half: nat, v: nat)
    requires u / 2 == half + v / 2 && u % 2 == v % 2
    ensures u == 2 * half + v
  {
  }

  lemma XorStep(a: nat, x: nat, b: nat, y: nat, c: nat)
    requires Xor(a + x / 2, b + y / 2) == c + Xor(x / 2, y / 2)
    ensures Xor(2 * a + x, 2 * b + y) == 2 * c + Xor(x, y)
  {
    hide Xor;
    HalfSum(a, x);
    HalfSum(b, y);
    XorBits(2 * a + x, 2 * b + y);
    XorBits(x, y);
    Parities(2 * a + x, 2 * b + y, x, y);
    Doubles(Xor(2 * a + x, 2 * b + y), c, Xor(x, y));
  }

  /** Numbers in two parts are taken part by part. */
  lemma {:induction false} SplitXor(k: nat, a: nat, x: nat, b: nat, y: nat)
    requires x < Pow2(k) && y < Pow2(k)
    ensures Xor(Up(a, k) + x, Up(b, k) + y) == Up(Xor(a, b), k) + Xor(x, y)
  {
    XorNone();
    UpZero(a);
    UpZero(b);
    UpZero(Xor(a, b));
    hide Xor, Pow2, Up;
    if k > 0 {
      PowNext(k);
      UpNext(a, k);
      UpNext(b, k);
      UpNext(Xor(a, b), k);
      HalfBelow(x, Pow2(k - 1));
      HalfBelow(y, Pow2(k - 1));
      SplitXor(k - 1, a, x / 2, b, y / 2);
      XorStep(Up(a, k - 1), x, Up(b, k - 1), y, Up(Xor(a, b), k - 1));
    }
  }

  lemma Parities(u: nat, v: nat, x: nat, y: nat)
    requires u % 2 == x % 2 && v % 2 == y % 2
    ensures (u + v) % 2 == (x + y) % 2
  {
  }

  /** The low `j` bits. */
  lemma {:induction false} AndLow(x: nat, j: nat, low: nat)
    requires low + 1 == Pow2(j)
    ensures And(x, low) == x % Pow2(j)
  {
    if j == 0 {
      assert And(x, 0) == 0;
    } else {
      PowNext(j);
      hide Pow2, And;
      AndLow(x / 2, j - 1, low / 2);
      AndBits(x, low);
      HalfRemainder(x, Pow2(j - 1));
      Doubles(And(x, low), x / 2 % Pow2(j - 1), x % 2);
    }
  }

  lemma HalfRemainder(x: nat, p: nat)
    requires p > 0
    ensures x % (2 * p) == 2 * (x / 2 % p) + x % 2
  {
    var q, r := x / 2 / p, x / 2 % p;
    assert x / 2 == p * q + r;
    assert (2 * p) * q == 2 * (p * q);
    RemainderIs(x, 2 * p, q, 2 * r + x % 2);
  }

  /** One bit of a number with no higher bits. */
  lemma {:induction false} AndBit(z: nat, j: nat)
    requires z < 2 * Pow2(j)
    ensures And(z, Pow2(j)) == if z >= Pow2(j) then Pow2(j) else 0
  {
    if j == 0 {
      assert And(0, 1) == 0 && And(0, 0) == 0;
    } else {
      PowNext(j);
      hide Pow2, And;
      AndBits(z, Pow2(j));
      AndBit(z / 2, j - 1);
    }
  }

  /** The top bit of a conjunction. */
  lemma {:induction false} AndTop(u: nat, v: nat, j: nat)
    requires u < 2 * Pow2(j) && v < 2 * Pow2(j)
    ensures And(u, v) < 2 * Pow2(j) && (And(u, v) >= Pow2(j) <==> u >= Pow2(j) && v >= Pow2(j))
  {
    if j == 0 {
      assert And(0, v) == 0 && And(u, 0) == 0 && And(0, 0) == 0 && And(1, 1) == 1;
    } else {
      PowNext(j);
      hide Pow2, And;
      AndBits(u, v);
      AndTop(u / 2, v / 2, j - 1);
    }
  }

  lemma {:induction false} XorSmall(x: nat, y: nat, j: nat)
    requires x < Pow2(j) && y < Pow2(j)
    ensures Xor(x, y) < Pow2(j) && (Xor(x, y) == 0 <==> x == y)
  {
    if j == 0 {
      assert Xor(0, 0) == 0;
    } else {
      PowNext(j);
      hide Pow2, Xor;
      XorBits(x, y);
      XorSmall(x / 2, y / 2, j - 1);
      SameHalves(x, y, Xor(x, y));
    }
  }

  lemma SameHalves(x: nat, y: nat, z: nat)
    requires (z / 2 == 0 <==> x / 2 == y / 2) && z % 2 == (x + y) % 2
    ensures z == 0 <==> x == y
  {
    var a, b := x % 2, y % 2;
    assert x == 2 * (x / 2) + a && y == 2 * (y / 2) + b && z == 2 * (z / 2) + z % 2;
    Parities(x, y, a, b);
  }

  // ----- bytes -----------------------------------------------------------------------------

  lemma Byte(a: nat)
    ensures Up(a, 8) == 256 * a && Pow2(8) == 256
  {
    assert Up(a, 1) == 2 * a && Up(a, 2) == 4 * a && Up(a, 3) == 8 * a && Up(a, 4) == 16 * a;
    assert Up(a, 5) == 32 * a && Up(a, 6) == 64 * a && Up(a, 7) == 128 * a;
    assert Pow2(1) == 2 && Pow2(2) == 4 && Pow2(3) == 8 && Pow2(4) == 16;
    assert Pow2(5) == 32 && Pow2(6) == 64 && Pow2(7) == 128;
  }

  function AndAll(s: seq<nat>, t: seq<nat>): seq<nat>
    requires |s| == |t|
  {
    seq(|s|, i requires 0 <= i < |s| => And(s[i], t[i]))
  }

  function XorAll(s: seq<nat>, t: seq<nat>): seq<nat>
    requires |s| == |t|
  {
    seq(|s|, i requires 0 <= i < |s| => Xor(s[i], t[i]))
  }

  function SumAll(s: seq<nat>, t: seq<nat>): seq<nat>
    requires |s| == |t|
  {
    seq(|s|, i requires 0 <= i < |s| => s[i] + t[i])
  }

  lemma AndAllFirst(s: seq<nat>, t: seq<nat>)
    requires |s| == |t| > 0
    ensures AndAll(s, t) != [] && AndAll(s, t)[0] == And(s[0], t[0]) && AndAll(s, t)[1..] == AndAll(s[1..], t[1..])
  {
  }

  lemma XorAllFirst(s: seq<nat>, t: seq<nat>)
    requires |s| == |t| > 0
    ensures XorAll(s, t) != [] && XorAll(s, t)[0] == Xor(s[0], t[0]) && XorAll(s, t)[1..] == XorAll(s[1..], t[1..])
  {
  }

  /** A word is anded byte by byte. */
  lemma {:induction false} WordAnd(s: seq<nat>, t: seq<nat>)
    requires |s| == |t| && Bytes(s) && Bytes(t)
    ensures And(Word(s), Word(t)) == Word(AndAll(s, t))
  {
    AndNone();
    if s == [] {
      assert AndAll(s, t) == [] && t == [];
    } else {
      WordFirst(s);
      WordFirst(t);
      AndAllFirst(s, t);
      WordFirst(AndAll(s, t));
      hide And, Word, Up, Pow2, AndAll;
      WordAnd(s[1..], t[1..]);
      SplitAnd(8, Word(s[1..]), s[0], Word(t[1..]), t[0]);
    }
  }

  lemma {:induction false} WordXor(s: seq<nat>, t: seq<nat>)
    requires |s| == |t| && Bytes(s) && Bytes(t)
    ensures Xor(Word(s), Word(t)) == Word(XorAll(s, t))
  {
    XorNone();
    if s == [] {
      assert XorAll(s, t) == [] && t == [];
    } else {
      WordFirst(s);
      WordFirst(t);
      XorAllFirst(s, t);
      WordFirst(XorAll(s, t));
      hide Xor, Word, Up, Pow2, XorAll;
      WordXor(s[1..], t[1..]);
      SplitXor(8, Word(s[1..]), s[0], Word(t[1..]), t[0]);
    }
  }

  lemma {:induction false} WordSum(s: seq<nat>, t: seq<nat>)
    requires |s| == |t|
    ensures Word(s) + Word(t) == Word(SumAll(s, t))
  {
    if s != [] {
      WordSum(s[1..], t[1..]);
      assert SumAll(s, t)[1..] == SumAll(s[1..], t[1..]);
    }
  }

  function Pow256(n: nat): nat {
    if n == 0 then 1 else 256 * Pow256(n - 1)
  }

  lemma {:induction false} WordBelow(s: seq<nat>)
    requires Bytes(s)
    ensures Word(s) < Pow256(|s|)
  {
    if s != [] { WordBelow(s[1..]); }
  }

  lemma EightBytes()
    ensures Pow256(8) == WORD
  {
    assert Pow256(4) == 0x1_0000_0000;
  }

  /** The same byte eight times. */
  lemma BroadcastIs(b: nat)
    requires b < 256
    ensures Broadcast(b) == Word(Same(8, b))
  {
    WordSame(8, b);
    WordBelow(Same(8, b));
    EightBytes();
    assert Ones(8) == 0x0101010101010101;
  }

  function Ones(n: nat): nat {
    if n == 0 then 0 else 1 + 256 * Ones(n - 1)
  }

  lemma {:induction false} WordSame(n: nat, b: nat)
    ensures Word(Same(n, b)) == b * Ones(n)
  {
    if n > 0 {
      assert Same(n, b)[1..] == Same(n - 1, b);
      WordSame(n - 1, b);
    }
  }

  // ----- matching --------------------------------------------------------------------------

  /** What is looked for: any of some bits, or one of two values of the low bits. */
  datatype Test = AnyOf(mask: nat) | LowBits(width: nat, tag: nat) | LowBitsEither(width: nat, tag1: nat, tag2: nat) {
    ghost predicate Valid() {
      match this
      case AnyOf(mask) => mask < 256
      case LowBits(width, tag) => 1 <= width <= 7 && 0 < tag < Pow2(width)
      case LowBitsEither(width, tag1, tag2) => 1 <= width <= 7 && 0 < tag1 < Pow2(width) && 0 < tag2 < Pow2(width)
    }

    /** The test of one byte. */
    predicate Hits(b: nat) {
      match this
      case AnyOf(mask) => And(b, mask) != 0
      case LowBits(width, tag) => Pow2(width) > 0 && b % Pow2(width) == tag
      case LowBitsEither(width, tag1, tag2) => Pow2(width) > 0 && (b % Pow2(width) == tag1 || b % Pow2(width) == tag2)
    }
  }

  function MatchBits(word: nat, mask: nat): nat {
    And(word, Broadcast(mask))
  }

  function TagSum(word: nat, mask: nat, tag: nat): nat {
    (Xor(And(word, Broadcast(mask)), Broadcast(tag)) + Broadcast(mask)) % WORD
  }

  function MatchTag(word: nat, mask: nat, tag: nat): nat {
    Xor(And(TagSum(word, mask, tag), Broadcast(mask + 1)), Broadcast(mask + 1))
  }

  function MatchTwoTags(word: nat, mask: nat, tag1: nat, tag2: nat): nat {
    Xor(And(And(TagSum(word, mask, tag1), TagSum(word, mask, tag2)), Broadcast(mask + 1)), Broadcast(mask + 1))
  }

  /** The match of eight bytes at once; the mask of the low bits is all ones. */
  function Match(t: Test, word: nat): nat {
    match t
    case AnyOf(mask) => MatchBits(word, mask)
    case LowBits(width, tag) => MatchTag(word, AllOnes(width), tag)
    case LowBitsEither(width, tag1, tag2) => MatchTwoTags(word, AllOnes(width), tag1, tag2)
  }

  /** `width` ones. */
  function AllOnes(width: nat): nat {
    if width == 0 then 0 else 2 * AllOnes(width - 1) + 1
  }

  lemma {:induction false} OnesNext(width: nat)
    ensures AllOnes(width) + 1 == Pow2(width)
  {
    if width > 0 { OnesNext(width - 1); }
  }

  /** The sum for one byte: below twice the test bit, and reaching it unless the byte matches. */
  function ByteSum(b: nat, mask: nat, tag: nat): nat {
    Xor(And(b, mask), tag) + mask
  }

  lemma ByteSumIs(b: nat, width: nat, tag: nat)
    requires tag < Pow2(width) && width <= 7
    ensures ByteSum(b, AllOnes(width), tag) < 2 * Pow2(width) <= 256 && Pow2(width) > 0
    ensures ByteSum(b, AllOnes(width), tag) >= Pow2(width) <==> b % Pow2(width) != tag
  {
    OnesNext(width);
    PowPositive(width);
    SmallPower(width);
    AndLow(b, width, AllOnes(width));
    hide Pow2, Xor, And, AllOnes;
    XorSmall(And(b, AllOnes(width)), tag, width);
  }

  lemma SmallPower(width: nat)
    requires width <= 7
    ensures 2 * Pow2(width) <= 256
  {
    assert Pow2(1) == 2 && Pow2(2) == 4 && Pow2(3) == 8 && Pow2(4) == 16 && Pow2(5) == 32 && Pow2(6) == 64 && Pow2(7) == 128;
  }

  function AndEach(s: seq<nat>, b: nat): seq<nat> {
    seq(|s|, i requires 0 <= i < |s| => And(s[i], b))
  }

  function XorEach(s: seq<nat>, b: nat): seq<nat> {
    seq(|s|, i requires 0 <= i < |s| => Xor(s[i], b))
  }

  function AddEach(s: seq<nat>, b: nat): seq<nat> {
    seq(|s|, i requires 0 <= i < |s| => s[i] + b)
  }

  lemma WordAndEach(s: seq<nat>, b: nat)
    requires |s| == 8 && Bytes(s) && b < 256
    ensures And(Word(s), Broadcast(b)) == Word(AndEach(s, b)) && Bytes(AndEach(s, b))
  {
    hide And, Word, Broadcast;
    BroadcastIs(b);
    WordAnd(s, Same(8, b));
    assert AndAll(s, Same(8, b)) == AndEach(s, b);
    forall i | 0 <= i < 8 ensures And(s[i], b) < 256 {
      Byte(0);
      AndBelow(s[i], b, 8);
    }
  }

  lemma WordXorEach(s: seq<nat>, b: nat)
    requires |s| == 8 && Bytes(s) && b < 256
    ensures Xor(Word(s), Broadcast(b)) == Word(XorEach(s, b)) && Bytes(XorEach(s, b))
  {
    hide Xor, Word, Broadcast;
    BroadcastIs(b);
    WordXor(s, Same(8, b));
    assert XorAll(s, Same(8, b)) == XorEach(s, b);
    forall i | 0 <= i < 8 ensures Xor(s[i], b) < 256 {
      Byte(0);
      XorSmall(s[i], b, 8);
    }
  }

  /** When no byte's sum overflows, nothing is carried from one to the next. */
  lemma WordAddEach(s: seq<nat>, b: nat)
    requires |s| == 8 && Bytes(AddEach(s, b)) && b < 256
    ensures (Word(s) + Broadcast(b)) % WORD == Word(AddEach(s, b))
  {
    hide Word, Broadcast;
    BroadcastIs(b);
    WordSum(s, Same(8, b));
    assert SumAll(s, Same(8, b)) == AddEach(s, b);
    WordBelow(AddEach(s, b));
    EightBytes();
  }

  function ByteSums(s: seq<nat>, mask: nat, tag: nat): seq<nat> {
    AddEach(XorEach(AndEach(s, mask), tag), mask)
  }

  lemma ByteSumsAt(s: seq<nat>, width: nat, tag: nat, i: nat)
    requires i < |s| && width <= 7 && tag < Pow2(width)
    ensures var x := ByteSums(s, AllOnes(width), tag)[i];
      x < 2 * Pow2(width) <= 256 && (x >= Pow2(width) <==> s[i] % Pow2(width) != tag)
  {
    ByteSumIs(s[i], width, tag);
    hide Xor, And, Pow2, AllOnes;
  }

  lemma EachLengths(s: seq<nat>, mask: nat, tag: nat)
    ensures |AndEach(s, mask)| == |XorEach(AndEach(s, mask), tag)| == |ByteSums(s, mask, tag)| == |s|
  {
  }

  lemma TagSumOf(word: nat, mask: nat, tag: nat, low: nat, diff: nat, sum: nat)
    requires And(word, Broadcast(mask)) == low && Xor(low, Broadcast(tag)) == diff && (diff + Broadcast(mask)) % WORD == sum
    ensures TagSum(word, mask, tag) == sum
  {
    hide And, Xor, Broadcast;
  }

  lemma SumsSmall(s: seq<nat>, width: nat, tag: nat)
    requires width <= 7 && tag < Pow2(width)
    ensures Bytes(ByteSums(s, AllOnes(width), tag))
  {
    hide Pow2, AllOnes, ByteSums;
    EachLengths(s, AllOnes(width), tag);
    forall i | 0 <= i < |s| ensures ByteSums(s, AllOnes(width), tag)[i] < 256 {
      ByteSumsAt(s, width, tag, i);
    }
  }

  /** The addition in the word is the eight additions in the bytes. */
  lemma TagSumIs(s: seq<nat>, width: nat, tag: nat)
    requires |s| == 8 && Bytes(s) && width <= 7 && tag < Pow2(width)
    ensures TagSum(Word(s), AllOnes(width), tag) == Word(ByteSums(s, AllOnes(width), tag))
    ensures Bytes(ByteSums(s, AllOnes(width), tag)) && |ByteSums(s, AllOnes(width), tag)| == 8
  {
    var mask := AllOnes(width);
    OnesNext(width);
    SmallPower(width);
    EachLengths(s, mask, tag);
    SumsSmall(s, width, tag);
    hide Xor, And, Word, Broadcast, Pow2, AllOnes, AndEach, XorEach, AddEach, TagSum, Bytes;
    var low := AndEach(s, mask);
    var diff := XorEach(low, tag);
    WordAndEach(s, mask);
    WordXorEach(low, tag);
    WordAddEach(diff, mask);
    TagSumOf(Word(s), mask, tag, Word(low), Word(diff), Word(AddEach(diff, mask)));
  }

  /** Bytes that are one value or nothing. */
  ghost predicate Marks(m: seq<nat>, t: Test, s: seq<nat>) {
    && |m| == |s| == 8 && Bytes(m)
    && forall i | 0 <= i < 8 :: m[i] != 0 <==> t.Hits(s[i])
  }

  /** The test bit of each sum, turned over. */
  lemma TestBits(sums: seq<nat>, width: nat)
    requires |sums| == 8 && width <= 7 && forall i | 0 <= i < 8 :: sums[i] < 2 * Pow2(width)
    ensures var p := AllOnes(width) + 1;
      && Xor(And(Word(sums), Broadcast(p)), Broadcast(p)) == Word(XorEach(AndEach(sums, p), p))
      && Bytes(XorEach(AndEach(sums, p), p))
      && forall i | 0 <= i < 8 :: XorEach(AndEach(sums, p), p)[i] != 0 <==> sums[i] < Pow2(width)
  {
    var p := AllOnes(width) + 1;
    OnesNext(width);
    SmallPower(width);
    hide Xor, And, Word, Broadcast, Pow2, AllOnes;
    assert Bytes(sums);
    WordAndEach(sums, p);
    WordXorEach(AndEach(sums, p), p);
    forall i | 0 <= i < 8 ensures Xor(And(sums[i], p), p) != 0 <==> sums[i] < Pow2(width) {
      TestBit(sums[i], width);
    }
  }

  lemma TestBit(x: nat, width: nat)
    requires x < 2 * Pow2(width)
    ensures Xor(And(x, Pow2(width)), Pow2(width)) != 0 <==> x < Pow2(width)
  {
    PowPositive(width);
    AndBit(x, width);
    XorZero(Pow2(width));
  }

  /** The word match marks exactly the bytes the test hits. */
  lemma MatchIs(t: Test, s: seq<nat>) returns (m: seq<nat>)
    requires t.Valid() && |s| == 8 && Bytes(s)
    ensures Match(t, Word(s)) == Word(m) && Marks(m, t, s)
  {
    hide Xor, And, Word, Broadcast, Pow2, AllOnes, TagSum, ByteSums, XorEach;
    match t
    case AnyOf(mask) =>
      m := AndEach(s, mask);
      WordAndEach(s, mask);
    case LowBits(width, tag) =>
      m := MatchTagIs(s, width, tag);
    case LowBitsEither(width, tag1, tag2) =>
      m := MatchTwoTagsIs(s, width, tag1, tag2);
  }

  lemma MatchTagIs(s: seq<nat>, width: nat, tag: nat) returns (m: seq<nat>)
    requires 1 <= width <= 7 && tag < Pow2(width) && |s| == 8 && Bytes(s)
    ensures MatchTag(Word(s), AllOnes(width), tag) == Word(m) && |m| == 8 && Bytes(m) && Pow2(width) > 0
    ensures forall i | 0 <= i < 8 :: m[i] != 0 <==> s[i] % Pow2(width) == tag
  {
    hide Xor, And, Word, Broadcast, Pow2, AllOnes, TagSum, ByteSums, XorEach, AndEach;
    PowPositive(width);
    TagSumIs(s, width, tag);
    var sums := ByteSums(s, AllOnes(width), tag);
    forall i | 0 <= i < 8
      ensures sums[i] < 2 * Pow2(width)
      ensures sums[i] >= Pow2(width) <==> s[i] % Pow2(width) != tag
    {
      ByteSumsAt(s, width, tag, i);
    }
    TestBits(sums, width);
    m := XorEach(AndEach(sums, AllOnes(width) + 1), AllOnes(width) + 1);
    EachLength(sums, AllOnes(width) + 1);
  }

  lemma EachLength(s: seq<nat>, p: nat)
    ensures |XorEach(AndEach(s, p), p)| == |s|
  {
  }

  lemma MatchTwoTagsIs(s: seq<nat>, width: nat, tag1: nat, tag2: nat) returns (m: seq<nat>)
    requires 1 <= width <= 7 && tag1 < Pow2(width) && tag2 < Pow2(width) && |s| == 8 && Bytes(s)
    ensures MatchTwoTags(Word(s), AllOnes(width), tag1, tag2) == Word(m) && |m| == 8 && Bytes(m) && Pow2(width) > 0
    ensures forall i | 0 <= i < 8 :: m[i] != 0 <==> s[i] % Pow2(width) == tag1 || s[i] % Pow2(width) == tag2
  {
    hide Xor, And, Word, Broadcast, Pow2, AllOnes, TagSum, ByteSums, XorEach, AndEach;
    PowPositive(width);
    TagSumIs(s, width, tag1);
    TagSumIs(s, width, tag2);
    var sums1, sums2 := ByteSums(s, AllOnes(width), tag1), ByteSums(s, AllOnes(width), tag2);
    WordAnd(sums1, sums2);
    var sums := AndAll(sums1, sums2);
    forall i | 0 <= i < 8
      ensures sums[i] < 2 * Pow2(width) <= 256
      ensures sums[i] >= Pow2(width) <==> s[i] % Pow2(width) != tag1 && s[i] % Pow2(width) != tag2
    {
      ByteSumsAt(s, width, tag1, i);
      ByteSumsAt(s, width, tag2, i);
      AndTop(sums1[i], sums2[i], width);
    }
    TestBits(sums, width);
    m := XorEach(AndEach(sums, AllOnes(width) + 1), AllOnes(width) + 1);
    EachLength(sums, AllOnes(width) + 1);
  }

  // ----- finding a byte in a word ----------------------------------------------------------

  /** Trailing zero bits. */
  function Ctz(w: nat): nat
    requires w > 0
  {
    if w % 2 == 1 then 0 else 1 + Ctz(w / 2)
  }

  /** The bits of a number, up to its highest one. */
  function Len(w: nat): nat {
    if w == 0 then 0 else 1 + Len(w / 2)
  }

  /** Leading zero bits of a 64-bit word. */
  function Clz(w: nat): int {
    64 - Len(w)
  }

  function CountZeroBytes(w: nat): nat {
    if w == 0 then 8 else Ctz(w) / 8
  }

  /** The first byte of some that a test hits, or their number. */
  function FirstHit(t: Test, s: seq<nat>): (r: nat)
    ensures r <= |s|
  {
    if s == [] || t.Hits(s[0]) then 0 else 1 + FirstHit(t, s[1..])
  }

  /** The last byte of some that a test hits, or -1. */
  function LastHit(t: Test, s: seq<nat>): (r: int)
    ensures -1 <= r < |s|
  {
    if s == [] then -1 else if t.Hits(s[|s| - 1]) then |s| - 1 else LastHit(t, s[..|s| - 1])
  }

  lemma {:induction false} FirstHitIs(t: Test, s: seq<nat>)
    ensures forall i | 0 <= i < FirstHit(t, s) :: !t.Hits(s[i])
    ensures FirstHit(t, s) < |s| ==> t.Hits(s[FirstHit(t, s)])
  {
    if s != [] && !t.Hits(s[0]) {
      FirstHitIs(t, s[1..]);
      forall i | 0 <= i < FirstHit(t, s) ensures !t.Hits(s[i]) {
        if i > 0 { assert s[i] == s[1..][i - 1]; }
      }
    }
  }

  lemma {:induction false} LastHitIs(t: Test, s: seq<nat>)
    ensures forall i | LastHit(t, s) < i < |s| :: !t.Hits(s[i])
    ensures LastHit(t, s) >= 0 ==> t.Hits(s[LastHit(t, s)])
  {
    if s != [] && !t.Hits(s[|s| - 1]) { LastHitIs(t, s[..|s| - 1]); }
  }

  lemma {:induction false} FirstHitJoin(t: Test, a: seq<nat>, b: seq<nat>)
    ensures FirstHit(t, a + b) == if FirstHit(t, a) < |a| then FirstHit(t, a) else |a| + FirstHit(t, b)
  {
    if a == [] {
      assert a + b == b;
    } else {
      FirstHitJoin(t, a[1..], b);
      assert (a + b)[1..] == a[1..] + b;
    }
  }

  lemma {:induction false} LastHitJoin(t: Test, a: seq<nat>, b: seq<nat>)
    ensures LastHit(t, a + b) == if LastHit(t, b) >= 0 then |a| + LastHit(t, b) else LastHit(t, a)
  {
    if b == [] {
      assert a + b == a;
    } else {
      LastHitJoin(t, a, b[..|b| - 1]);
      assert (a + b)[..|a + b| - 1] == a + b[..|b| - 1];
    }
  }

  lemma {:induction false} CtzUp(w: nat, k: nat)
    requires w > 0
    ensures Up(w, k) > 0 && Ctz(Up(w, k)) == k + Ctz(w)
  {
    if k > 0 {
      CtzUp(w, k - 1);
      HalfSum(Up(w, k - 1), 0);
    }
  }

  lemma {:induction false} CtzLow(a: nat, x: nat, k: nat)
    requires 0 < x < Pow2(k)
    ensures Ctz(Up(a, k) + x) < k
  {
    assert Pow2(0) == 1;
    if k > 0 {
      HalfSum(Up(a, k - 1), x);
      if x % 2 == 0 { CtzLow(a, x / 2, k - 1); }
    }
  }

  lemma WordFirst(m: seq<nat>)
    requires m != []
    ensures Word(m) == Up(Word(m[1..]), 8) + m[0] && Pow2(8) == 256
  {
    Byte(Word(m[1..]));
  }

  lemma FirstHitFirst(t: Test, s: seq<nat>)
    requires s != []
    ensures FirstHit(t, s) == if t.Hits(s[0]) then 0 else 1 + FirstHit(t, s[1..])
  {
  }

  lemma EighthOf(c: nat)
    ensures (8 + c) / 8 == 1 + c / 8 && (c < 8 ==> c / 8 == 0)
  {
  }

  /** The lowest byte that is not zero. */
  lemma {:induction false} CountZeroBytesIs(m: seq<nat>, t: Test, s: seq<nat>)
    requires |m| == |s| && Bytes(m) && forall i | 0 <= i < |s| :: m[i] != 0 <==> t.Hits(s[i])
    ensures Word(m) == 0 <==> FirstHit(t, s) == |s|
    ensures Word(m) != 0 ==> Ctz(Word(m)) / 8 == FirstHit(t, s)
  {
    if m != [] {
      WordFirst(m);
      FirstHitFirst(t, s);
      CountZeroBytesIs(m[1..], t, s[1..]);
      UpNothing(8);
      hide Ctz, Up, Word, FirstHit, Test.Hits, Pow2;
      var rest := Word(m[1..]);
      if m[0] != 0 {
        CtzLow(rest, m[0], 8);
        EighthOf(Ctz(Up(rest, 8) + m[0]));
      } else if rest != 0 {
        CtzUp(rest, 8);
        EighthOf(Ctz(rest));
      }
    }
  }

  lemma {:induction false} LenUp(a: nat, x: nat, k: nat)
    requires a > 0 && x < Pow2(k)
    ensures Len(Up(a, k) + x) == k + Len(a)
  {
    if k > 0 {
      HalfSum(Up(a, k - 1), x);
      PowNext(k);
      LenUp(a, x / 2, k - 1);
    } else {
      assert Pow2(0) == 1;
    }
  }

  lemma {:induction false} LenLow(x: nat, k: nat)
    requires 0 < x < Pow2(k)
    ensures 1 <= Len(x) <= k
  {
    assert Pow2(0) == 1;
    if k > 0 {
      PowNext(k);
      if x / 2 > 0 { LenLow(x / 2, k - 1); } else { assert Len(x / 2) == 0; }
    }
  }

  lemma LastHitFirst(t: Test, s: seq<nat>)
    requires s != []
    ensures LastHit(t, s) == if LastHit(t, s[1..]) >= 0 then 1 + LastHit(t, s[1..]) else if t.Hits(s[0]) then 0 else -1
  {
    assert s == [s[0]] + s[1..];
    LastHitJoin(t, [s[0]], s[1..]);
    assert [s[0]][..0] == [];
  }

  /** The highest byte that is not zero. */
  lemma {:induction false} LenIs(m: seq<nat>, t: Test, s: seq<nat>)
    requires |m| == |s| && Bytes(m) && forall i | 0 <= i < |s| :: m[i] != 0 <==> t.Hits(s[i])
    ensures Word(m) == 0 <==> LastHit(t, s) == -1
    ensures Word(m) != 0 ==> 8 * LastHit(t, s) + 1 <= Len(Word(m)) <= 8 * LastHit(t, s) + 8
  {
    if m != [] {
      WordFirst(m);
      LastHitFirst(t, s);
      LenIs(m[1..], t, s[1..]);
      UpNothing(8);
      hide Len, Up, Word, LastHit, Test.Hits, Pow2;
      var rest := Word(m[1..]);
      if rest != 0 {
        LenUp(rest, m[0], 8);
        UpPositive(rest, 8);
      } else if m[0] != 0 {
        LenLow(m[0], 8);
      }
    }
  }

  lemma {:induction false} UpPositive(a: nat, k: nat)
    requires a > 0
    ensures Up(a, k) > 0
  {
    if k > 0 { UpPositive(a, k - 1); }
  }

  // ----- part of a word --------------------------------------------------------------------

  lemma {:induction false} ShiftLow(a: nat, x: nat, k: nat)
    requires x < Pow2(k)
    ensures Shift(Up(a, k) + x, k) == a
  {
    assert Pow2(0) == 1;
    if k > 0 {
      HalfSum(Up(a, k - 1), x);
      ShiftLow(a, x / 2, k - 1);
    }
  }

  lemma ShiftByte(x: nat, rest: nat)
    requires x < 256
    ensures Shift(x + 256 * rest, 8) == rest
  {
    Byte(rest);
    ShiftLow(rest, x, 8);
  }

  /** Shifted down by whole bytes, a word loses its first ones. */
  lemma {:induction false} WordShift(s: seq<nat>, u: nat)
    requires Bytes(s) && u <= |s|
    ensures Shift(Word(s), 8 * u) == Word(s[u..])
    decreases u
  {
    if u == 0 {
      assert s[0..] == s;
    } else {
      hide Shift;
      ShiftByte(s[0], Word(s[1..]));
      WordShift(s[1..], u - 1);
      ShiftShift(Word(s), 8, 8 * (u - 1));
      assert s[1..][u - 1..] == s[u..];
    }
  }

  lemma {:induction false} WordPad(s: seq<nat>, n: nat)
    ensures Word(s + Same(n, 0)) == Word(s)
  {
    if s == [] {
      assert s + Same(n, 0) == Same(n, 0);
      WordSame(n, 0);
    } else {
      assert (s + Same(n, 0))[1..] == s[1..] + Same(n, 0);
      WordPad(s[1..], n);
    }
  }

  /** Shifted up by whole bytes, a word gains zeros below. */
  lemma {:induction false} WordUp(s: seq<nat>, k: nat)
    ensures Up(Word(s), 8 * k) == Word(Same(k, 0) + s)
    decreases k
  {
    if k == 0 {
      assert Same(0, 0) + s == s;
    } else {
      hide Up;
      WordUp(s, k - 1);
      UpUp(Word(s), 8 * (k - 1), 8);
      Byte(Up(Word(s), 8 * (k - 1)));
      assert (Same(k, 0) + s)[1..] == Same(k - 1, 0) + s;
    }
  }

  lemma {:induction false} UpUp(a: nat, j: nat, k: nat)
    ensures Up(Up(a, j), k) == Up(a, j + k)
  {
    if k > 0 { UpUp(a, j, k - 1); }
  }

  /** The first eight bytes are what is left of a longer word. */
  lemma WordCut(s: seq<nat>, rest: seq<nat>)
    requires |s| == 8 && Bytes(s)
    ensures Word(s + rest) % WORD == Word(s)
  {
    WordJoin(s, rest);
    WordBelow(s);
    EightBytes();
    RemainderIs(Word(s + rest), WORD, Word(rest), Word(s));
  }

  lemma PowShift(n: nat, w: nat)
    requires n > 0
    ensures Pow256(n) * w == 256 * (Pow256(n - 1) * w)
  {
  }

  lemma WordRest(m: seq<nat>)
    requires m != []
    ensures Word(m) == m[0] + 256 * Word(m[1..])
  {
  }

  lemma {:induction false} WordJoin(s: seq<nat>, rest: seq<nat>)
    ensures Word(s + rest) == Word(s) + Pow256(|s|) * Word(rest)
  {
    if s == [] {
      assert s + rest == rest;
    } else {
      var whole := s + rest;
      assert whole[1..] == s[1..] + rest && whole[0] == s[0];
      WordJoin(s[1..], rest);
      PowShift(|s|, Word(rest));
      WordRest(s);
      WordRest(whole);
      hide Word, Pow256;
    }
  }

  lemma {:induction false} NoHitInZeros(t: Test, n: nat)
    requires t.Valid()
    ensures FirstHit(t, Same(n, 0)) == n && LastHit(t, Same(n, 0)) == -1
  {
    if n > 0 {
      NoHitInZeros(t, n - 1);
      ZeroMisses(t);
      assert Same(n, 0)[1..] == Same(n, 0)[..n - 1] == Same(n - 1, 0);
    }
  }

  lemma ZeroMisses(t: Test)
    requires t.Valid()
    ensures !t.Hits(0)
  {
    match t
    case AnyOf(mask) => assert And(0, mask) == 0;
    case LowBits(width, tag) => PowPositive(width); RemainderIs(0, Pow2(width), 0, 0);
    case LowBitsEither(width, tag1, tag2) => PowPositive(width); RemainderIs(0, Pow2(width), 0, 0);
  }

  // ----- the scans -------------------------------------------------------------------------

  /** The match of a whole word finds the first byte hit and the last. */
  lemma WholeWord(t: Test, s: seq<nat>)
    requires t.Valid() && |s| == 8 && Bytes(s)
    ensures var m := Match(t, Word(s));
      && (m == 0 <==> FirstHit(t, s) == 8) && CountZeroBytes(m) == FirstHit(t, s)
      && (m == 0 <==> LastHit(t, s) == -1) && (m != 0 ==> Clz(m) / 8 == 7 - LastHit(t, s))
  {
    hide Match, Word, FirstHit, LastHit, Ctz, Len, Test.Hits;
    var m := MatchIs(t, s);
    CountZeroBytesIs(m, t, s);
    LenIs(m, t, s);
  }

  /** Bytes before an unaligned start are shifted out; zeros take their place above. */
  lemma LateStart(t: Test, s: seq<nat>, u: nat)
    requires t.Valid() && |s| == 8 && Bytes(s) && u <= 8
    ensures var m := Match(t, Shift(Word(s), 8 * u));
      && (m == 0 <==> FirstHit(t, s[u..]) == 8 - u) && (m != 0 ==> CountZeroBytes(m) == FirstHit(t, s[u..]))
  {
    hide Match, Word, FirstHit, LastHit, CountZeroBytes, Shift, Clz;
    WordShift(s, u);
    WordPad(s[u..], u);
    WholeWord(t, s[u..] + Same(u, 0));
    FirstHitJoin(t, s[u..], Same(u, 0));
    NoHitInZeros(t, u);
  }

  /** Bytes from an unaligned end on are shifted out; zeros take their place below. */
  lemma EarlyEnd(t: Test, s: seq<nat>, u: nat)
    requires t.Valid() && |s| == 8 && Bytes(s) && u <= 8
    ensures var m := Match(t, Up(Word(s), 8 * (8 - u)) % WORD);
      && (m == 0 <==> LastHit(t, s[..u]) == -1) && (m != 0 ==> Clz(m) / 8 == u - 1 - LastHit(t, s[..u]))
  {
    hide Match, Word, FirstHit, LastHit, CountZeroBytes, Up, Clz;
    WordUp(s, 8 - u);
    var kept := Same(8 - u, 0) + s[..u];
    assert Same(8 - u, 0) + s == kept + s[u..];
    WordCut(kept, s[u..]);
    WholeWord(t, kept);
    LastHitJoin(t, Same(8 - u, 0), s[..u]);
    NoHitInZeros(t, 8 - u);
  }

  /** Eight bytes of memory, from an aligned address. */
  method LoadEight(mem: array<nat>, p: nat) returns (word: nat)
    requires p % 8 == 0 && p + 8 <= mem.Length
    ensures word == Word(mem[p..p + 8])
  {
    word := Word(mem[p..p + 8]);
  }

  lemma Aligned(p: nat, q: nat)
    requires p % 8 == 0 && q % 8 == 0 && p < q
    ensures p + 8 <= q
  {
  }

  /** How far a scan looks: on from the limit to the end of the word there. */
  function Reach(ptr: nat, limit: nat): nat {
    (ptr + limit + 7) / 8 * 8 - ptr
  }

  /** A scan reads only words that lie in the memory: they all do, or the one with the first byte that the
      test hits does. */
  ghost predicate Stops(t: Test, mem: seq<nat>, ptr: nat, limit: nat) {
    ptr <= |mem| && (ptr + Reach(ptr, limit) <= |mem| || (ptr + FirstHit(t, mem[ptr..])) / 8 * 8 + 8 <= |mem|)
  }

  lemma SliceNext(mem: seq<nat>, p: nat)
    requires p + 8 <= |mem|
    ensures mem[p..] == mem[p..p + 8] + mem[p + 8..]
  {
  }

  lemma SliceFront(mem: seq<nat>, p: nat, u: nat)
    requires p + 8 <= |mem| && u <= 8
    ensures mem[p + u..] == mem[p..p + 8][u..] + mem[p + 8..]
  {
  }

  lemma SliceBack(mem: seq<nat>, base: nat, p: nat, u: nat)
    requires base <= p && p + 8 <= |mem| && u <= 8
    ensures mem[base..p + u] == mem[base..p] + mem[p..p + 8][..u]
  {
  }

  lemma SliceLast(mem: seq<nat>, base: nat, p: nat)
    requires base + 8 <= p <= |mem|
    ensures mem[base..p] == mem[base..p - 8] + mem[p - 8..p]
  {
  }

  /** The eight bytes around an aligned place before the end. */
  lemma EightIn(mem: seq<nat>, p: nat, end: nat)
    requires p % 8 == 0 && p < end <= |mem| && (end % 8 == 0 || |mem| % 8 == 0)
    ensures p + 8 <= |mem|
  {
    Aligned(p, if end % 8 == 0 then end else |mem|);
  }

  /** What the word at an unaligned start tells. */
  lemma FirstPart(t: Test, mem: seq<nat>, ptr: nat, limit: nat, u: nat)
    requires t.Valid() && Bytes(mem) && Stops(t, mem, ptr, limit) && u == ptr % 8 > 0
    ensures ptr - u + 8 <= |mem|
    ensures var m := Match(t, Shift(Word(mem[ptr - u..ptr - u + 8]), 8 * u));
      && (m == 0 ==> FirstHit(t, mem[ptr..]) == 8 - u + FirstHit(t, mem[ptr + (8 - u)..]))
      && (m != 0 ==> CountZeroBytes(m) == FirstHit(t, mem[ptr..]) < 8 - u)
  {
    hide Word, Match, CountZeroBytes, FirstHit, Shift, Stops, Test.Valid;
    StopsInWord(t, mem, ptr, limit);
    var s := mem[ptr - u..ptr - u + 8];
    LateStart(t, s, u);
    SliceFront(mem, ptr - u, u);
    FirstHitJoin(t, s[u..], mem[ptr + (8 - u)..]);
  }

  lemma StopsInWord(t: Test, mem: seq<nat>, ptr: nat, limit: nat)
    requires Stops(t, mem, ptr, limit) && ptr % 8 > 0
    ensures ptr - ptr % 8 + 8 <= |mem|
  {
    hide FirstHit;
  }

  /** What the next aligned word tells. */
  lemma NextPart(t: Test, mem: seq<nat>, ptr: nat, limit: nat, n: nat)
    requires t.Valid() && Bytes(mem) && Stops(t, mem, ptr, limit) && n < limit && (ptr + n) % 8 == 0
    requires ptr + n <= |mem| && FirstHit(t, mem[ptr..]) == n + FirstHit(t, mem[ptr + n..])
    ensures ptr + n + 8 <= |mem|
    ensures var m := Match(t, Word(mem[ptr + n..ptr + n + 8]));
      && (m == 0 ==> FirstHit(t, mem[ptr..]) == n + 8 + FirstHit(t, mem[ptr + n + 8..]))
      && (m != 0 ==> n + CountZeroBytes(m) == FirstHit(t, mem[ptr..]) < n + 8)
  {
    NextInWord(t, mem, ptr, limit, n);
    hide Word, Match, CountZeroBytes, FirstHit, Stops, Test.Valid;
    var s, rest := mem[ptr + n..ptr + n + 8], mem[ptr + n + 8..];
    WholeWord(t, s);
    SliceNext(mem, ptr + n);
    FirstHitJoin(t, s, rest);
  }

  lemma NextInWord(t: Test, mem: seq<nat>, ptr: nat, limit: nat, n: nat)
    requires Stops(t, mem, ptr, limit) && n < limit && (ptr + n) % 8 == 0
    requires ptr + n <= |mem| && FirstHit(t, mem[ptr..]) == n + FirstHit(t, mem[ptr + n..])
    ensures ptr + n + 8 <= |mem|
  {
    hide FirstHit;
  }

  ghost predicate OnWord(p: int) {
    p % 8 == 0
  }

  lemma WordAfter(p: int)
    requires OnWord(p)
    ensures OnWord(p + 8) && OnWord(p - 8)
  {
  }

  /** The match of the word at an unaligned start. */
  method MatchFirst(mem: array<nat>, ptr: nat, limit: nat, t: Test, ghost m: seq<nat>) returns (found: nat, n: nat)
    requires t.Valid() && m == mem[..] && Bytes(m) && Stops(t, m, ptr, limit) && ptr <= |m|
    ensures n < 8 && ptr + n <= |m| && OnWord(ptr + n)
    ensures found == 0 ==> FirstHit(t, m[ptr..]) == n + FirstHit(t, m[ptr + n..])
    ensures found != 0 ==> CountZeroBytes(found) == FirstHit(t, m[ptr..]) < n
  {
    hide Word, Match, CountZeroBytes, FirstHit, Shift, Stops, Test.Valid;
    found, n := 0, 0;
    var unaligned := ptr % 8;
    if unaligned != 0 {
      FirstPart(t, m, ptr, limit, unaligned);
      var bytes := LoadEight(mem, ptr - unaligned);
      found := Match(t, Shift(bytes, 8 * unaligned));
      n := 8 - unaligned;
    }
  }

  method MatchNext(mem: array<nat>, ptr: nat, limit: nat, n: nat, t: Test, ghost m: seq<nat>) returns (found: nat)
    requires t.Valid() && m == mem[..] && Bytes(m) && Stops(t, m, ptr, limit) && n < limit && OnWord(ptr + n)
    requires ptr + n <= |m| && FirstHit(t, m[ptr..]) == n + FirstHit(t, m[ptr + n..])
    ensures ptr + n + 8 <= |m|
    ensures found == 0 ==> FirstHit(t, m[ptr..]) == n + 8 + FirstHit(t, m[ptr + n + 8..])
    ensures found != 0 ==> n + CountZeroBytes(found) == FirstHit(t, m[ptr..]) < n + 8
  {
    hide Word, Match, CountZeroBytes, FirstHit, Stops, Test.Valid;
    NextPart(t, m, ptr, limit, n);
    var bytes := LoadEight(mem, ptr + n);
    found := Match(t, bytes);
  }

  /** Word by word a scan comes to its reach and not past it. */
  lemma ReachIs(ptr: nat, limit: nat, n: nat)
    requires OnWord(ptr + n)
    ensures n >= limit ==> n >= Reach(ptr, limit)
    ensures n < limit ==> n + 8 <= Reach(ptr, limit)
    ensures n < 8 ==> n <= Reach(ptr, limit)
    ensures Reach(ptr, limit) >= limit
    ensures OnWord(ptr + limit) ==> Reach(ptr, limit) == limit
  {
  }

  lemma FirstHitAt(t: Test, s: seq<nat>, i: nat)
    requires i < |s| && t.Hits(s[i]) && forall j | 0 <= j < i :: !t.Hits(s[j])
    ensures FirstHit(t, s) == i
  {
    FirstHitIs(t, s);
  }

  /** The forward scan: the index of the first byte the test hits, if it is in a word that is looked at, and
      else the limit.  That is the smaller of the two unless the first hit is past the limit, in the word
      where the limit is. */
  method ScanFor(mem: array<nat>, ptr: nat, limit: nat, t: Test) returns (r: nat)
    requires t.Valid() && Bytes(mem[..]) && Stops(t, mem[..], ptr, limit)
    ensures ptr <= mem.Length
    ensures var first := FirstHit(t, mem[..][ptr..]); r == if first < Reach(ptr, limit) then first else limit
    ensures var first := FirstHit(t, mem[..][ptr..]); r == Min(limit, first) <==> !(limit < first < Reach(ptr, limit))
  {
    hide Word, Match, CountZeroBytes, FirstHit, Shift, Stops, Test.Valid, OnWord, Reach;
    ghost var m := mem[..];
    StopsIn(t, m, ptr, limit);
    var found, n := MatchFirst(mem, ptr, limit, t, m);
    ReachIs(ptr, limit, n);
    if found != 0 { return CountZeroBytes(found); }
    while n < limit
      invariant ptr + n <= |m| && OnWord(ptr + n) && FirstHit(t, m[ptr..]) == n + FirstHit(t, m[ptr + n..])
    {
      found := MatchNext(mem, ptr, limit, n, t, m);
      WordAfter(ptr + n);
      ReachIs(ptr, limit, n);
      if found != 0 { return n + CountZeroBytes(found); }
      n := n + 8;
    }
    ReachIs(ptr, limit, n);
    r := limit;
  }

  lemma StopsIn(t: Test, mem: seq<nat>, ptr: nat, limit: nat)
    requires Stops(t, mem, ptr, limit)
    ensures ptr <= |mem|
  {
  }

  /** An end that is aligned to a word is never passed. */
  lemma AlignedEnd(t: Test, mem: seq<nat>, ptr: nat, limit: nat)
    requires (ptr + limit) % 8 == 0 && ptr + limit <= |mem|
    ensures Stops(t, mem, ptr, limit) && !(limit < FirstHit(t, mem[ptr..]) < Reach(ptr, limit))
  {
    hide FirstHit;
    ReachIs(ptr, limit, limit);
  }

  /** One that is not can be: of eight bytes the first four are looked at, and the hit at the sixth is given. */
  method ScanPastLimit() returns (r: nat)
    ensures r == 5
  {
    var mem := new nat[8](i => if i == 5 then 1 else 0);
    assert Reach(0, 4) == 8;
    assert And(0, 1) == 0 && And(1, 1) == 1;
    assert mem[..][0..] == mem[..];
    FirstHitAt(AnyOf(1), mem[..], 5);
    hide And, FirstHit;
    r := ScanFor(mem, 0, 4, AnyOf(1));
  }

  /** What the word around an unaligned end tells. */
  lemma LastPart(t: Test, mem: seq<nat>, base: nat, ptr: nat, u: nat)
    requires t.Valid() && Bytes(mem) && base % 8 == 0 && base <= ptr <= |mem| && |mem| % 8 == 0 && u == ptr % 8 > 0
    ensures base <= ptr - u && ptr - u + 8 <= |mem|
    ensures var m := Match(t, Up(Word(mem[ptr - u..ptr - u + 8]), 8 * (8 - u)) % WORD);
      && (m == 0 ==> LastHit(t, mem[base..ptr]) == LastHit(t, mem[base..ptr - u]))
      && (m != 0 ==> ptr - 1 - Clz(m) / 8 == base + LastHit(t, mem[base..ptr]) && LastHit(t, mem[base..ptr]) >= 0)
  {
    BackAligned(base, ptr);
    EightIn(mem, ptr - u, |mem|);
    var s := mem[ptr - u..ptr - u + 8];
    assert Bytes(s);
    hide Word, Match, LastHit, Up, Clz, Test.Valid, Bytes;
    EarlyEnd(t, s, u);
    SliceBack(mem, base, ptr - u, u);
    LastHitJoin(t, mem[base..ptr - u], s[..u]);
  }

  lemma BackAligned(base: nat, ptr: nat)
    requires base % 8 == 0 && base <= ptr
    ensures base <= ptr - ptr % 8 && (ptr - ptr % 8) % 8 == 0
  {
  }

  /** What the aligned word before a place tells. */
  lemma BackPart(t: Test, mem: seq<nat>, base: nat, p: nat)
    requires t.Valid() && Bytes(mem) && base % 8 == 0 && p % 8 == 0 && base < p <= |mem|
    ensures base + 8 <= p
    ensures var m := Match(t, Word(mem[p - 8..p]));
      && (m == 0 ==> LastHit(t, mem[base..p]) == LastHit(t, mem[base..p - 8]))
      && (m != 0 ==> p - 1 - Clz(m) / 8 == base + LastHit(t, mem[base..p]) && LastHit(t, mem[base..p]) >= 0)
  {
    Aligned(base, p);
    hide Word, Match, LastHit, Clz, Test.Valid;
    var s := mem[p - 8..p];
    WholeWord(t, s);
    SliceLast(mem, base, p);
    LastHitJoin(t, mem[base..p - 8], s);
  }

  method MatchLast(mem: array<nat>, ptr: nat, base: nat, t: Test, ghost m: seq<nat>) returns (found: nat, p: nat)
    requires t.Valid() && m == mem[..] && Bytes(m) && base % 8 == 0 && base <= ptr <= |m| && |m| % 8 == 0
    ensures base <= p <= ptr && OnWord(p)
    ensures found == 0 ==> LastHit(t, m[base..ptr]) == LastHit(t, m[base..p])
    ensures found != 0 ==> ptr - 1 - Clz(found) / 8 == base + LastHit(t, m[base..ptr]) && LastHit(t, m[base..ptr]) >= 0
  {
    hide Word, Match, LastHit, Up, Clz, Test.Valid;
    found, p := 0, ptr;
    BackAligned(base, ptr);
    var unaligned := ptr % 8;
    if unaligned != 0 {
      LastPart(t, m, base, ptr, unaligned);
      var bytes := LoadEight(mem, ptr - unaligned);
      found := Match(t, Up(bytes, 8 * (8 - unaligned)) % WORD);
      p := ptr - unaligned;
    }
  }

  method MatchBack(mem: array<nat>, p: nat, base: nat, t: Test, ghost m: seq<nat>) returns (found: nat)
    requires t.Valid() && m == mem[..] && Bytes(m) && base % 8 == 0 && OnWord(p) && base < p <= |m|
    ensures base + 8 <= p
    ensures found == 0 ==> LastHit(t, m[base..p]) == LastHit(t, m[base..p - 8])
    ensures found != 0 ==> p - 1 - Clz(found) / 8 == base + LastHit(t, m[base..p]) && LastHit(t, m[base..p]) >= 0
  {
    hide Word, Match, LastHit, Clz, Test.Valid;
    BackPart(t, m, base, p);
    WordAfter(p);
    var bytes := LoadEight(mem, p - 8);
    found := Match(t, bytes);
  }

  /** The backward scan: the last place from an aligned base up to `ptr` that has any of the bits. */
  method ScanBackwardsFor(mem: array<nat>, ptr: nat, base: nat, mask: nat) returns (r: Option<nat>)
    requires mask < 256 && Bytes(mem[..]) && base % 8 == 0 && base <= ptr <= mem.Length && mem.Length % 8 == 0
    ensures r == if LastHit(AnyOf(mask), mem[..][base..ptr]) < 0 then None
      else Some(base + LastHit(AnyOf(mask), mem[..][base..ptr]))
  {
    hide Word, Match, LastHit, Up, Clz, OnWord;
    var t := AnyOf(mask);
    ghost var m := mem[..];
    var found, p := MatchLast(mem, ptr, base, t, m);
    if found != 0 { return Some(ptr - 1 - Clz(found) / 8); }
    while p > base
      invariant base <= p <= ptr && OnWord(p) && LastHit(t, m[base..ptr]) == LastHit(t, m[base..p])
    {
      found := MatchBack(mem, p, base, t, m);
      WordAfter(p);
      if found != 0 { return Some(p - 1 - Clz(found) / 8); }
      p := p - 8;
    }
    NothingBack(t, m, base);
    r := None;
  }

  lemma NothingBack(t: Test, mem: seq<nat>, base: nat)
    requires base <= |mem|
    ensures LastHit(t, mem[base..base]) == -1
  {
  }
}
