/** The text codec: UTF-8 bytes to 16-bit units and back.  The decoder trusts its input to end where a
    character ends, and checks nothing else. */
module TextCodec {
  import opened AddressHash
  import opened Swar

  ghost predicate Units(u: seq<nat>) {
    forall i | 0 <= i < |u| :: u[i] < 0x10000
  }

  // ----- decoding --------------------------------------------------------------------------

  /** The bytes of a character, by its first. */
  function CharLen(c: nat): nat {
    if c < 0x80 then 1 else if c < 0xe0 then 2 else if c < 0xf0 then 3 else 4
  }

  /** The units the first pass counts for a character. */
  function CharUnits(c: nat): nat {
    if c < 0xf0 then 1 else 2
  }

  /** The last character is whole. */
  ghost predicate Whole(b: seq<nat>) {
    b == [] || (CharLen(b[0]) <= |b| && Whole(b[CharLen(b[0])..]))
  }

  function CodePoint(b: seq<nat>): nat
    requires b != [] && CharLen(b[0]) <= |b|
  {
    var c := b[0];
    if c < 0x80 then c
    else if c < 0xe0 then c % 0x20 * 0x40 + b[1] % 0x40
    else if c < 0xf0 then c % 0x10 * 0x1000 + b[1] % 0x40 * 0x40 + b[2] % 0x40
    else c % 8 * 0x40000 + b[1] % 0x40 * 0x1000 + b[2] % 0x40 * 0x40 + b[3] % 0x40
  }

  /** The units of a code point: two for one past the first plane. */
  function UnitsOf(cp: nat): seq<nat> {
    if cp >= 0x10000 then
      [Or(0xd800, (cp - 0x10000) / 0x400) % 0x10000, Or(0xdc00, (cp - 0x10000) % 0x400) % 0x10000]
    else
      [cp]
  }

  ghost function Decoded(b: seq<nat>): seq<nat>
    requires Whole(b)
  {
    if b == [] then [] else UnitsOf(CodePoint(b)) + Decoded(b[CharLen(b[0])..])
  }

  /** What the first pass counts. */
  ghost function Counted(b: seq<nat>): nat
    requires Whole(b)
  {
    if b == [] then 0 else CharUnits(b[0]) + Counted(b[CharLen(b[0])..])
  }

  /** No character of four bytes could have been written in fewer. */
  ghost predicate NoLongForms(b: seq<nat>)
    requires Whole(b)
  {
    b == [] || ((b[0] >= 0xf0 ==> CodePoint(b) >= 0x10000) && NoLongForms(b[CharLen(b[0])..]))
  }

  /** The first pass never counts too few units, and counts exactly those written unless a character of
      four bytes stands for a code point below 0x10000. */
  lemma {:induction false} CountedEnough(b: seq<nat>)
    requires Whole(b)
    ensures |Decoded(b)| <= Counted(b)
    ensures |Decoded(b)| == Counted(b) <==> NoLongForms(b)
  {
    if b != [] { CountedEnough(b[CharLen(b[0])..]); }
  }

  lemma OneCharacter(b: seq<nat>)
    requires b != [] && CharLen(b[0]) == |b|
    ensures Whole(b) && Counted(b) == CharUnits(b[0]) && Decoded(b) == UnitsOf(CodePoint(b))
    ensures NoLongForms(b) <==> (b[0] >= 0xf0 ==> CodePoint(b) >= 0x10000)
  {
    hide CodePoint, UnitsOf;
    assert b[CharLen(b[0])..] == [];
    assert UnitsOf(CodePoint(b)) + [] == UnitsOf(CodePoint(b));
  }

  /** Four bytes for code point 0: two units are counted and one is written. */
  lemma LongFormCounted()
    ensures var b := [0xf0, 0x80, 0x80, 0x80]; Whole(b) && Counted(b) == 2 && Decoded(b) == [0] && !NoLongForms(b)
  {
    hide Whole, Counted, Decoded, NoLongForms, Or;
    OneCharacter([0xf0, 0x80, 0x80, 0x80]);
  }

  /** Whatever the bytes, tails or not: the code point's digits to the base 64 are the low six bits of the
      bytes after the first, and what is above them is the low bits of the first. */
  lemma PayloadIs(b: seq<nat>)
    requires b != [] && CharLen(b[0]) <= |b|
    ensures var cp := CodePoint(b);
      match CharLen(b[0])
      case 1 => cp == b[0]
      case 2 => cp / 0x40 == b[0] % 0x20 && cp % 0x40 == b[1] % 0x40
      case 3 => cp / 0x1000 == b[0] % 0x10 && cp / 0x40 % 0x40 == b[1] % 0x40 && cp % 0x40 == b[2] % 0x40
      case _ =>
        && cp / 0x40000 == b[0] % 8 && cp / 0x1000 % 0x40 == b[1] % 0x40
        && cp / 0x40 % 0x40 == b[2] % 0x40 && cp % 0x40 == b[3] % 0x40
  {
    var c := b[0];
    if 0x80 <= c < 0xe0 {
      DigitsOf(0, 0, c % 0x20, b[1] % 0x40);
    } else if 0xe0 <= c < 0xf0 {
      DigitsOf(0, c % 0x10, b[1] % 0x40, b[2] % 0x40);
    } else if 0xf0 <= c {
      DigitsOf(c % 8, b[1] % 0x40, b[2] % 0x40, b[3] % 0x40);
    }
  }

  lemma DigitsOf(w: nat, x: nat, y: nat, z: nat)
    requires x < 0x40 && y < 0x40 && z < 0x40
    ensures var cp := w * 0x40000 + x * 0x1000 + y * 0x40 + z;
      && cp / 0x40000 == w && cp / 0x1000 == w * 0x40 + x && cp / 0x1000 % 0x40 == x
      && cp / 0x40 == w * 0x1000 + x * 0x40 + y && cp / 0x40 % 0x40 == y && cp % 0x40 == z
  {
    var b := w * 0x40 + x;
    var a := b * 0x40 + y;
    var cp := a * 0x40 + z;
    Digit(w, x);
    Digit(b, y);
    Digit(a, z);
    assert cp / 0x1000 == cp / 0x40 / 0x40 && cp / 0x40000 == cp / 0x1000 / 0x40;
  }

  lemma Digit(q: nat, r: nat)
    requires r < 0x40
    ensures (q * 0x40 + r) / 0x40 == q && (q * 0x40 + r) % 0x40 == r
  {
  }

  // ----- encoding --------------------------------------------------------------------------

  predicate High(u: int) {
    0xd800 <= u < 0xdc00
  }

  predicate Low(u: int) {
    0xdc00 <= u < 0xe000
  }

  predicate Pair(u: seq<nat>) {
    |u| >= 2 && High(u[0]) && Low(u[1])
  }

  /** The code point at the front of some units. */
  function Point(u: seq<nat>): nat
    requires u != []
  {
    if Pair(u) then 0x10000 + (u[0] - 0xd800) * 0x400 + (u[1] - 0xdc00) else u[0]
  }

  function PointUnits(u: seq<nat>): nat
    requires u != []
  {
    if Pair(u) then 2 else 1
  }

  function BytesOf(cp: nat): seq<nat> {
    if cp < 0x80 then [cp]
    else if cp < 0x800 then [Or(0xc0, cp / 0x40), Or(0x80, cp % 0x40)]
    else if cp < 0x10000 then [Or(0xe0, cp / 0x1000), Or(0x80, cp / 0x40 % 0x40), Or(0x80, cp % 0x40)]
    else [Or(0xf0, cp / 0x40000), Or(0x80, cp / 0x1000 % 0x40), Or(0x80, cp / 0x40 % 0x40), Or(0x80, cp % 0x40)]
  }

  ghost function Encoded(u: seq<nat>): seq<nat> {
    if u == [] then [] else BytesOf(Point(u)) + Encoded(u[PointUnits(u)..])
  }

  // ----- bits ------------------------------------------------------------------------------

  lemma Powers()
    ensures Pow2(3) == 8 && Pow2(4) == 0x10 && Pow2(5) == 0x20 && Pow2(6) == 0x40 && Pow2(10) == 0x400
  {
    assert Pow2(7) == 0x80 && Pow2(8) == 0x100 && Pow2(9) == 0x200;
  }

  lemma Ups()
    ensures Up(6, 5) == 0xc0 && Up(14, 4) == 0xe0 && Up(30, 3) == 0xf0 && Up(2, 6) == 0x80
    ensures Up(54, 10) == 0xd800 && Up(55, 10) == 0xdc00
  {
    assert Up(54, 5) == 1728 && Up(55, 5) == 1760;
    assert Up(54, 9) == 27648 && Up(55, 9) == 28160;
  }

  lemma UnitsOfIs(cp: nat)
    requires cp < 0x110000
    ensures UnitsOf(cp) == if cp >= 0x10000 then [0xd800 + (cp - 0x10000) / 0x400, 0xdc00 + (cp - 0x10000) % 0x400] else [cp]
  {
    if cp >= 0x10000 {
      hide Or, Pow2, Up;
      Powers();
      Ups();
      OrIs(54, 10, (cp - 0x10000) / 0x400);
      OrIs(55, 10, (cp - 0x10000) % 0x400);
    }
  }

  lemma BytesOfIs(cp: nat)
    requires cp < 0x110000
    ensures BytesOf(cp) ==
      if cp < 0x80 then [cp]
      else if cp < 0x800 then [0xc0 + cp / 0x40, 0x80 + cp % 0x40]
      else if cp < 0x10000 then [0xe0 + cp / 0x1000, 0x80 + cp / 0x40 % 0x40, 0x80 + cp % 0x40]
      else [0xf0 + cp / 0x40000, 0x80 + cp / 0x1000 % 0x40, 0x80 + cp / 0x40 % 0x40, 0x80 + cp % 0x40]
  {
    hide Or, Pow2, Up;
    Powers();
    Ups();
    OrIs(2, 6, cp % 0x40);
    OrIs(2, 6, cp / 0x40 % 0x40);
    OrIs(2, 6, cp / 0x1000 % 0x40);
    if cp < 0x80 {
    } else if cp < 0x800 {
      OrIs(6, 5, cp / 0x40);
    } else if cp < 0x10000 {
      OrIs(14, 4, cp / 0x1000);
    } else {
      OrIs(30, 3, cp / 0x40000);
    }
  }

  // ----- there and back --------------------------------------------------------------------

  lemma Digits(cp: nat)
    ensures cp == cp / 0x40 * 0x40 + cp % 0x40
    ensures cp == cp / 0x1000 * 0x1000 + cp / 0x40 % 0x40 * 0x40 + cp % 0x40
    ensures cp == cp / 0x40000 * 0x40000 + cp / 0x1000 % 0x40 * 0x1000 + cp / 0x40 % 0x40 * 0x40 + cp % 0x40
  {
    var a, b := cp / 0x40, cp / 0x1000;
    assert a / 0x40 == b && b / 0x40 == cp / 0x40000;
  }

  lemma TwoBytes(cp: nat, b: seq<nat>)
    requires 0x80 <= cp < 0x800 && |b| >= 2 && b[0] == 0xc0 + cp / 0x40 && b[1] == 0x80 + cp % 0x40
    ensures b[0] < 0xe0 && b[1] < 256 && CodePoint(b) == cp
  {
    Digits(cp);
  }

  lemma ThreeBytes(cp: nat, b: seq<nat>)
    requires 0x800 <= cp < 0x10000 && |b| >= 3
    requires b[0] == 0xe0 + cp / 0x1000 && b[1] == 0x80 + cp / 0x40 % 0x40 && b[2] == 0x80 + cp % 0x40
    ensures 0xe0 <= b[0] < 0xf0 && b[1] < 256 && b[2] < 256 && CodePoint(b) == cp
  {
    Digits(cp);
  }

  lemma FourBytes(cp: nat, b: seq<nat>)
    requires 0x10000 <= cp < 0x110000 && |b| >= 4
    requires b[0] == 0xf0 + cp / 0x40000 && b[1] == 0x80 + cp / 0x1000 % 0x40
    requires b[2] == 0x80 + cp / 0x40 % 0x40 && b[3] == 0x80 + cp % 0x40
    ensures 0xf0 <= b[0] < 256 && b[1] < 256 && b[2] < 256 && b[3] < 256 && CodePoint(b) == cp
  {
    Digits(cp);
    Lead(cp / 0x40000);
    Tail(cp / 0x1000 % 0x40);
    Tail(cp / 0x40 % 0x40);
    Tail(cp % 0x40);
  }

  lemma Lead(x: nat)
    requires x < 8
    ensures (0xf0 + x) % 8 == x
  {
  }

  lemma Tail(x: nat)
    requires x < 0x40
    ensures (0x80 + x) % 0x40 == x
  {
  }

  /** Decoding the bytes of a code point gives it back. */
  lemma PointBack(cp: nat, rest: seq<nat>)
    requires cp < 0x110000
    ensures var b := BytesOf(cp);
      && Bytes(b) && |b| > 0 && CharLen(b[0]) == |b| && CodePoint(b + rest) == cp && CharUnits(b[0]) == |UnitsOf(cp)|
  {
    BytesOfIs(cp);
    hide Or, BytesOf, CodePoint;
    var b := BytesOf(cp);
    if cp < 0x80 {
      OneByte(cp, b + rest);
    } else if cp < 0x800 {
      TwoBytes(cp, b + rest);
    } else if cp < 0x10000 {
      ThreeBytes(cp, b + rest);
    } else {
      FourBytes(cp, b + rest);
    }
    forall i | 0 <= i < |b| ensures b[i] < 256 { assert b[i] == (b + rest)[i]; }
    assert b[0] == (b + rest)[0];
  }

  lemma OneByte(cp: nat, b: seq<nat>)
    requires cp < 0x80 && b != [] && b[0] == cp
    ensures CodePoint(b) == cp
  {
  }

  /** The units of the code point at the front are the units there. */
  lemma FrontUnits(u: seq<nat>)
    requires Units(u) && u != []
    ensures Point(u) < 0x110000 && UnitsOf(Point(u)) == u[..PointUnits(u)]
  {
    UnitsOfIs(Point(u));
    if Pair(u) { PairBack(u[0], u[1]); }
    hide UnitsOf;
  }

  lemma PairBack(h: nat, l: nat)
    requires High(h) && Low(l)
    ensures var cp := 0x10000 + (h - 0xd800) * 0x400 + (l - 0xdc00);
      && 0x10000 <= cp < 0x110000 && 0xd800 + (cp - 0x10000) / 0x400 == h && 0xdc00 + (cp - 0x10000) % 0x400 == l
  {
  }

  /** Decoding the encoder's bytes gives back any units, lone surrogates included. */
  lemma {:induction false} DecodeEncode(u: seq<nat>)
    requires Units(u)
    ensures Bytes(Encoded(u)) && Whole(Encoded(u)) && Decoded(Encoded(u)) == u && Counted(Encoded(u)) == |u|
  {
    if u != [] {
      var n := PointUnits(u);
      var front, rest := BytesOf(Point(u)), Encoded(u[n..]);
      FrontUnits(u);
      PointBack(Point(u), rest);
      DecodeEncode(u[n..]);
      hide BytesOf, CodePoint, UnitsOf, Point, CharLen, CharUnits;
      var all := front + rest;
      assert all[0] == front[0] && all[|front|..] == rest;
      assert u == u[..n] + u[n..];
    }
  }

  predicate IsTail(c: nat) {
    0x80 <= c < 0xc0
  }

  /** A character by the syntax of section 4 of RFC 3629: the shortest form, no surrogate, none past 0x10ffff. */
  predicate ProperChar(b: seq<nat>) {
    b != [] && CharLen(b[0]) <= |b| &&
    var c := b[0];
    if c < 0x80 then true
    else if c < 0xc2 then false
    else if c < 0xe0 then IsTail(b[1])
    else if c < 0xf0 then
      IsTail(b[1]) && IsTail(b[2]) && (c == 0xe0 ==> b[1] >= 0xa0) && (c == 0xed ==> b[1] < 0xa0)
    else
      c <= 0xf4 && IsTail(b[1]) && IsTail(b[2]) && IsTail(b[3]) && (c == 0xf0 ==> b[1] >= 0x90) && (c == 0xf4 ==> b[1] < 0x90)
  }

  ghost predicate Proper(b: seq<nat>)
    decreases |b|
  {
    b == [] || (ProperChar(b) && Proper(b[CharLen(b[0])..]))
  }

  lemma {:induction false} ProperIsWhole(b: seq<nat>)
    requires Proper(b)
    ensures Whole(b)
  {
    if b != [] { ProperIsWhole(b[CharLen(b[0])..]); }
  }

  lemma ProperTwo(b: seq<nat>)
    requires ProperChar(b) && 0x80 <= b[0] < 0xe0
    ensures var cp := CodePoint(b); 0x80 <= cp < 0x800 && b[0] == 0xc0 + cp / 0x40 && b[1] == 0x80 + cp % 0x40
  {
    var x, y := b[0] - 0xc0, b[1] - 0x80;
    assert b[0] % 0x20 == x && b[1] % 0x40 == y;
  }

  lemma ProperThree(b: seq<nat>)
    requires ProperChar(b) && 0xe0 <= b[0] < 0xf0
    ensures var cp := CodePoint(b);
      && 0x800 <= cp < 0x10000 && !(0xd800 <= cp < 0xe000)
      && b[0] == 0xe0 + cp / 0x1000 && b[1] == 0x80 + cp / 0x40 % 0x40 && b[2] == 0x80 + cp % 0x40
  {
    var x, y, z := b[0] - 0xe0, b[1] - 0x80, b[2] - 0x80;
    assert b[0] % 0x10 == x;
    Tail(y);
    Tail(z);
    ThreeDigits(x, y, z);
  }

  lemma ThreeDigits(x: nat, y: nat, z: nat)
    requires y < 0x40 && z < 0x40
    ensures var cp := x * 0x1000 + y * 0x40 + z; cp / 0x1000 == x && cp / 0x40 % 0x40 == y && cp % 0x40 == z
  {
    var cp := x * 0x1000 + y * 0x40 + z;
    assert cp / 0x40 == x * 0x40 + y;
  }

  lemma ProperFour(b: seq<nat>)
    requires ProperChar(b) && b[0] >= 0xf0
    ensures var cp := CodePoint(b);
      && 0x10000 <= cp < 0x110000 && b[0] == 0xf0 + cp / 0x40000
      && b[1] == 0x80 + cp / 0x1000 % 0x40 && b[2] == 0x80 + cp / 0x40 % 0x40 && b[3] == 0x80 + cp % 0x40
  {
    var w, x, y, z := b[0] - 0xf0, b[1] - 0x80, b[2] - 0x80, b[3] - 0x80;
    Lead(w);
    Tail(x);
    Tail(y);
    Tail(z);
    ThreeDigits(w * 0x40 + x, y, z);
    assert (w * 0x40 + x) / 0x40 == w && (w * 0x40 + x) % 0x40 == x;
    assert CodePoint(b) / 0x40000 == (w * 0x40 + x) / 0x40;
  }

  /** Encoding the code point of a proper character gives its bytes back. */
  lemma CharBack(b: seq<nat>)
    requires ProperChar(b)
    ensures var cp := CodePoint(b);
      && cp < 0x110000 && !(0xd800 <= cp < 0xe000) && BytesOf(cp) == b[..CharLen(b[0])]
      && (b[0] >= 0xf0 ==> cp >= 0x10000)
  {
    var c := b[0];
    if c < 0x80 {
    } else if c < 0xe0 {
      ProperTwo(b);
    } else if c < 0xf0 {
      ProperThree(b);
    } else {
      ProperFour(b);
    }
    hide ProperChar;
    BytesOfIs(CodePoint(b));
    hide CodePoint, BytesOf;
  }

  /** The units of a code point that is no surrogate read back as that code point, whatever follows. */
  lemma UnitsBack(cp: nat, rest: seq<nat>)
    requires cp < 0x110000 && !(0xd800 <= cp < 0xe000)
    ensures var u := UnitsOf(cp) + rest; Point(u) == cp && PointUnits(u) == |UnitsOf(cp)| && u[PointUnits(u)..] == rest
  {
    UnitsOfIs(cp);
    if cp >= 0x10000 {
      var h, l := 0xd800 + (cp - 0x10000) / 0x400, 0xdc00 + (cp - 0x10000) % 0x400;
      assert High(h) && Low(l);
      assert (cp - 0x10000) / 0x400 * 0x400 + (cp - 0x10000) % 0x400 == cp - 0x10000;
    }
  }

  /** Encoding the decoder's units gives back any well-formed UTF-8, and the first pass counts exactly
      the units written. */
  lemma {:induction false} EncodeDecode(b: seq<nat>)
    requires Proper(b)
    ensures Whole(b) && Encoded(Decoded(b)) == b && Counted(b) == |Decoded(b)|
  {
    ProperIsWhole(b);
    if b != [] {
      var n := CharLen(b[0]);
      CharBack(b);
      EncodeDecode(b[n..]);
      UnitsBack(CodePoint(b), Decoded(b[n..]));
      CharCount(b);
      hide BytesOf, CodePoint, UnitsOf, Point, PointUnits, CharLen, CharUnits, ProperChar;
      assert b == b[..n] + b[n..];
    }
  }

  lemma CharCount(b: seq<nat>)
    requires b != [] && CharLen(b[0]) <= |b| && (b[0] >= 0xf0 ==> CodePoint(b) >= 0x10000)
    ensures CharUnits(b[0]) == |UnitsOf(CodePoint(b))|
  {
  }

  // ----- the two loops ---------------------------------------------------------------------

  lemma CountStep(b: seq<nat>, i: nat)
    requires i < |b| && Whole(b[i..])
    ensures i + CharLen(b[i]) <= |b| && Whole(b[i + CharLen(b[i])..])
    ensures Counted(b[i..]) == CharUnits(b[i]) + Counted(b[i + CharLen(b[i])..])
    ensures Decoded(b[i..]) == UnitsOf(CodePoint(b[i..])) + Decoded(b[i + CharLen(b[i])..])
    ensures |UnitsOf(CodePoint(b[i..]))| <= CharUnits(b[i])
  {
    hide UnitsOf;
    var c := b[i..];
    assert c[CharLen(c[0])..] == b[i + CharLen(b[i])..];
    UnitsFit(c);
  }

  lemma UnitsFit(b: seq<nat>)
    requires b != [] && CharLen(b[0]) <= |b|
    ensures 1 <= |UnitsOf(CodePoint(b))| <= CharUnits(b[0])
  {
  }

  /** The decoder: a first pass counts the units, a second writes them. */
  method StrUtf8(bytes: array<nat>) returns (s: array<nat>)
    requires Whole(bytes[..])
    ensures fresh(s) && s.Length == Counted(bytes[..]) >= |Decoded(bytes[..])|
    ensures s[..|Decoded(bytes[..])|] == Decoded(bytes[..])
    ensures forall x | |Decoded(bytes[..])| <= x < s.Length :: s[x] == 0
  {
    hide Whole, Counted, Decoded, CharUnits, CharLen, CodePoint, UnitsOf;
    ghost var b := bytes[..];
    var units, i := 0, 0;
    Start(b);
    while i < bytes.Length
      invariant i <= |b| && Whole(b[i..]) && units + Counted(b[i..]) == Counted(b)
    {
      CountStep(b, i);
      LenPositive(bytes[i]);
      units := units + CharUnits(bytes[i]);
      i := i + CharLen(bytes[i]);
    }
    End(b);
    s := new nat[units](_ => 0);
    var k := 0;
    i := 0;
    while i < bytes.Length
      invariant i <= |b| == bytes.Length && Whole(b[i..]) && b == bytes[..] && s.Length == units && fresh(s)
      invariant k + Counted(b[i..]) <= units && s[..k] + Decoded(b[i..]) == Decoded(b)
      invariant forall x | k <= x < units :: s[x] == 0
      decreases |b| - i
    {
      CountStep(b, i);
      LenPositive(bytes[i]);
      LongEnough(b, i);
      var cp := CodePoint(bytes[i..]);
      assert bytes[i..] == b[i..];
      ghost var was := s[..k];
      k := Write(s, k, cp);
      Regroup(s[..k], was, UnitsOf(cp), Decoded(b[i + CharLen(b[i])..]), Decoded(b));
      i := i + CharLen(bytes[i]);
    }
    CountedEnough(b);
    assert s[..k] == Decoded(b);
  }

  lemma Regroup(now: seq<nat>, was: seq<nat>, u: seq<nat>, rest: seq<nat>, all: seq<nat>)
    requires now == was + u && was + (u + rest) == all
    ensures now + rest == all
  {
  }

  lemma LongEnough(b: seq<nat>, i: nat)
    requires i < |b| && i + CharLen(b[i]) <= |b|
    ensures b[i..] != [] && CharLen(b[i..][0]) <= |b[i..]|
  {
  }

  lemma Start(b: seq<nat>)
    ensures b[0..] == b
  {
  }

  lemma End(b: seq<nat>)
    ensures Whole(b[|b|..]) && Counted(b[|b|..]) == 0 && Decoded(b[|b|..]) == []
  {
  }

  lemma LenPositive(c: nat)
    ensures 1 <= CharLen(c) <= 4 && 1 <= CharUnits(c) <= 2
  {
  }

  /** One unit, or the two halves of a pair. */
  method Write(s: array<nat>, k: nat, cp: nat) returns (next: nat)
    requires k + |UnitsOf(cp)| <= s.Length
    modifies s
    ensures next == k + |UnitsOf(cp)| && s[..next] == old(s[..k]) + UnitsOf(cp)
    ensures forall x | next <= x < s.Length :: s[x] == old(s[x])
  {
    hide Or;
    if cp >= 0x10000 {
      s[k] := Or(0xd800, (cp - 0x10000) / 0x400) % 0x10000;
      s[k + 1] := Or(0xdc00, (cp - 0x10000) % 0x400) % 0x10000;
      next := k + 2;
    } else {
      s[k] := cp;
      next := k + 1;
    }
  }

  lemma EncodeStep(u: seq<nat>, i: nat)
    requires i < |u|
    ensures i + PointUnits(u[i..]) <= |u|
    ensures Encoded(u[i..]) == BytesOf(Point(u[i..])) + Encoded(u[i + PointUnits(u[i..])..])
  {
    var n := PointUnits(u[i..]);
    assert u[i..][n..] == u[i + n..];
  }

  /** The printer: what goes to the stream. */
  method Prints(u: array<nat>) returns (out: seq<nat>)
    ensures out == Encoded(u[..])
  {
    hide Encoded, BytesOf, Or;
    ghost var all := u[..];
    out := [];
    var i := 0;
    assert all[0..] == all;
    while i < u.Length
      invariant 0 <= i <= u.Length && out + Encoded(all[i..]) == Encoded(all)
    {
      EncodeStep(all, i);
      ghost var from := i;
      var cp := u[i];
      if cp >= 0xd800 && cp < 0xdc00 && i + 1 < u.Length && u[i + 1] >= 0xdc00 && u[i + 1] < 0xe000 {
        cp := 0x10000 + (cp - 0xd800) * 0x400 + (u[i + 1] - 0xdc00);
        i := i + 1;
      }
      assert cp == Point(all[from..]) && i + 1 == from + PointUnits(all[from..]);
      ghost var before := out;
      out := out + BytesOf(cp);
      i := i + 1;
      Regroup(out, before, BytesOf(cp), Encoded(all[i..]), Encoded(all));
    }
    assert Encoded([]) == [] by { EncodeNothing(); }
    assert all[u.Length..] == [];
  }

  lemma EncodeNothing()
    ensures Encoded([]) == []
  {
  }
}
