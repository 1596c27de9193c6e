/** What several modules need of numbers and sets. */
module Basics {
  datatype Option<T> = None | Some(value: T)

  function Min(a: int, b: int): int {
    if a < b then a else b
  }

  const TWO31: int := 0x8000_0000

  /** What 32 bits keep of a sum of two 32-bit numbers. */
  function Int32(x: int): int {
    if x >= TWO31 then x - 2 * TWO31 else if x < -TWO31 then x + 2 * TWO31 else x
  }

  /** C's division, which truncates. */
  function TruncDiv(x: int, c: int): int
    requires c > 0
  {
    if x >= 0 then x / c else -(-x / c)
  }

  /** The range rounded up to whole chunks. */
  function Rounded(n: int, chunk: int): int
    requires chunk > 0
  {
    (n + chunk - 1) / chunk * chunk
  }

  lemma MulBounds(c: int, d: int)
    requires c > 0
    ensures d >= 1 ==> c * d >= c
    ensures d <= 0 ==> c * d <= 0
    ensures d <= -1 ==> c * d <= -c
  {
  }

  lemma QuotientIs(x: int, c: int, q: int)
    requires c > 0 && c * q <= x < c * q + c
    ensures x / c == q
  {
    var d := x / c - q;
    assert x == c * (x / c) + x % c;
    assert c * (x / c) - c * q == c * d;
    MulBounds(c, d);
  }

  lemma RemainderIs(x: int, n: int, q: int, r: int)
    requires n > 0 && 0 <= r < n && x == n * q + r
    ensures x % n == r
  {
    QuotientIs(x, n, q);
  }

  /** The first multiple of the chunk at or past the end, and how the ones before it lie. */
  lemma RoundedIs(n: int, chunk: int, handed: int)
    requires chunk > 0 && handed % chunk == 0
    ensures n <= handed < n + chunk ==> handed == Rounded(n, chunk)
    ensures handed < n ==> handed + chunk <= Rounded(n, chunk)
    ensures (handed + chunk) % chunk == 0
  {
    var k, q := handed / chunk, (n + chunk - 1) / chunk;
    assert handed == chunk * k;
    assert n + chunk - 1 == chunk * q + (n + chunk - 1) % chunk;
    assert Rounded(n, chunk) == chunk * q;
    assert chunk * (q - k) == chunk * q - chunk * k;
    MulBounds(chunk, q - k);
    assert chunk * (q - k - 1) == chunk * (q - k) - chunk;
    MulBounds(chunk, q - k - 1);
    RemainderIs(handed + chunk, chunk, k + 1, 0) by { assert chunk * (k + 1) == chunk * k + chunk; }
  }

  lemma RoundedBelow(len: int, chunk: int)
    requires chunk > 0
    ensures Rounded(len, chunk) <= len + chunk - 1
  {
    var x := len + chunk - 1;
    assert x == chunk * (x / chunk) + x % chunk;
  }

  lemma SubsetSize<T>(a: set<T>, b: set<T>)
    requires a <= b
    ensures |a| <= |b|
  {
    assert b == a + (b - a);
  }

  lemma SubsetSame<T>(a: set<T>, b: set<T>)
    requires a <= b && |a| == |b|
    ensures a == b
  {
    assert b == a + (b - a);
  }

  lemma Pick<T>(s: set<T>) returns (x: T)
    requires s != {}
    ensures x in s
  {
    x :| x in s;
  }
}
