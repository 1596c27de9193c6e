/** Slots around a ring: the index arithmetic of the open-addressing tables, whose size is a power of
    two, and the count of the slots in use. */
module Ring {
  import opened Basics

  /** How far slot `i` lies after slot `j` around a ring of `n`. */
  function Sub(i: int, j: int, n: int): int {
    if i >= j then i - j else i - j + n
  }

  /** The slot `d` places after slot `i`. */
  function Add(i: int, d: int, n: int): int {
    if i + d >= n then i + d - n else i + d
  }

  /** The slot of an index; a key's home is the slot of the key. */
  function Slot(i: int, n: int): (s: int)
    requires n > 0
    ensures 0 <= s < n
  {
    i % n
  }

  predicate PowerOfTwo(n: nat) {
    n == 1 || (n > 1 && n % 2 == 0 && PowerOfTwo(n / 2))
  }

  lemma Doubled(n: nat)
    requires n >= 8 && PowerOfTwo(n)
    ensures PowerOfTwo(n * 2)
  {
  }

  lemma Halved(n: nat)
    requires n > 8 && PowerOfTwo(n)
    ensures PowerOfTwo(n / 2) && n / 2 >= 8
  {
    assert PowerOfTwo(n / 2) && PowerOfTwo(n / 2 / 2) && PowerOfTwo(n / 2 / 2 / 2);
  }

  lemma SlotOfSmall(i: nat, n: nat)
    requires i < n
    ensures Slot(i, n) == i
  {
    RemainderIs(i, n, 0, i);
  }

  /** The slot of index `k + d` is `d` places after the home of `k`. */
  lemma SlotAfter(k: nat, d: nat, n: nat)
    requires d < n
    ensures Slot(k + d, n) == Add(Slot(k, n), d, n)
  {
    var q, r := k / n, k % n;
    assert k == n * q + r;
    if r + d >= n {
      assert n * (q + 1) == n * q + n;
      RemainderIs(k + d, n, q + 1, r + d - n);
    } else {
      RemainderIs(k + d, n, q, r + d);
    }
  }

  /** The code's distance: the remainder of a difference that may be negative, of an index not yet reduced. */
  lemma DistanceIs(i: nat, k: nat, n: nat)
    requires n > 0
    ensures Slot(i - k, n) == Sub(Slot(i, n), Slot(k, n), n)
  {
    var q, r, u, s := k / n, k % n, i / n, i % n;
    assert k == n * q + r && i == n * u + s;
    assert n * (u - q) == n * u - n * q;
    if s >= r {
      RemainderIs(i - k, n, u - q, s - r);
    } else {
      assert n * (u - q - 1) == n * (u - q) - n;
      RemainderIs(i - k, n, u - q - 1, s - r + n);
    }
  }

  // ----- counting --------------------------------------------------------------------------

  function Count(bits: seq<bool>): nat {
    if bits == [] then 0 else Count(bits[..|bits| - 1]) + if bits[|bits| - 1] then 1 else 0
  }

  lemma {:induction false} CountSet(bits: seq<bool>, i: nat, b: bool)
    requires i < |bits|
    ensures Count(bits[i := b]) == Count(bits) - (if bits[i] then 1 else 0) + (if b then 1 else 0)
  {
    var last := |bits| - 1;
    if i == last {
      assert bits[i := b][..last] == bits[..last];
    } else {
      CountSet(bits[..last], i, b);
      assert bits[i := b][..last] == bits[..last][i := b];
    }
  }

  lemma {:induction false} SomeEmpty(bits: seq<bool>) returns (i: nat)
    requires Count(bits) < |bits|
    ensures i < |bits| && !bits[i]
  {
    var last := |bits| - 1;
    if bits[last] {
      i := SomeEmpty(bits[..last]);
    } else {
      i := last;
    }
  }

  lemma {:induction false} CountNone(bits: seq<bool>)
    requires forall i | 0 <= i < |bits| :: !bits[i]
    ensures Count(bits) == 0
  {
    if bits != [] { CountNone(bits[..|bits| - 1]); }
  }
}
