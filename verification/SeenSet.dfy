/** The uniqueness query's set of objects already seen: open addressing with linear probing, zero for an
    empty slot, doubled when three quarters full. */
module SeenSet {
  import opened Ring

  const FIRST_SIZE: nat := 1024

  function Home(v: nat, n: nat): (s: int)
    requires n > 0
    ensures 0 <= s < n
  {
    Slot(v / 16, n)
  }

  /** The first `d` slots from `h` are in use. */
  ghost predicate FullTo(s: seq<nat>, h: int, d: int)
    requires 0 <= h < |s|
  {
    forall e | 0 <= e < d && e < |s| :: s[Add(h, e, |s|)] != 0
  }

  /** Every slot from an entry's home up to the entry is in use. */
  ghost predicate Chained(s: seq<nat>) {
    forall i | 0 <= i < |s| && s[i] != 0 :: FullTo(s, Home(s[i], |s|), Sub(i, Home(s[i], |s|), |s|))
  }

  ghost predicate Once(s: seq<nat>) {
    forall i, j | 0 <= i < |s| && 0 <= j < |s| && s[i] == s[j] != 0 :: i == j
  }

  ghost predicate Holds(s: seq<nat>, held: set<nat>) {
    && 0 !in held
    && (forall i | 0 <= i < |s| && s[i] != 0 :: s[i] in held)
    && (forall v | v in held :: v in s)
  }

  function InUse(s: seq<nat>): seq<bool> {
    seq(|s|, i requires 0 <= i < |s| => s[i] != 0)
  }

  ghost predicate Good(s: seq<nat>, held: set<nat>) {
    Chained(s) && Once(s) && Holds(s, held)
  }

  class Set {
    var tab: array<nat>
    var n: nat
    ghost var held: set<nat>

    ghost predicate Valid()
      reads this, tab
    {
      && Good(tab[..], held)
      && n == Count(InUse(tab[..]))
      && (tab.Length == 0 || (tab.Length >= FIRST_SIZE && PowerOfTwo(tab.Length) && n < tab.Length))
    }

    constructor ()
      ensures Valid() && held == {} && fresh(tab)
    {
      tab := new nat[0];
      n, held := 0, {};
    }

    /** Finds the empty slot where a value goes that is not in the table. */
    static method Probe(t: array<nat>, v: nat, ghost gap: nat) returns (j: nat, ghost d: nat)
      requires gap < t.Length && t[gap] == 0
      ensures d < t.Length && j == Add(Home(v, t.Length), d, t.Length) < t.Length
      ensures FullTo(t[..], Home(v, t.Length), d) && t[j] == 0
    {
      hide FullTo, Home, Sub;
      d := 0;
      j := Home(v, t.Length);
      NoneFull(t[..], j);
      while t[j] != 0
        invariant d < t.Length && 0 <= j == Add(Home(v, t.Length), d, t.Length) < t.Length
        invariant FullTo(t[..], Home(v, t.Length), d)
        decreases t.Length - d
      {
        FullMore(t[..], Home(v, t.Length), d, gap);
        j, d := if j + 1 >= t.Length then j + 1 - t.Length else j + 1, d + 1;
      }
    }

    /** Puts every value of the table into one twice as large. */
    method Grow()
      requires Valid()
      modifies this`tab
      ensures Valid() && fresh(tab) && tab.Length == if old(tab.Length) == 0 then FIRST_SIZE else old(tab.Length) * 2
    {
      hide Good, Home, FullTo, Count, InUse, PowerOfTwo;
      var size := if tab.Length == 0 then FIRST_SIZE else tab.Length * 2;
      GrownSize(tab.Length);
      var bigger := new nat[size](_ => 0);
      ghost var was := tab[..];
      AllEmpty(bigger[..]);
      NoneBefore(was);
      var i := 0;
      while i < tab.Length
        invariant 0 <= i <= tab.Length && was == tab[..]
        invariant Good(bigger[..], Before(was, i)) && Count(InUse(bigger[..])) == Count(InUse(was[..i])) <= i
      {
        CountOne(was, i);
        if tab[i] != 0 {
          NotBefore(was, i, held);
          ghost var gap := Gap(bigger[..]);
          var j;
          ghost var d;
          j, d := Probe(bigger, tab[i], gap);
          Placed(bigger[..], Before(was, i), tab[i], d);
          bigger[j] := tab[i];
        }
        BeforeOne(was, i);
        i := i + 1;
      }
      AllBefore(was, held);
      tab := bigger;
    }

    /** Whether the value is new; afterwards it is in the set. */
    method Insert(v: nat) returns (isNew: bool)
      requires Valid() && v != 0
      modifies this, tab
      ensures Valid() && isNew == (v !in old(held)) && held == old(held) + {v}
      ensures tab == old(tab) || fresh(tab)
    {
      if n * 4 >= tab.Length * 3 {
        Grow();
      }
      isNew := InsertIn(v);
    }

    method InsertIn(v: nat) returns (isNew: bool)
      requires Valid() && v != 0 && n + 1 < tab.Length
      modifies this`n, this`held, tab
      ensures Valid() && isNew == (v !in old(held)) && held == old(held) + {v}
    {
      hide Good, Home, FullTo, Count, InUse, PowerOfTwo, Sub;
      ghost var was := tab[..];
      ghost var gap := Gap(was);
      ghost var d := 0;
      var j := Home(v, tab.Length);
      NoneFull(was, j);
      NoneOther(was, j, v);
      while tab[j] != 0
        invariant d < tab.Length && 0 <= j == Add(Home(v, tab.Length), d, tab.Length) < tab.Length
        invariant was == tab[..] && Good(was, held) && held == old(held) && n == old(n) && tab == old(tab)
        invariant FullTo(was, Home(v, tab.Length), d) && Others(was, Home(v, tab.Length), d, v)
        decreases tab.Length - d
      {
        if tab[j] == v {
          HeldThere(was, held, j);
          return false;
        }
        FullMore(was, Home(v, tab.Length), d, gap);
        OthersMore(was, Home(v, tab.Length), d, v);
        j, d := if j + 1 >= tab.Length then j + 1 - tab.Length else j + 1, d + 1;
      }
      NotThere(was, held, v, d);
      Placed(was, held, v, d);
      tab[j] := v;
      n, held := n + 1, held + {v};
      isNew := true;
    }
  }

  lemma NoneFull(s: seq<nat>, h: int)
    requires 0 <= h < |s|
    ensures FullTo(s, h, 0) && Add(h, 0, |s|) == h
  {
  }

  lemma FullMore(s: seq<nat>, h: nat, d: nat, gap: nat)
    requires h < |s| && d < |s| && FullTo(s, h, d) && s[Add(h, d, |s|)] != 0 && gap < |s| && s[gap] == 0
    ensures d + 1 < |s| && FullTo(s, h, d + 1)
  {
    var e := Sub(gap, h, |s|);
    assert Add(h, e, |s|) == gap;
  }

  /** The first `d` slots from `h` do not hold `v`. */
  ghost predicate Others(s: seq<nat>, h: int, d: int, v: nat)
    requires 0 <= h < |s|
  {
    forall e | 0 <= e < d && e < |s| :: s[Add(h, e, |s|)] != v
  }

  lemma NoneOther(s: seq<nat>, h: int, v: nat)
    requires 0 <= h < |s|
    ensures Others(s, h, 0, v)
  {
  }

  lemma OthersMore(s: seq<nat>, h: nat, d: nat, v: nat)
    requires h < |s| && d < |s| && Others(s, h, d, v) && s[Add(h, d, |s|)] != v
    ensures Others(s, h, d + 1, v)
  {
  }

  lemma HeldThere(s: seq<nat>, held: set<nat>, j: nat)
    requires Good(s, held) && j < |s| && s[j] != 0
    ensures s[j] in held && held + {s[j]} == held
  {
  }

  lemma Gap(s: seq<nat>) returns (gap: nat)
    requires Count(InUse(s)) < |s|
    ensures gap < |s| && s[gap] == 0
  {
    gap := SomeEmpty(InUse(s));
  }

  /** A search that comes to an empty slot has missed nothing. */
  lemma NotThere(s: seq<nat>, held: set<nat>, v: nat, d: nat)
    requires Good(s, held) && v != 0 && d < |s| && Others(s, Home(v, |s|), d, v) && s[Add(Home(v, |s|), d, |s|)] == 0
    ensures v !in held
  {
    forall i | 0 <= i < |s| && s[i] != 0 ensures s[i] != v {
      var h := Home(s[i], |s|);
      assert FullTo(s, h, Sub(i, h, |s|)) && Add(h, Sub(i, h, |s|), |s|) == i;
    }
  }

  /** A new value goes in the first empty slot from its home. */
  lemma Placed(s: seq<nat>, held: set<nat>, v: nat, d: nat)
    requires Good(s, held) && v != 0 && v !in held && d < |s| && FullTo(s, Home(v, |s|), d)
    requires s[Add(Home(v, |s|), d, |s|)] == 0
    ensures var j := Add(Home(v, |s|), d, |s|);
      Good(s[j := v], held + {v}) && Count(InUse(s[j := v])) == Count(InUse(s)) + 1
  {
    var h, j := Home(v, |s|), Add(Home(v, |s|), d, |s|);
    var r := s[j := v];
    forall i | 0 <= i < |r| && r[i] != 0 ensures FullTo(r, Home(r[i], |r|), Sub(i, Home(r[i], |r|), |r|)) {
      if i != j { assert FullTo(s, Home(s[i], |s|), Sub(i, Home(s[i], |s|), |s|)); }
    }
    forall x | x in held + {v} ensures x in r {
      if x == v {
        assert r[j] == v;
      } else {
        var i :| 0 <= i < |s| && s[i] == x;
        assert r[i] == x;
      }
    }
    assert InUse(r) == InUse(s)[j := true];
    CountSet(InUse(s), j, true);
  }

  lemma AllEmpty(s: seq<nat>)
    requires forall i | 0 <= i < |s| :: s[i] == 0
    ensures Good(s, {}) && Count(InUse(s)) == 0
  {
    CountNone(InUse(s));
  }

  /** The values in the first `i` slots. */
  ghost function Before(s: seq<nat>, i: nat): set<nat>
    requires i <= |s|
  {
    set v | v in s[..i] && v != 0
  }

  lemma NoneBefore(s: seq<nat>)
    ensures Before(s, 0) == {} && Count(InUse(s[..0])) == 0
  {
  }

  lemma BeforeOne(s: seq<nat>, i: nat)
    requires i < |s|
    ensures Before(s, i + 1) == if s[i] != 0 then Before(s, i) + {s[i]} else Before(s, i)
  {
    assert s[..i + 1] == s[..i] + [s[i]];
  }

  lemma CountOne(s: seq<nat>, i: nat)
    requires i < |s|
    ensures Count(InUse(s[..i + 1])) == Count(InUse(s[..i])) + if s[i] != 0 then 1 else 0
  {
    assert InUse(s[..i + 1])[..i] == InUse(s[..i]);
  }

  lemma NotBefore(s: seq<nat>, i: nat, held: set<nat>)
    requires Good(s, held) && i < |s| && s[i] != 0
    ensures s[i] !in Before(s, i)
  {
  }

  lemma AllBefore(s: seq<nat>, held: set<nat>)
    requires Good(s, held)
    ensures Before(s, |s|) == held && s[..|s|] == s
  {
  }

  lemma GrownSize(n: nat)
    requires n == 0 || (n >= FIRST_SIZE && PowerOfTwo(n))
    ensures var m := if n == 0 then FIRST_SIZE else n * 2; m >= FIRST_SIZE && PowerOfTwo(m)
  {
    if n == 0 {
      assert PowerOfTwo(1) && PowerOfTwo(2) && PowerOfTwo(4) && PowerOfTwo(8) && PowerOfTwo(16) && PowerOfTwo(32);
      assert PowerOfTwo(64) && PowerOfTwo(128) && PowerOfTwo(256) && PowerOfTwo(512) && PowerOfTwo(1024);
    } else {
      Doubled(n);
    }
  }
}
