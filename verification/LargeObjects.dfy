/** The large-object space: nodes in a hash map by address, in a tree by span, and, once dead, on one of
    the doubly linked lists of the quarantine, by size. */
module LargeObjects {
  import opened Basics
  import opened AddressHash
  import opened LargeIndexes
  import AddressMap
  import Histogram
  import Swar

  const MAX_BITS: nat := 63
  const PRECISION: nat := 2
  const CLASSES: nat := 253
  const NURSERY: nat := 0

  /** What points at a node on a list: the list's head, or the `next` of the node before. */
  datatype Link = NoLink | Head(i: nat) | After(n: nat)

  datatype Node = Node(addr: nat, size: nat, live: bool, mark: nat, trace: nat, age: nat, prev: Link, next: nat)

  function SizeClass(size: nat): (i: nat)
    ensures i < CLASSES
  {
    ClassCount();
    Histogram.Bucket(MAX_BITS, PRECISION, size)
  }

  lemma ClassCount()
    ensures Swar.Up(MAX_BITS, PRECISION) + 1 == CLASSES
  {
    assert Swar.Up(MAX_BITS, 1) == 126;
  }

  lemma ClassMonotone(v: nat, w: nat)
    requires v <= w
    ensures SizeClass(v) <= SizeClass(w)
  {
    Histogram.BucketMonotone(MAX_BITS, PRECISION, v, w);
  }

  /** The node behind a pointer; zero is the null pointer. */
  function At(nodes: map<nat, Node>, n: nat): Node {
    if n in nodes then nodes[n] else Node(0, 0, true, 0, 0, 0, NoLink, 0)
  }

  // ----- the lists -------------------------------------------------------------------------

  function NextOf(l: seq<nat>, j: nat): nat {
    if j + 1 < |l| then l[j + 1] else 0
  }

  function PrevOf(i: nat, l: seq<nat>, j: nat): Link
    requires j <= |l|
  {
    if j == 0 then Head(i) else After(l[j - 1])
  }

  ghost predicate Linked(nodes: map<nat, Node>, i: nat, l: seq<nat>, j: nat)
    requires j < |l|
  {
    var d := At(nodes, l[j]);
    l[j] in nodes && l[j] != 0 && d.next == NextOf(l, j) && d.prev == PrevOf(i, l, j) && !d.live && SizeClass(d.size) == i
  }

  /** The nodes on list `i`, from its head on: dead, and of the list's size class. */
  ghost predicate ListOk(nodes: map<nat, Node>, head: nat, i: nat, l: seq<nat>) {
    && head == (if l == [] then 0 else l[0])
    && (forall j | 0 <= j < |l| :: Linked(nodes, i, l, j))
    && (forall j, k | 0 <= j < k < |l| :: l[j] != l[k])
  }

  ghost predicate ListsOk(nodes: map<nat, Node>, buckets: seq<nat>, lists: seq<seq<nat>>) {
    && |buckets| == |lists| == CLASSES
    && (forall i | 0 <= i < CLASSES :: ListOk(nodes, buckets[i], i, lists[i]))
  }

  ghost predicate OnNone(lists: seq<seq<nat>>, n: nat) {
    forall i | 0 <= i < |lists| :: n !in lists[i]
  }

  /** Every dead node other than `n` is on the list of its size class. */
  ghost predicate OthersListed(nodes: map<nat, Node>, lists: seq<seq<nat>>, n: nat) {
    && |lists| == CLASSES
    && forall m | m in nodes && m != n && !nodes[m].live :: m in lists[SizeClass(nodes[m].size)]
  }

  /** Every dead node is on the list of its size class. */
  ghost predicate DeadListed(nodes: map<nat, Node>, lists: seq<seq<nat>>) {
    && |lists| == CLASSES
    && forall n | n in nodes && !nodes[n].live :: n in lists[SizeClass(nodes[n].size)]
  }

  // ----- the indexes -----------------------------------------------------------------------

  function SpanOf(n: nat, d: Node): Entry {
    Entry(d.addr, d.addr + d.size, n)
  }

  /** The map has each node by its address, and nothing else. */
  ghost predicate MapAgrees(nodes: map<nat, Node>, objects: map<nat, int>) {
    && (forall a | a in objects :: objects[a] > 0 && objects[a] in nodes && nodes[objects[a] as nat].addr == a)
    && (forall n | n in nodes :: nodes[n].addr in objects && objects[nodes[n].addr] == n)
  }

  /** The tree has each node by its span, and nothing else. */
  ghost predicate TreeAgrees(nodes: map<nat, Node>, tree: set<Entry>) {
    && (forall e | e in tree :: e.id > 0 && e.id in nodes && e == SpanOf(e.id, nodes[e.id]))
    && (forall n | n in nodes :: SpanOf(n, nodes[n]) in tree)
  }

  ghost predicate IndexesAgree(nodes: map<nat, Node>, objects: map<nat, int>, tree: set<Entry>) {
    MapAgrees(nodes, objects) && TreeAgrees(nodes, tree)
  }

  /** The spans of the nodes lie in memory and do not overlap. */
  ghost predicate SpansApart(nodes: map<nat, Node>) {
    && (forall n | n in nodes :: nodes[n].size > 0 && nodes[n].addr + nodes[n].size <= WORD64)
    && (forall m, n | m in nodes && n in nodes && m != n ::
      nodes[m].addr + nodes[m].size <= nodes[n].addr || nodes[n].addr + nodes[n].size <= nodes[m].addr)
  }

  /** A span that meets none of the tree's, for a node that is not in it. */
  ghost predicate Room(tree: set<Entry>, start: nat, end: nat, id: int) {
    forall e | e in tree :: (e.end <= start || end <= e.start) && e.id != id
  }

  /** Only the links and the age of nodes differ. */
  ghost predicate SameSpans(was: map<nat, Node>, now: map<nat, Node>) {
    && was.Keys == now.Keys
    && forall n | n in was :: now[n].addr == was[n].addr && now[n].size == was[n].size
  }

  lemma SameSpansKeeps(was: map<nat, Node>, now: map<nat, Node>, objects: map<nat, int>, tree: set<Entry>)
    requires SameSpans(was, now) && IndexesAgree(was, objects, tree) && SpansApart(was)
    ensures IndexesAgree(now, objects, tree) && SpansApart(now)
  {
    SameMap(was, now, objects);
    SameTree(was, now, tree);
    hide MapAgrees, TreeAgrees;
  }

  lemma SameMap(was: map<nat, Node>, now: map<nat, Node>, objects: map<nat, int>)
    requires SameSpans(was, now) && MapAgrees(was, objects)
    ensures MapAgrees(now, objects)
  {
  }

  lemma SameTree(was: map<nat, Node>, now: map<nat, Node>, tree: set<Entry>)
    requires SameSpans(was, now) && TreeAgrees(was, tree)
    ensures TreeAgrees(now, tree)
  {
  }

  // ----- linking and unlinking -------------------------------------------------------------

  /** A dead node put at the front of its list. */
  function Pushed(nodes: map<nat, Node>, buckets: seq<nat>, n: nat): map<nat, Node>
    requires n in nodes && |buckets| == CLASSES
  {
    var i := SizeClass(nodes[n].size);
    var head := buckets[i];
    var dead := nodes[n := nodes[n].(live := false, age := 0, prev := Head(i), next := head)];
    if head in dead && head != 0 then dead[head := dead[head].(prev := After(n))] else dead
  }

  lemma OnListDead(nodes: map<nat, Node>, head: nat, i: nat, l: seq<nat>)
    requires ListOk(nodes, head, i, l)
    ensures forall n | n in l :: n in nodes && n != 0 && !nodes[n].live && SizeClass(nodes[n].size) == i
  {
    hide SizeClass;
    forall n | n in l ensures n in nodes && n != 0 && !nodes[n].live && SizeClass(nodes[n].size) == i {
      var j :| 0 <= j < |l| && l[j] == n;
      assert Linked(nodes, i, l, j);
    }
  }

  lemma PushedList(nodes: map<nat, Node>, buckets: seq<nat>, lists: seq<seq<nat>>, n: nat, i: nat)
    requires ListsOk(nodes, buckets, lists) && n in nodes && n != 0 && OnNone(lists, n) && i < CLASSES
    ensures var c := SizeClass(nodes[n].size);
      ListOk(Pushed(nodes, buckets, n), if i == c then n else buckets[i], i, if i == c then [n] + lists[i] else lists[i])
  {
    hide SizeClass;
    var c := SizeClass(nodes[n].size);
    var now := Pushed(nodes, buckets, n);
    var l := lists[i];
    assert ListOk(nodes, buckets[i], i, l) && ListOk(nodes, buckets[c], c, lists[c]);
    if i == c {
      var r := [n] + l;
      forall j | 0 <= j < |r| ensures Linked(now, i, r, j) {
        if j > 0 { assert Linked(nodes, i, l, j - 1); }
      }
    } else {
      forall j | 0 <= j < |l| ensures Linked(now, i, l, j) {
        assert Linked(nodes, i, l, j);
        if lists[c] != [] { assert Linked(nodes, c, lists[c], 0); }
      }
    }
  }

  lemma PushedKeeps(nodes: map<nat, Node>, buckets: seq<nat>, lists: seq<seq<nat>>, n: nat)
    requires ListsOk(nodes, buckets, lists) && n in nodes && n != 0 && OnNone(lists, n) && OthersListed(nodes, lists, n)
    ensures var c := SizeClass(nodes[n].size);
      && ListsOk(Pushed(nodes, buckets, n), buckets[c := n], lists[c := [n] + lists[c]])
      && DeadListed(Pushed(nodes, buckets, n), lists[c := [n] + lists[c]])
      && SameSpans(nodes, Pushed(nodes, buckets, n))
  {
    var c := SizeClass(nodes[n].size);
    var now, after := Pushed(nodes, buckets, n), lists[c := [n] + lists[c]];
    forall i | 0 <= i < CLASSES ensures ListOk(now, buckets[c := n][i], i, after[i]) {
      PushedList(nodes, buckets, lists, n, i);
    }
    hide SizeClass, ListOk;
    PushedOthers(nodes, buckets, lists, n);
    forall m | m in now && !now[m].live ensures m in after[SizeClass(now[m].size)] {
      if m == n { assert after[c][0] == n; } else { assert m in lists[SizeClass(nodes[m].size)]; }
    }
  }

  lemma PushedOthers(nodes: map<nat, Node>, buckets: seq<nat>, lists: seq<seq<nat>>, n: nat)
    requires n in nodes && ListsOk(nodes, buckets, lists)
    ensures var now := Pushed(nodes, buckets, n);
      && now.Keys == nodes.Keys
      && forall m | m in nodes ::
        && now[m].addr == nodes[m].addr && now[m].size == nodes[m].size
        && (m != n ==> now[m].live == nodes[m].live && now[m].mark == nodes[m].mark && now[m].age == nodes[m].age)
  {
  }

  /** A node taken off its list: what pointed at it points at the next, and the next points back at that. */
  function Unlinked(nodes: map<nat, Node>, n: nat): map<nat, Node>
    requires n in nodes
  {
    var d := nodes[n];
    var a := if d.next != 0 && d.next in nodes then nodes[d.next := nodes[d.next].(prev := d.prev)] else nodes;
    var b := if d.prev.After? && d.prev.n in a then a[d.prev.n := a[d.prev.n].(next := d.next)] else a;
    b[n := b[n].(prev := NoLink, next := 0)]
  }

  function HeadsWithout(nodes: map<nat, Node>, buckets: seq<nat>, n: nat): seq<nat>
    requires n in nodes
  {
    var d := nodes[n];
    if d.prev.Head? && d.prev.i < |buckets| then buckets[d.prev.i := d.next] else buckets
  }

  function Without(l: seq<nat>, j: nat): seq<nat>
    requires j < |l|
  {
    l[..j] + l[j + 1..]
  }

  lemma UnlinkedOwn(nodes: map<nat, Node>, buckets: seq<nat>, lists: seq<seq<nat>>, i: nat, j: nat)
    requires ListsOk(nodes, buckets, lists) && i < CLASSES && j < |lists[i]|
    ensures var n := lists[i][j]; n in nodes && ListOk(Unlinked(nodes, n), HeadsWithout(nodes, buckets, n)[i], i, Without(lists[i], j))
  {
    hide SizeClass;
    var l := lists[i];
    var n := l[j];
    assert ListOk(nodes, buckets[i], i, l) && Linked(nodes, i, l, j);
    var now, r := Unlinked(nodes, n), Without(l, j);
    if j + 1 < |l| { assert Linked(nodes, i, l, j + 1); }
    if j > 0 { assert Linked(nodes, i, l, j - 1); }
    forall k | 0 <= k < |r| ensures Linked(now, i, r, k) {
      assert Linked(nodes, i, l, if k < j then k else k + 1);
    }
  }

  lemma UnlinkedOther(nodes: map<nat, Node>, buckets: seq<nat>, lists: seq<seq<nat>>, i: nat, j: nat, x: nat)
    requires ListsOk(nodes, buckets, lists) && i < CLASSES && j < |lists[i]| && x < CLASSES && x != i
    ensures var n := lists[i][j]; n in nodes && ListOk(Unlinked(nodes, n), HeadsWithout(nodes, buckets, n)[x], x, lists[x])
  {
    hide SizeClass;
    var l, o := lists[i], lists[x];
    var n := l[j];
    assert ListOk(nodes, buckets[i], i, l) && Linked(nodes, i, l, j) && ListOk(nodes, buckets[x], x, o);
    if j + 1 < |l| { assert Linked(nodes, i, l, j + 1); }
    if j > 0 { assert Linked(nodes, i, l, j - 1); }
    var now := Unlinked(nodes, n);
    forall k | 0 <= k < |o| ensures Linked(now, x, o, k) {
      assert Linked(nodes, x, o, k);
    }
  }

  lemma UnlinkedRest(nodes: map<nat, Node>, n: nat)
    requires n in nodes
    ensures var now := Unlinked(nodes, n);
      && now.Keys == nodes.Keys
      && forall m | m in nodes :: now[m] == nodes[m].(prev := now[m].prev, next := now[m].next)
  {
  }

  /** Taking a node off its list leaves the lists well linked, that one shorter by the node. */
  lemma UnlinkedKeeps(nodes: map<nat, Node>, buckets: seq<nat>, lists: seq<seq<nat>>, i: nat, j: nat)
    requires ListsOk(nodes, buckets, lists) && DeadListed(nodes, lists) && i < CLASSES && j < |lists[i]|
    ensures var n := lists[i][j];
      && n in nodes && n != 0 && !nodes[n].live && SizeClass(nodes[n].size) == i
      && ListsOk(Unlinked(nodes, n), HeadsWithout(nodes, buckets, n), lists[i := Without(lists[i], j)])
      && OthersListed(nodes, lists[i := Without(lists[i], j)], n) && OnNone(lists[i := Without(lists[i], j)], n)
  {
    var n := lists[i][j];
    OnListDead(nodes, buckets[i], i, lists[i]);
    var now, after := Unlinked(nodes, n), lists[i := Without(lists[i], j)];
    UnlinkedOwn(nodes, buckets, lists, i, j);
    forall x | 0 <= x < CLASSES ensures ListOk(now, HeadsWithout(nodes, buckets, n)[x], x, after[x]) {
      if x != i { UnlinkedOther(nodes, buckets, lists, i, j, x); }
    }
    hide SizeClass, Linked;
    forall m | m in nodes && m != n && !nodes[m].live ensures m in after[SizeClass(nodes[m].size)] {
      StillThere(lists[i], j, m);
    }
    forall x | 0 <= x < CLASSES ensures n !in after[x] {
      if x == i { Gone(lists[i], j); } else { OnListDead(nodes, buckets[x], x, lists[x]); }
    }
  }

  lemma StillThere(l: seq<nat>, j: nat, m: nat)
    requires j < |l| && m != l[j]
    ensures m in l <==> m in Without(l, j)
  {
    assert l == l[..j] + [l[j]] + l[j + 1..];
  }

  lemma Gone(l: seq<nat>, j: nat)
    requires j < |l| && forall a, b | 0 <= a < b < |l| :: l[a] != l[b]
    ensures l[j] !in Without(l, j)
  {
  }

  // ----- changes to one node ---------------------------------------------------------------

  /** A node on no list may change without the lists noticing. */
  lemma ChangeUnlisted(nodes: map<nat, Node>, buckets: seq<nat>, lists: seq<seq<nat>>, n: nat, d: Node)
    requires ListsOk(nodes, buckets, lists) && OnNone(lists, n)
    ensures ListsOk(nodes[n := d], buckets, lists)
    ensures OthersListed(nodes, lists, n) ==> OthersListed(nodes[n := d], lists, n)
    ensures OthersListed(nodes, lists, n) && d.live ==> DeadListed(nodes[n := d], lists)
  {
    hide SizeClass;
    var now := nodes[n := d];
    forall i | 0 <= i < CLASSES ensures ListOk(now, buckets[i], i, lists[i]) {
      assert ListOk(nodes, buckets[i], i, lists[i]);
      forall j | 0 <= j < |lists[i]| ensures Linked(now, i, lists[i], j) {
        assert Linked(nodes, i, lists[i], j) && lists[i][j] in lists[i];
      }
    }
  }

  lemma LiveOnNone(nodes: map<nat, Node>, buckets: seq<nat>, lists: seq<seq<nat>>, n: nat)
    requires ListsOk(nodes, buckets, lists) && (n !in nodes || nodes[n].live)
    ensures OnNone(lists, n)
  {
    hide SizeClass, ListOk;
    forall i | 0 <= i < CLASSES ensures n !in lists[i] {
      OnListDead(nodes, buckets[i], i, lists[i]);
    }
  }

  lemma AllListed(nodes: map<nat, Node>, lists: seq<seq<nat>>, n: nat)
    requires DeadListed(nodes, lists)
    ensures OthersListed(nodes, lists, n)
  {
  }

  /** A span that meets none of the nodes'. */
  ghost predicate Clear(nodes: map<nat, Node>, start: nat, end: nat) {
    forall n | n in nodes :: nodes[n].addr + nodes[n].size <= start || end <= nodes[n].addr
  }

  lemma ClearRoom(nodes: map<nat, Node>, tree: set<Entry>, start: nat, end: nat, t: nat)
    requires TreeAgrees(nodes, tree) && Clear(nodes, start, end) && t !in nodes
    ensures Room(tree, start, end, t)
  {
  }

  lemma MapGains(nodes: map<nat, Node>, objects: map<nat, int>, t: nat, d: Node)
    requires MapAgrees(nodes, objects) && SpansApart(nodes) && t !in nodes && t != 0 && d.size > 0
    requires Clear(nodes, d.addr, d.addr + d.size)
    ensures MapAgrees(nodes[t := d], objects[d.addr := t])
  {
    assert d.addr !in objects;
  }

  lemma TreeGains(nodes: map<nat, Node>, tree: set<Entry>, t: nat, d: Node)
    requires TreeAgrees(nodes, tree) && t !in nodes && t != 0
    ensures TreeAgrees(nodes[t := d], tree + {SpanOf(t, d)})
  {
  }

  lemma SpansGain(nodes: map<nat, Node>, t: nat, d: Node)
    requires SpansApart(nodes) && t !in nodes && d.size > 0 && d.addr + d.size <= WORD64 && Clear(nodes, d.addr, d.addr + d.size)
    ensures SpansApart(nodes[t := d])
  {
  }

  /** New memory: both indexes gain the node. */
  lemma FreshKeeps(nodes: map<nat, Node>, objects: map<nat, int>, tree: set<Entry>, t: nat, d: Node)
    requires IndexesAgree(nodes, objects, tree) && SpansApart(nodes) && t !in nodes && t != 0
    requires d.size > 0 && d.addr + d.size <= WORD64 && Clear(nodes, d.addr, d.addr + d.size)
    ensures Room(tree, d.addr, d.addr + d.size, t)
    ensures IndexesAgree(nodes[t := d], objects[d.addr := t], tree + {SpanOf(t, d)}) && SpansApart(nodes[t := d])
  {
    hide MapAgrees, TreeAgrees, SpansApart, Clear, Room;
    ClearRoom(nodes, tree, d.addr, d.addr + d.size, t);
    MapGains(nodes, objects, t, d);
    TreeGains(nodes, tree, t, d);
    SpansGain(nodes, t, d);
  }

  lemma TreeShort(nodes: map<nat, Node>, tree: set<Entry>, n: nat, head: Node)
    requires TreeAgrees(nodes, tree) && n in nodes
    ensures TreeAgrees(nodes[n := head], tree - {SpanOf(n, nodes[n])} + {SpanOf(n, head)})
  {
  }

  /** The span of one node cut short is clear of the rest of it. */
  lemma SpansShort(nodes: map<nat, Node>, n: nat, head: Node, tail: Node)
    requires SpansApart(nodes) && n in nodes
    requires head.addr == nodes[n].addr && 0 < head.size < nodes[n].size
    requires tail.addr == head.addr + head.size && tail.size == nodes[n].size - head.size
    ensures SpansApart(nodes[n := head]) && Clear(nodes[n := head], tail.addr, tail.addr + tail.size)
    ensures tail.addr + tail.size <= WORD64
  {
  }

  lemma MapShort(nodes: map<nat, Node>, objects: map<nat, int>, n: nat, head: Node)
    requires MapAgrees(nodes, objects) && n in nodes && head.addr == nodes[n].addr
    ensures MapAgrees(nodes[n := head], objects)
  {
  }

  /** A node's span cut short: the rest of it is clear of every other, and with the tail as a node of its
      own the indexes agree again. */
  lemma TrimKeeps(nodes: map<nat, Node>, objects: map<nat, int>, tree: set<Entry>, n: nat, t: nat, head: Node, tail: Node)
    requires IndexesAgree(nodes, objects, tree) && SpansApart(nodes) && n in nodes && t !in nodes && t != 0
    requires head.addr == nodes[n].addr && 0 < head.size < nodes[n].size
    requires tail.addr == head.addr + head.size && tail.size == nodes[n].size - head.size
    ensures SpanOf(n, nodes[n]) in tree && tail.addr < WORD64
    ensures Room(tree - {SpanOf(n, nodes[n])} + {SpanOf(n, head)}, tail.addr, tail.addr + tail.size, t)
    ensures IndexesAgree(nodes[n := head][t := tail], objects[tail.addr := t],
      tree - {SpanOf(n, nodes[n])} + {SpanOf(n, head)} + {SpanOf(t, tail)})
    ensures SpansApart(nodes[n := head][t := tail])
  {
    hide MapAgrees, SpansApart, Clear, Room;
    assert SpanOf(n, nodes[n]) in tree;
    hide TreeAgrees;
    SpansShort(nodes, n, head, tail);
    MapShort(nodes, objects, n, head);
    TreeShort(nodes, tree, n, head);
    FreshKeeps(nodes[n := head], objects, tree - {SpanOf(n, nodes[n])} + {SpanOf(n, head)}, t, tail);
  }

  lemma MapDrops(nodes: map<nat, Node>, objects: map<nat, int>, n: nat)
    requires MapAgrees(nodes, objects) && n in nodes
    ensures MapAgrees(nodes - {n}, objects - {nodes[n].addr})
  {
  }

  lemma TreeDrops(nodes: map<nat, Node>, tree: set<Entry>, n: nat)
    requires TreeAgrees(nodes, tree) && n in nodes
    ensures SpanOf(n, nodes[n]) in tree && TreeAgrees(nodes - {n}, tree - {SpanOf(n, nodes[n])})
  {
  }

  /** A node given up: both indexes lose it. */
  lemma DropKeeps(nodes: map<nat, Node>, objects: map<nat, int>, tree: set<Entry>, n: nat)
    requires IndexesAgree(nodes, objects, tree) && SpansApart(nodes) && n in nodes
    ensures SpanOf(n, nodes[n]) in tree && nodes[n].addr < WORD64 && nodes[n].size > 0
    ensures IndexesAgree(nodes - {n}, objects - {nodes[n].addr}, tree - {SpanOf(n, nodes[n])}) && SpansApart(nodes - {n})
  {
    hide MapAgrees, TreeAgrees;
    MapDrops(nodes, objects, n);
    TreeDrops(nodes, tree, n);
  }

  predicate Holds(d: Node, key: nat) {
    d.addr <= key < d.addr + d.size
  }

  lemma DropLists(nodes: map<nat, Node>, buckets: seq<nat>, lists: seq<seq<nat>>, n: nat)
    requires ListsOk(nodes, buckets, lists) && OnNone(lists, n) && OthersListed(nodes, lists, n)
    ensures ListsOk(nodes - {n}, buckets, lists) && DeadListed(nodes - {n}, lists)
  {
    hide SizeClass;
    var now := nodes - {n};
    forall i | 0 <= i < CLASSES ensures ListOk(now, buckets[i], i, lists[i]) {
      assert ListOk(nodes, buckets[i], i, lists[i]);
      forall j | 0 <= j < |lists[i]| ensures Linked(now, i, lists[i], j) {
        assert Linked(nodes, i, lists[i], j) && lists[i][j] in lists[i];
      }
    }
  }

  // ----- the space -------------------------------------------------------------------------

  /** Apart from links, other nodes are as they were. */
  ghost predicate OthersSame(was: map<nat, Node>, now: map<nat, Node>, n: nat) {
    forall m | m in was && m != n :: m in now && now[m] == was[m].(prev := now[m].prev, next := now[m].next)
  }

  class Space {
    var nodes: map<nat, Node>
    var buckets: seq<nat>
    const indexes: Indexes
    var marked: nat
    var nextId: nat
    ghost var lists: seq<seq<nat>>

    /** The map and the tree hold just the nodes, whose spans do not overlap. */
    ghost predicate Indexed()
      reads this, indexes, indexes.Repr
    {
      indexes.Valid() && this !in indexes.Repr && IndexesAgree(nodes, indexes.addrs, indexes.spans) && SpansApart(nodes)
    }

    ghost predicate Valid()
      reads this, indexes, indexes.Repr
    {
      && ListsOk(nodes, buckets, lists) && DeadListed(nodes, lists) && Indexed()
      && 0 < nextId && forall n | n in nodes :: n < nextId
    }

    constructor (marked: nat)
      ensures Valid() && nodes == map[]
    {
      indexes := new Indexes();
      nodes, this.marked, nextId := map[], marked, 1;
      buckets := seq(CLASSES, _ => 0);
      lists := seq(CLASSES, _ => []);
    }

    /** Puts a node on the list of its size class. */
    method AddToFreelist(n: nat)
      requires ListsOk(nodes, buckets, lists) && n in nodes && n != 0 && OnNone(lists, n) && OthersListed(nodes, lists, n)
      modifies this`nodes, this`buckets, this`lists
      ensures ListsOk(nodes, buckets, lists) && DeadListed(nodes, lists)
      ensures nodes == Pushed(old(nodes), old(buckets), n)
    {
      hide Indexes.Valid, ListOk, SizeClass, DeadListed;
      PushedKeeps(nodes, buckets, lists, n);
      var i := SizeClass(nodes[n].size);
      var next := buckets[i];
      nodes := nodes[n := nodes[n].(live := false, age := 0, prev := Head(i), next := next)];
      if next != 0 && next in nodes {
        nodes := nodes[next := nodes[next].(prev := After(n))];
      }
      buckets := buckets[i := n];
      lists := lists[i := [n] + lists[i]];
    }

    /** Takes a node off its list. */
    method RemoveFromFreelist(n: nat, ghost i: nat, ghost j: nat)
      requires ListsOk(nodes, buckets, lists) && DeadListed(nodes, lists) && i < CLASSES && j < |lists[i]| && lists[i][j] == n
      modifies this`nodes, this`buckets, this`lists
      ensures ListsOk(nodes, buckets, lists) && OthersListed(nodes, lists, n) && OnNone(lists, n)
      ensures n in old(nodes) && n != 0 && !old(nodes)[n].live && nodes == Unlinked(old(nodes), n)
      ensures lists == old(lists)[i := Without(old(lists)[i], j)]
    {
      hide Indexes.Valid, ListOk, SizeClass, DeadListed, OthersListed, OnNone, Without;
      UnlinkedKeeps(nodes, buckets, lists, i, j);
      UnlinkedSame(nodes, lists[i := Without(lists[i], j)], n);
      var d := nodes[n];
      if d.next != 0 && d.next in nodes { nodes := nodes[d.next := nodes[d.next].(prev := d.prev)]; }
      match d.prev {
        case Head(h) => if h < |buckets| { buckets := buckets[h := d.next]; }
        case After(m) => if m in nodes { nodes := nodes[m := nodes[m].(next := d.next)]; }
        case NoLink =>
      }
      nodes := nodes[n := nodes[n].(prev := NoLink, next := 0)];
      lists := lists[i := Without(lists[i], j)];
    }

    /** The first hole big enough, on the lists from the size class of the request up. */
    method FindHole(size: nat) returns (n: nat, ghost i: nat, ghost j: nat)
      requires Valid()
      ensures n != 0 ==> FirstHole(nodes, lists, n, i, j, size)
      ensures n == 0 ==> NoneFits(nodes, size)
    {
      hide Indexes.Valid, SizeClass, DeadListed, SpansApart, IndexesAgree;
      n, i, j := 0, SizeClass(size), 0;
      var idx := SizeClass(size);
      while idx < CLASSES
        invariant SizeClass(size) <= idx <= CLASSES
        invariant forall x | SizeClass(size) <= x < idx :: AllSmall(nodes, lists[x], size)
      {
        n, i, j := buckets[idx], idx, 0;
        assert ListOk(nodes, buckets[idx], idx, lists[idx]);
        OnListDead(nodes, buckets[idx], idx, lists[idx]);
        while n != 0 && At(nodes, n).size < size
          invariant j <= |lists[idx]| && n == (if j < |lists[idx]| then lists[idx][j] else 0)
          invariant forall k | 0 <= k < j :: At(nodes, lists[idx][k]).size < size
          decreases |lists[idx]| - j
        {
          assert Linked(nodes, idx, lists[idx], j);
          n, j := At(nodes, n).next, j + 1;
        }
        if n != 0 { return; }
        idx := idx + 1;
      }
      NoneFound(nodes, buckets, lists, size);
    }

    /** A hole leaves its list; it stays in both indexes. */
    method Unlist(n: nat, ghost i: nat, ghost j: nat)
      requires Valid() && i < CLASSES == |lists| && j < |lists[i]| && lists[i][j] == n
      modifies this`nodes, this`buckets, this`lists
      ensures ListsOk(nodes, buckets, lists) && OthersListed(nodes, lists, n) && OnNone(lists, n) && Indexed()
      ensures lists == old(lists)[i := Without(old(lists)[i], j)]
      ensures n in old(nodes) && !old(nodes)[n].live && nodes.Keys == old(nodes).Keys
      ensures forall m | m in old(nodes) :: nodes[m] == old(nodes)[m].(prev := nodes[m].prev, next := nodes[m].next)
    {
      hide Indexes.Valid, SizeClass, ListsOk, DeadListed, OthersListed, OnNone, SpansApart, IndexesAgree, Unlinked;
      ghost var was := nodes;
      RemoveFromFreelist(n, i, j);
      UnlinkedRest(was, n);
      SameSpansKeeps(was, nodes, indexes.addrs, indexes.spans);
    }

    /** Makes a hole live, and gives its tail a node of its own. */
    method Reuse(n: nat, ghost i: nat, ghost j: nat, size: nat, trace: nat) returns (addr: nat)
      requires Valid() && i < CLASSES == |lists| && j < |lists[i]| && lists[i][j] == n && At(nodes, n).size >= size > 0
      modifies this, indexes.Repr
      ensures Valid() && marked == old(marked)
      ensures fresh(indexes.Repr - old(indexes.Repr))
      ensures Reused(old(nodes), nodes, n, old(nextId), size, trace) && At(nodes, n).addr == addr
    {
      hide Indexed, SizeClass, ListsOk, DeadListed, OthersListed, OnNone, SpansApart, Reused, TrimmedTo;
      ghost var was, t := nodes, nextId;
      Unlist(n, i, j);
      addr := nodes[n].addr;
      ghost var mid := nodes;
      if nodes[n].size > size {
        Trim(n, size, trace);
        ReusedTrim(was, mid, nodes, n, t, size, trace);
      } else {
        Revive(n, trace);
        ReusedWhole(was, mid, nodes, n, t, size, trace);
      }
    }

    method Revive(n: nat, trace: nat)
      requires ListsOk(nodes, buckets, lists) && OthersListed(nodes, lists, n) && OnNone(lists, n)
      requires Indexed() && n in nodes
      requires 0 < nextId && forall m | m in nodes :: m < nextId
      modifies this`nodes
      ensures Valid() && nodes == old(nodes)[n := old(nodes)[n].(live := true, mark := NURSERY, trace := trace)]
    {
      hide Indexes.Valid, SizeClass, ListOk, DeadListed, OthersListed, OnNone, SpansApart, IndexesAgree;
      var d := nodes[n].(live := true, mark := NURSERY, trace := trace);
      ChangeUnlisted(nodes, buckets, lists, n, d);
      SameSpansKeeps(nodes, nodes[n := d], indexes.addrs, indexes.spans);
      nodes := nodes[n := d];
    }

    /** The node takes the front of its span, and a new node the tail. */
    method Cut(n: nat, head: Node, tail: Node) returns (t: nat)
      requires ListsOk(nodes, buckets, lists) && OthersListed(nodes, lists, n) && OnNone(lists, n)
      requires Indexed() && n in nodes && head.live
      requires 0 < nextId && forall m | m in nodes :: m < nextId
      requires head.addr == nodes[n].addr && 0 < head.size < nodes[n].size
      requires tail.addr == head.addr + head.size && tail.size == nodes[n].size - head.size
      modifies this`nodes, this`nextId, indexes.Repr
      ensures t == old(nextId) && t !in old(nodes) && nodes == old(nodes)[n := head][t := tail]
      ensures ListsOk(nodes, buckets, lists) && OthersListed(nodes, lists, t) && OnNone(lists, t)
      ensures Indexed()
      ensures fresh(indexes.Repr - old(indexes.Repr))
      ensures 0 < t < nextId && forall m | m in nodes :: m < nextId
    {
      hide Indexes.Valid, SizeClass, ListOk, DeadListed, OthersListed, OnNone, SpansApart, IndexesAgree;
      ghost var was := nodes;
      t := nextId;
      TrimKeeps(nodes, indexes.addrs, indexes.spans, n, t, head, tail);
      ChangeUnlisted(nodes, buckets, lists, n, head);
      nodes := nodes[n := head];
      NewUnlisted(was, nodes, buckets, lists, n, t);
      ChangeUnlisted(nodes, buckets, lists, t, tail);
      nodes := nodes[t := tail];
      indexes.Shorten(SpanOf(n, was[n]), n, tail.addr);
      indexes.Add(tail.addr, tail.addr + tail.size, t);
      nextId := nextId + 1;
    }

    /** The node becomes live with the front of its span; the tail is dead, and goes on its list. */
    method Trim(n: nat, size: nat, trace: nat)
      requires ListsOk(nodes, buckets, lists) && OthersListed(nodes, lists, n) && OnNone(lists, n)
      requires Indexed() && n in nodes && 0 < size < nodes[n].size
      requires 0 < nextId && forall m | m in nodes :: m < nextId
      modifies this`nodes, this`buckets, this`lists, this`nextId, indexes.Repr
      ensures Valid() && marked == old(marked) && TrimmedTo(old(nodes), nodes, n, old(nextId), size, trace)
      ensures fresh(indexes.Repr - old(indexes.Repr))
    {
      hide Indexes.Valid, SizeClass, ListOk, DeadListed, OthersListed, OnNone, SpansApart, IndexesAgree, Pushed, TrimmedTo;
      ghost var was := nodes;
      var head := nodes[n].(live := true, mark := NURSERY, trace := trace, size := size);
      var tail := Node(head.addr + size, nodes[n].size - size, false, 0, 0, 0, NoLink, 0);
      var t := Cut(n, head, tail);
      ghost var mid := nodes;
      PushedNew(nodes, buckets, lists, t);
      AddToFreelist(t);
      SameSpansKeeps(mid, nodes, indexes.addrs, indexes.spans);
      TrimmedPush(was, mid, nodes, n, t, size, trace, head, tail);
    }

    /** Memory for an object: a hole of the quarantine if one is big enough, else fresh memory if there is any. */
    method Alloc(size: nat, trace: nat, supply: Option<nat>) returns (ret: Option<nat>)
      requires Valid() && size > 0
      requires supply.Some? ==> supply.value + size <= WORD64 && Clear(nodes, supply.value, supply.value + size)
      modifies this, indexes.Repr
      ensures Valid() && marked == old(marked)
      ensures fresh(indexes.Repr - old(indexes.Repr))
      ensures !NoneFits(old(nodes), size) ==> ret.Some?
      ensures !NoneFits(old(nodes), size) ==>
        exists n, i, j :: FirstHole(old(nodes), old(lists), n, i, j, size)
          && Reused(old(nodes), nodes, n, old(nextId), size, trace) && At(nodes, n).addr == ret.value
      ensures NoneFits(old(nodes), size) ==> ret == supply
      ensures NoneFits(old(nodes), size) && ret.None? ==> nodes == old(nodes)
      ensures NoneFits(old(nodes), size) && ret.Some? ==>
        nodes == old(nodes)[old(nextId) := Node(ret.value, size, true, NURSERY, trace, 0, NoLink, 0)]
    {
      hide Indexes.Valid, SizeClass, ListOk, DeadListed, SpansApart, IndexesAgree, Reused;
      var n;
      ghost var i, j;
      n, i, j := FindHole(size);
      if n != 0 {
        HoleFits(nodes, buckets, lists, i, j, size);
        var addr := Reuse(n, i, j, size, trace);
        return Some(addr);
      }
      if supply.None? { return None; }
      var d := Node(supply.value, size, true, NURSERY, trace, 0, NoLink, 0);
      LiveOnNone(nodes, buckets, lists, nextId);
      AllListed(nodes, lists, nextId);
      ChangeUnlisted(nodes, buckets, lists, nextId, d);
      FreshKeeps(nodes, indexes.addrs, indexes.spans, nextId, d);
      nodes := nodes[nextId := d];
      indexes.Add(d.addr, d.addr + size, nextId);
      nextId := nextId + 1;
      ret := supply;
    }

    /** The node that an address belongs to, or 0: one that starts just there, or, if the address may be
        an interior one, one whose span holds it. */
    method Resolve(addr: nat, interior: bool) returns (n: nat)
      requires Valid() && addr < WORD64
      modifies indexes.Repr
      ensures Valid() && indexes.Repr == old(indexes.Repr)
      ensures n != 0 ==> n in nodes && if interior then Holds(nodes[n], addr) else nodes[n].addr == addr
      ensures n == 0 ==> forall m | m in nodes :: if interior then !Holds(nodes[m], addr) else nodes[m].addr != addr
    {
      hide Indexes.Valid, ListsOk, DeadListed, SpansApart, IndexesAgree;
      AtAddress(nodes, indexes.addrs, indexes.spans, addr);
      NoneAround(nodes, indexes.addrs, indexes.spans, addr);
      var id := indexes.At(addr);
      if id == 0 && interior {
        id := indexes.Around(addr);
      }
      n := id;
    }

    /** Marks the object at an address; tells whether it is one that was not marked yet. */
    method Mark(addr: nat) returns (newly: bool)
      requires Valid() && addr < WORD64
      requires forall n | n in nodes && nodes[n].addr == addr :: nodes[n].live
      modifies this`nodes
      ensures newly <==> Unmarked(old(nodes), addr, marked)
      ensures MarkedAt(old(nodes), nodes, addr, marked)
      ensures Valid()
    {
      hide Indexes.Valid, SizeClass, ListsOk, DeadListed, OthersListed, OnNone, SpansApart, IndexesAgree;
      AtAddress(nodes, indexes.addrs, indexes.spans, addr);
      var n := indexes.At(addr);
      if n == 0 || nodes[n].mark == marked { return false; }
      LiveOnNone(nodes, buckets, lists, n);
      AllListed(nodes, lists, n);
      ChangeUnlisted(nodes, buckets, lists, n, nodes[n].(mark := marked));
      SameSpansKeeps(nodes, nodes[n := nodes[n].(mark := marked)], indexes.addrs, indexes.spans);
      nodes := nodes[n := nodes[n].(mark := marked)];
      newly := true;
    }

    /** A live node without the mark goes to the quarantine. */
    method SweepOne(n: nat)
      requires Valid() && n in nodes
      modifies this`nodes, this`buckets, this`lists
      ensures Valid()
      ensures nodes.Keys == old(nodes).Keys && SweptTo(old(nodes), nodes, marked, {n})
    {
      hide Indexes.Valid, SizeClass, ListOk, DeadListed, OthersListed, OnNone, SpansApart, IndexesAgree, Pushed, SweptTo;
      ghost var was := nodes;
      SweptNone(nodes, marked, n);
      if !nodes[n].live { return; }
      if nodes[n].mark != marked {
        LiveOnNone(nodes, buckets, lists, n);
        AllListed(nodes, lists, n);
        NotNull(nodes, indexes.addrs, indexes.spans, n);
        PushedNew(nodes, buckets, lists, n);
        AddToFreelist(n);
        SameSpansKeeps(was, nodes, indexes.addrs, indexes.spans);
        SweptPush(was, nodes, marked, n);
      }
    }

    /** The end of a collection: every node of the map is swept. */
    method FinishGc()
      requires Valid()
      modifies this`nodes, this`buckets, this`lists
      ensures Valid() && nodes.Keys == old(nodes).Keys && SweptTo(old(nodes), nodes, marked, old(nodes).Keys)
    {
      hide Indexes.Valid, SizeClass, ListsOk, DeadListed, SpansApart, SweptTo, AddressMap.Lists, IndexesAgree;
      ghost var was := nodes;
      ghost var done: set<nat> := {};
      SweptStart(was, marked);
      var order := indexes.Each();
      EachNode(nodes, indexes.addrs, indexes.spans, order);
      var k := 0;
      while k < |order|
        invariant 0 <= k <= |order| && Valid() && nodes.Keys == was.Keys && SweptTo(was, nodes, marked, done)
        invariant done == Swept(order[..k])
      {
        ghost var mid := nodes;
        var n: nat := order[k].1;
        SweepOne(n);
        SweptMore(was, mid, nodes, marked, done, n);
        done := done + {n};
        assert order[..k + 1] == order[..k] + [order[k]];
        k := k + 1;
      }
      assert order[..k] == order;
      assert done == was.Keys;
    }

    /** The pointer behind a link. */
    function Follow(link: Link): nat
      reads this
    {
      match link
      case Head(i) => if i < |buckets| then buckets[i] else 0
      case After(n) => At(nodes, n).next
      case NoLink => 0
    }

    lemma FollowIs(i: nat, j: nat)
      requires ListsOk(nodes, buckets, lists) && i < CLASSES && j <= |lists[i]|
      ensures Follow(PrevOf(i, lists[i], j)) == if j < |lists[i]| then lists[i][j] else 0
      ensures j < |lists[i]| ==> lists[i][j] != 0 && lists[i][j] in nodes && !nodes[lists[i][j]].live
    {
      assert ListOk(nodes, buckets[i], i, lists[i]);
      if j > 0 { assert Linked(nodes, i, lists[i], j - 1); }
      if j < |lists[i]| { assert Linked(nodes, i, lists[i], j); }
    }

    /** A node old enough leaves the quarantine, the map and the tree, and its memory is given back. */
    method Drop(n: nat, ghost i: nat, ghost j: nat)
      requires Valid() && i < CLASSES == |lists| && j < |lists[i]| && lists[i][j] == n
      modifies this`nodes, this`buckets, this`lists, indexes.Repr
      ensures Valid() && lists == old(lists)[i := Without(old(lists)[i], j)]
      ensures fresh(indexes.Repr - old(indexes.Repr))
      ensures n in old(nodes) && nodes.Keys == old(nodes).Keys - {n} && OthersSame(old(nodes), nodes, n)
    {
      hide Indexes.Valid, SizeClass, ListsOk, DeadListed, OthersListed, OnNone, SpansApart, IndexesAgree;
      Unlist(n, i, j);
      DropKeeps(nodes, indexes.addrs, indexes.spans, n);
      DropLists(nodes, buckets, lists, n);
      indexes.Drop(SpanOf(n, nodes[n]), nodes[n].addr);
      nodes := nodes - {n};
    }

    /** One more round in quarantine. */
    method Age(n: nat)
      requires Valid() && n in nodes
      modifies this`nodes
      ensures Valid() && nodes == old(nodes)[n := old(nodes)[n].(age := old(nodes)[n].age + 1)]
    {
      hide Indexes.Valid, SizeClass, ListOk, DeadListed, OthersListed, OnNone, SpansApart, IndexesAgree;
      var d := nodes[n].(age := nodes[n].age + 1);
      AgeKeeps(nodes, buckets, lists, n, d);
      SameSpansKeeps(nodes, nodes[n := d], indexes.addrs, indexes.spans);
      nodes := nodes[n := d];
    }

    /** One node of the quarantine: kept with its age up by one, or dropped. */
    method ProcessOne(n: nat, link: Link, ghost i: nat, ghost j: nat) returns (next: Link, ghost j2: nat)
      requires i < CLASSES == |lists| && j < |lists[i]| && lists[i][j] == n && link == PrevOf(i, lists[i], j)
      requires Valid()
      modifies this`nodes, this`buckets, this`lists, indexes.Repr
      ensures fresh(indexes.Repr - old(indexes.Repr))
      ensures Processed(old(nodes), nodes, {n}) && n in old(nodes) && !old(nodes)[n].live
      ensures Stands(lists, i, j2, next) && Walked(old(lists), lists, i, j, j2)
      ensures Valid()
    {
      hide Indexed, SizeClass, DeadListed, Processed, ListOk;
      ghost var was := nodes;
      FollowIs(i, j);
      next, j2 := link, j;
      Age(n);
      ghost var mid := nodes;
      if nodes[n].age < 2 {
        next, j2 := After(n), j + 1;
        ProcessedKept(was, nodes, n);
      } else {
        Drop(n, i, j);
        ProcessedDropped(was, mid, nodes, n);
      }
    }

    /** Two rounds after it died an object's memory goes back to the system. */
    method ProcessQuarantine()
      requires Valid()
      modifies this`nodes, this`buckets, this`lists, indexes.Repr
      ensures Valid() && Processed(old(nodes), nodes, old(nodes).Keys)
      ensures fresh(indexes.Repr - old(indexes.Repr))
    {
      hide Indexes.Valid, SizeClass, ListsOk, ListOk, DeadListed, SpansApart, IndexesAgree, Processed, Behind, Ahead, OnNone;
      ghost var was := nodes;
      ghost var done: set<nat> := {};
      ProcessedStart(was);
      NothingBehind(lists);
      ListsLength(nodes, buckets, lists);
      var idx: nat := 0;
      while idx < CLASSES
        invariant idx <= CLASSES == |lists| && Valid() && Processed(was, nodes, done)
        invariant fresh(indexes.Repr - old(indexes.Repr))
        invariant Behind(lists, idx, 0, done) && Ahead(lists, idx, 0, done)
      {
        var link := Head(idx);
        ghost var j: nat := 0;
        FollowIs(idx, j);
        var node := Follow(link);
        while node != 0
          invariant |lists| == CLASSES && Valid() && Processed(was, nodes, done) && j <= |lists[idx]|
          invariant fresh(indexes.Repr - old(indexes.Repr))
          invariant Behind(lists, idx, j, done) && Ahead(lists, idx, j, done)
          invariant link == PrevOf(idx, lists[idx], j) && node == if j < |lists[idx]| then lists[idx][j] else 0
          decreases |lists[idx]| - j
        {
          ghost var mid, before, j0 := nodes, lists, j;
          FollowIs(idx, j);
          NotDone(lists, idx, j, done);
          OwnDistinct(nodes, buckets, lists, idx);
          OtherLists(nodes, buckets, lists, idx, j);
          link, j := ProcessOne(node, link, idx, j);
          ProcessedMore(was, mid, nodes, done, node);
          OrderStep(before, lists, idx, j0, j, done);
          done := done + {node};
          FollowIs(idx, j);
          node := Follow(link);
        }
        FollowIs(idx, j);
        NextList(lists, idx, j, done);
        idx := idx + 1;
      }
      AllProcessed(was, nodes, lists, done);
    }
  }

  /** Some node at the address does not have the mark. */
  ghost predicate Unmarked(nodes: map<nat, Node>, addr: nat, marked: nat) {
    exists n :: n in nodes && nodes[n].addr == addr && nodes[n].mark != marked
  }

  /** A node at the address has the mark now; all else is as it was. */
  ghost predicate MarkedAt(was: map<nat, Node>, now: map<nat, Node>, addr: nat, marked: nat) {
    && now.Keys == was.Keys
    && forall n | n in was :: now[n] == was[n].(mark := if was[n].addr == addr then marked else was[n].mark)
  }

  /** `link` leads to place `j` of the list. */
  ghost predicate Stands(lists: seq<seq<nat>>, i: nat, j: nat, link: Link) {
    i < CLASSES == |lists| && j <= |lists[i]| && link == PrevOf(i, lists[i], j)
  }

  /** A walk along list `i` has gone from place `j` to place `j2`: past a node that stays, or up to the
      one behind a node that has gone. */
  ghost predicate Walked(was: seq<seq<nat>>, now: seq<seq<nat>>, i: nat, j: nat, j2: nat) {
    && i < CLASSES == |was| && j < |was[i]|
    && ((j2 == j + 1 && now == was) || (j2 == j && now == was[i := Without(was[i], j)]))
  }

  lemma AtAddress(nodes: map<nat, Node>, objects: map<nat, int>, tree: set<Entry>, addr: nat)
    requires IndexesAgree(nodes, objects, tree) && SpansApart(nodes)
    ensures addr in objects ==>
      objects[addr] > 0 && objects[addr] in nodes && nodes[objects[addr] as nat].addr == addr && Holds(nodes[objects[addr] as nat], addr)
    ensures addr in objects <==> exists n :: n in nodes && nodes[n].addr == addr
    ensures forall n | n in nodes && nodes[n].addr == addr :: objects[addr] == n
  {
  }

  lemma NoneAround(nodes: map<nat, Node>, objects: map<nat, int>, tree: set<Entry>, addr: nat)
    requires IndexesAgree(nodes, objects, tree)
    ensures (forall e | e in tree :: !(e.start <= addr < e.end)) ==> forall n | n in nodes :: !Holds(nodes[n], addr)
    ensures forall e | e in tree && e.start <= addr < e.end :: e.id > 0 && e.id in nodes && Holds(nodes[e.id], addr)
  {
    forall n | n in nodes && Holds(nodes[n], addr) ensures SpanOf(n, nodes[n]) in tree {}
  }

  ghost function Swept(order: seq<(nat, int)>): set<int> {
    set k | 0 <= k < |order| :: order[k].1
  }

  /** A walk over the map comes to every node. */
  lemma EachNode(nodes: map<nat, Node>, objects: map<nat, int>, tree: set<Entry>, order: seq<(nat, int)>)
    requires IndexesAgree(nodes, objects, tree) && AddressMap.Lists(order, objects)
    ensures forall k | 0 <= k < |order| :: order[k].1 >= 0 && order[k].1 in nodes
    ensures forall n :: n in Swept(order) <==> n >= 0 && n in nodes
  {
    forall n | n in nodes ensures n in Swept(order) {
      var k :| 0 <= k < |order| && order[k].0 == nodes[n].addr;
      assert order[k].1 == n;
    }
  }

  lemma UnlinkedSame(nodes: map<nat, Node>, lists: seq<seq<nat>>, n: nat)
    requires n in nodes && OthersListed(nodes, lists, n)
    ensures OthersListed(Unlinked(nodes, n), lists, n)
  {
    UnlinkedRest(nodes, n);
    hide SizeClass, Unlinked;
  }

  ghost predicate AllSmall(nodes: map<nat, Node>, l: seq<nat>, size: nat) {
    forall j | 0 <= j < |l| :: At(nodes, l[j]).size < size
  }

  /** The first node big enough on the first list that has one, from the size class of the request up. */
  ghost predicate FirstHole(nodes: map<nat, Node>, lists: seq<seq<nat>>, n: nat, i: nat, j: nat, size: nat) {
    && |lists| == CLASSES && SizeClass(size) <= i < CLASSES && j < |lists[i]| && lists[i][j] == n && At(nodes, n).size >= size
    && (forall x | SizeClass(size) <= x < i :: AllSmall(nodes, lists[x], size))
    && (forall k | 0 <= k < j :: At(nodes, lists[i][k]).size < size)
  }

  /** No dead node that is big enough is of a smaller class than the one found first. */
  lemma FirstHoleIsLeast(nodes: map<nat, Node>, buckets: seq<nat>, lists: seq<seq<nat>>, n: nat, i: nat, j: nat, size: nat, m: nat)
    requires ListsOk(nodes, buckets, lists) && DeadListed(nodes, lists) && FirstHole(nodes, lists, n, i, j, size)
    requires m in nodes && !nodes[m].live && nodes[m].size >= size
    ensures SizeClass(At(nodes, n).size) == i <= SizeClass(nodes[m].size)
  {
    hide SizeClass;
    assert ListOk(nodes, buckets[i], i, lists[i]) && Linked(nodes, i, lists[i], j);
    var c := SizeClass(nodes[m].size);
    var k :| 0 <= k < |lists[c]| && lists[c][k] == m;
    ClassMonotone(size, nodes[m].size);
    assert c < i ==> AllSmall(nodes, lists[c], size);
  }

  /** No dead node is big enough. */
  ghost predicate NoneFits(nodes: map<nat, Node>, size: nat) {
    forall n | n in nodes && !nodes[n].live :: nodes[n].size < size
  }

  /** Classes keep the order of sizes, so a hole on a list before the request's is too small. */
  lemma NoneFound(nodes: map<nat, Node>, buckets: seq<nat>, lists: seq<seq<nat>>, size: nat)
    requires ListsOk(nodes, buckets, lists) && DeadListed(nodes, lists)
    requires forall x | SizeClass(size) <= x < CLASSES :: AllSmall(nodes, lists[x], size)
    ensures NoneFits(nodes, size)
  {
    hide SizeClass, ListOk;
    forall n | n in nodes && !nodes[n].live ensures nodes[n].size < size {
      var c := SizeClass(nodes[n].size);
      var j :| 0 <= j < |lists[c]| && lists[c][j] == n;
      assert nodes[n].size >= size ==> SizeClass(size) <= c by {
        if nodes[n].size >= size { ClassMonotone(size, nodes[n].size); }
      }
      assert SizeClass(size) <= c ==> AllSmall(nodes, lists[c], size);
    }
  }

  lemma HoleFits(nodes: map<nat, Node>, buckets: seq<nat>, lists: seq<seq<nat>>, i: nat, j: nat, size: nat)
    requires ListsOk(nodes, buckets, lists) && i < CLASSES && j < |lists[i]| && At(nodes, lists[i][j]).size >= size
    ensures !NoneFits(nodes, size)
  {
    hide SizeClass;
    assert ListOk(nodes, buckets[i], i, lists[i]) && Linked(nodes, i, lists[i], j);
  }

  /** Node `n` holds `size` bytes at the front of the hole it was, the rest if any is the dead node `t`,
      and nothing else has changed but links. */
  ghost predicate Reused(was: map<nat, Node>, now: map<nat, Node>, n: nat, t: nat, size: nat, trace: nat) {
    && n in was && n in now && !was[n].live && was[n].size >= size
    && now[n].addr == was[n].addr && now[n].size == size && now[n].live && now[n].mark == NURSERY && now[n].trace == trace
    && OthersSame(was, now, n)
    && now.Keys == was.Keys + (if was[n].size > size then {t} else {})
    && (was[n].size > size ==>
      t !in was && now[t] == Node(was[n].addr + size, was[n].size - size, false, 0, 0, 0, now[t].prev, now[t].next))
  }

  ghost predicate TrimmedTo(was: map<nat, Node>, now: map<nat, Node>, n: nat, t: nat, size: nat, trace: nat) {
    && n in was && was[n].size > size && now.Keys == was.Keys + {t} && t !in was
    && now[n].addr == was[n].addr && now[n].size == size && now[n].live && now[n].mark == NURSERY && now[n].trace == trace
    && OthersSame(was, now, n)
    && now[t] == Node(was[n].addr + size, was[n].size - size, false, 0, 0, 0, now[t].prev, now[t].next)
  }

  lemma ReusedTrim(was: map<nat, Node>, mid: map<nat, Node>, now: map<nat, Node>, n: nat, t: nat, size: nat, trace: nat)
    requires n in was && !was[n].live && mid.Keys == was.Keys && TrimmedTo(mid, now, n, t, size, trace)
    requires forall m | m in was :: mid[m] == was[m].(prev := mid[m].prev, next := mid[m].next)
    ensures Reused(was, now, n, t, size, trace)
  {
    forall m | m in was && m != n ensures m in now && now[m] == was[m].(prev := now[m].prev, next := now[m].next) {
      assert now[m] == mid[m].(prev := now[m].prev, next := now[m].next);
    }
  }

  lemma ReusedWhole(was: map<nat, Node>, mid: map<nat, Node>, now: map<nat, Node>, n: nat, t: nat, size: nat, trace: nat)
    requires n in was && !was[n].live && was[n].size == size && mid.Keys == was.Keys
    requires forall m | m in was :: mid[m] == was[m].(prev := mid[m].prev, next := mid[m].next)
    requires now == mid[n := mid[n].(live := true, mark := NURSERY, trace := trace)]
    ensures Reused(was, now, n, t, size, trace)
  {
  }

  lemma TrimmedPush(was: map<nat, Node>, mid: map<nat, Node>, now: map<nat, Node>, n: nat, t: nat, size: nat, trace: nat,
    head: Node, tail: Node)
    requires n in was && t !in was && was[n].size > size && mid == was[n := head][t := tail]
    requires head == was[n].(live := true, mark := NURSERY, trace := trace, size := size)
    requires tail == Node(head.addr + size, was[n].size - size, false, 0, 0, 0, NoLink, 0)
    requires SameSpans(mid, now) && OthersSame(mid, now, t) && !now[t].live && now[t].age == 0
    requires now[t].mark == 0 && now[t].trace == 0
    ensures TrimmedTo(was, now, n, t, size, trace)
  {
    assert now[n] == mid[n].(prev := now[n].prev, next := now[n].next);
    forall m | m in was && m != n ensures m in now && now[m] == was[m].(prev := now[m].prev, next := now[m].next) {
      assert mid[m] == was[m];
    }
  }

  lemma NewUnlisted(was: map<nat, Node>, nodes: map<nat, Node>, buckets: seq<nat>, lists: seq<seq<nat>>, n: nat, t: nat)
    requires ListsOk(nodes, buckets, lists) && OthersListed(nodes, lists, n) && n in nodes && nodes[n].live && t !in nodes
    ensures OnNone(lists, t) && OthersListed(nodes, lists, t)
  {
    hide SizeClass;
    LiveOnNone(nodes, buckets, lists, t);
  }

  lemma PushedNew(nodes: map<nat, Node>, buckets: seq<nat>, lists: seq<seq<nat>>, t: nat)
    requires ListsOk(nodes, buckets, lists) && t in nodes && OnNone(lists, t)
    ensures var now := Pushed(nodes, buckets, t);
      && !now[t].live && now[t].age == 0 && now[t].mark == nodes[t].mark && now[t].trace == nodes[t].trace
      && SameSpans(nodes, now) && OthersSame(nodes, now, t)
  {
    hide SizeClass;
    var i := SizeClass(nodes[t].size);
    assert ListOk(nodes, buckets[i], i, lists[i]);
    if lists[i] != [] { assert lists[i][0] in lists[i]; }
  }

  // ----- sweeping --------------------------------------------------------------------------

  /** Of some nodes the live ones without the mark are dead, new to the quarantine; all else is as it was. */
  ghost predicate SweptTo(was: map<nat, Node>, now: map<nat, Node>, marked: nat, done: set<nat>) {
    && was.Keys == now.Keys
    && forall n | n in was ::
      var dies := n in done && was[n].live && was[n].mark != marked;
      && now[n].addr == was[n].addr && now[n].size == was[n].size && now[n].mark == was[n].mark && now[n].trace == was[n].trace
      && now[n].live == (was[n].live && !dies) && now[n].age == (if dies then 0 else was[n].age)
  }

  lemma SweptStart(was: map<nat, Node>, marked: nat)
    ensures SweptTo(was, was, marked, {})
  {
  }

  lemma SweptNone(was: map<nat, Node>, marked: nat, n: nat)
    requires n in was
    ensures !was[n].live || was[n].mark == marked ==> SweptTo(was, was, marked, {n})
  {
  }

  lemma SweptPush(was: map<nat, Node>, now: map<nat, Node>, marked: nat, n: nat)
    requires n in was && was[n].live && was[n].mark != marked && SameSpans(was, now) && OthersSame(was, now, n)
    requires !now[n].live && now[n].age == 0 && now[n].mark == was[n].mark && now[n].trace == was[n].trace
    ensures SweptTo(was, now, marked, {n})
  {
    forall m | m in was && m != n
      ensures now[m].mark == was[m].mark && now[m].trace == was[m].trace && now[m].live == was[m].live && now[m].age == was[m].age
    {
      assert now[m] == was[m].(prev := now[m].prev, next := now[m].next);
    }
  }

  lemma SweptMore(was: map<nat, Node>, mid: map<nat, Node>, now: map<nat, Node>, marked: nat, done: set<nat>, n: nat)
    requires SweptTo(was, mid, marked, done) && SweptTo(mid, now, marked, {n})
    ensures SweptTo(was, now, marked, done + {n})
  {
  }

  lemma NotNull(nodes: map<nat, Node>, objects: map<nat, int>, tree: set<Entry>, n: nat)
    requires IndexesAgree(nodes, objects, tree) && n in nodes
    ensures n != 0
  {
  }

  // ----- the quarantine --------------------------------------------------------------------

  /** Of some nodes the dead ones in quarantine for a round already are gone and the other dead ones a
      round older; apart from links all else is as it was. */
  ghost predicate Processed(was: map<nat, Node>, now: map<nat, Node>, done: set<nat>) {
    && (forall n | n in now :: n in was)
    && forall n | n in was ::
      if n in done && !was[n].live then
        if was[n].age + 1 < 2 then n in now && now[n] == was[n].(age := was[n].age + 1, prev := now[n].prev, next := now[n].next)
        else n !in now
      else
        n in now && now[n] == was[n].(prev := now[n].prev, next := now[n].next)
  }

  lemma ProcessedStart(was: map<nat, Node>)
    ensures Processed(was, was, {})
  {
  }

  lemma ProcessedKept(was: map<nat, Node>, now: map<nat, Node>, n: nat)
    requires n in was && !was[n].live && was[n].age + 1 < 2 && now == was[n := was[n].(age := was[n].age + 1)]
    ensures Processed(was, now, {n})
  {
  }

  lemma ProcessedDropped(was: map<nat, Node>, mid: map<nat, Node>, now: map<nat, Node>, n: nat)
    requires n in was && !was[n].live && was[n].age + 1 >= 2 && mid == was[n := was[n].(age := was[n].age + 1)]
    requires now.Keys == mid.Keys - {n} && OthersSame(mid, now, n)
    ensures Processed(was, now, {n})
  {
    forall m | m in was && m != n ensures m in now && now[m] == was[m].(prev := now[m].prev, next := now[m].next) {
      assert mid[m] == was[m];
    }
  }

  lemma ProcessedMore(was: map<nat, Node>, mid: map<nat, Node>, now: map<nat, Node>, done: set<nat>, n: nat)
    requires Processed(was, mid, done) && Processed(mid, now, {n}) && n in mid && n !in done && !mid[n].live
    ensures Processed(was, now, done + {n})
  {
  }

  lemma AgeKeeps(nodes: map<nat, Node>, buckets: seq<nat>, lists: seq<seq<nat>>, n: nat, d: Node)
    requires ListsOk(nodes, buckets, lists) && DeadListed(nodes, lists) && n in nodes && d == nodes[n].(age := d.age)
    ensures ListsOk(nodes[n := d], buckets, lists) && DeadListed(nodes[n := d], lists)
  {
    hide SizeClass;
    var now := nodes[n := d];
    forall i | 0 <= i < CLASSES ensures ListOk(now, buckets[i], i, lists[i]) {
      assert ListOk(nodes, buckets[i], i, lists[i]);
      forall j | 0 <= j < |lists[i]| ensures Linked(now, i, lists[i], j) {
        assert Linked(nodes, i, lists[i], j);
      }
    }
  }

  /** The nodes on the lists before `idx`, and before place `j` on that one, are done. */
  ghost predicate Behind(lists: seq<seq<nat>>, idx: nat, j: nat, done: set<nat>) {
    forall x, y | 0 <= x < |lists| && 0 <= y < |lists[x]| && (x < idx || (x == idx && y < j)) :: lists[x][y] in done
  }

  /** The others are not. */
  ghost predicate Ahead(lists: seq<seq<nat>>, idx: nat, j: nat, done: set<nat>) {
    forall x, y | 0 <= x < |lists| && 0 <= y < |lists[x]| && (x > idx || (x == idx && y >= j)) :: lists[x][y] !in done
  }

  lemma NothingBehind(lists: seq<seq<nat>>)
    ensures Behind(lists, 0, 0, {}) && Ahead(lists, 0, 0, {})
  {
  }

  lemma ListsLength(nodes: map<nat, Node>, buckets: seq<nat>, lists: seq<seq<nat>>)
    requires ListsOk(nodes, buckets, lists)
    ensures |lists| == CLASSES
  {
  }

  lemma NotDone(lists: seq<seq<nat>>, idx: nat, j: nat, done: set<nat>)
    requires Ahead(lists, idx, j, done) && idx < |lists| && j < |lists[idx]|
    ensures lists[idx][j] !in done
  {
  }

  lemma OwnDistinct(nodes: map<nat, Node>, buckets: seq<nat>, lists: seq<seq<nat>>, i: nat)
    requires ListsOk(nodes, buckets, lists) && i < CLASSES
    ensures forall a, b | 0 <= a < b < |lists[i]| :: lists[i][a] != lists[i][b]
  {
    assert ListOk(nodes, buckets[i], i, lists[i]);
  }

  /** A node is on no list but its own. */
  lemma OtherLists(nodes: map<nat, Node>, buckets: seq<nat>, lists: seq<seq<nat>>, i: nat, j: nat)
    requires ListsOk(nodes, buckets, lists) && i < CLASSES && j < |lists[i]|
    ensures forall x, y | 0 <= x < CLASSES && x != i && 0 <= y < |lists[x]| :: lists[x][y] != lists[i][j]
  {
    hide SizeClass;
    assert ListOk(nodes, buckets[i], i, lists[i]) && Linked(nodes, i, lists[i], j);
    forall x, y | 0 <= x < CLASSES && x != i && 0 <= y < |lists[x]| ensures lists[x][y] != lists[i][j] {
      assert ListOk(nodes, buckets[x], x, lists[x]) && Linked(nodes, x, lists[x], y);
    }
  }

  lemma OrderStep(before: seq<seq<nat>>, now: seq<seq<nat>>, idx: nat, j0: nat, j: nat, done: set<nat>)
    requires idx < |before| == CLASSES && j0 < |before[idx]| && Behind(before, idx, j0, done) && Ahead(before, idx, j0, done)
    requires forall a, b | 0 <= a < b < |before[idx]| :: before[idx][a] != before[idx][b]
    requires forall x, y | 0 <= x < CLASSES && x != idx && 0 <= y < |before[x]| :: before[x][y] != before[idx][j0]
    requires Walked(before, now, idx, j0, j)
    ensures |now| == CLASSES && Behind(now, idx, j, done + {before[idx][j0]}) && Ahead(now, idx, j, done + {before[idx][j0]})
  {
    var n := before[idx][j0];
    forall x, y | 0 <= x < |now| && 0 <= y < |now[x]| && (x > idx || (x == idx && y >= j)) ensures now[x][y] !in done + {n} {
      if x == idx && now != before { assert now[x][y] == before[x][y + 1]; }
    }
  }

  lemma NextList(lists: seq<seq<nat>>, idx: nat, j: nat, done: set<nat>)
    requires idx < |lists| && j == |lists[idx]| && Behind(lists, idx, j, done) && Ahead(lists, idx, j, done)
    ensures Behind(lists, idx + 1, 0, done) && Ahead(lists, idx + 1, 0, done)
  {
  }

  lemma AllProcessed(was: map<nat, Node>, now: map<nat, Node>, lists: seq<seq<nat>>, done: set<nat>)
    requires Processed(was, now, done) && DeadListed(now, lists) && Behind(lists, CLASSES, 0, done)
    ensures Processed(was, now, was.Keys)
  {
    hide SizeClass;
    forall n | n in was && !was[n].live ensures n in done {
      if n in now {
        assert now[n].live == was[n].live;
        assert n in lists[SizeClass(now[n].size)];
      }
    }
  }
}
