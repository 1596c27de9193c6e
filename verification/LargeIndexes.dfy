/** The two indexes of the large-object space: a hash map from the address of each node, and a splay tree
    of the nodes' spans.  A node is known by its number, the pointer to it. */
module LargeIndexes {
  import AddressMap
  import SplayTree
  import opened AddressHash

  type Span = SplayTree.Span

  /** What the tree holds of a node. */
  datatype Entry = Entry(start: int, end: int, id: int)

  function EntryOf(x: Span): Entry
    reads x.node`value
  {
    Entry(x.start, x.end, x.node.value)
  }

  ghost function Entries(q: seq<Span>): set<Entry>
    reads (set x | x in q :: x.node)`value
  {
    set x | x in q :: EntryOf(x)
  }

  lemma HasEntry(q: seq<Span>, e: Entry) returns (x: Span)
    requires e in Entries(q)
    ensures x in q && EntryOf(x) == e
  {
    x :| x in q && EntryOf(x) == e;
  }

  lemma EntryThere(q: seq<Span>)
    ensures forall x | x in q :: EntryOf(x) in Entries(q)
  {
  }

  /** One more span in the tree: no other starts where it does. */
  lemma MoreSpans(q: seq<Span>, x: Span, q2: seq<Span>)
    requires SplayTree.WithOne(q, x, q2) && SplayTree.Sorted(q2)
    ensures x in q2 && (forall y | y in q :: y in q2 && y.start != x.start)
    ensures forall y | y in q2 :: y in q || y == x
  {
    var i :| 0 <= i <= |q| && q2 == SplayTree.InsertedAt(q, i, x);
    assert q == q[..i] + q[i..];
    MoreBetween(q[..i], x, q[i..]);
  }

  lemma MoreBetween(a: seq<Span>, x: Span, b: seq<Span>)
    requires SplayTree.Sorted(a + [x] + b)
    ensures x in a + [x] + b && (forall y | y in a + b :: y in a + [x] + b && y.start != x.start)
    ensures forall y | y in a + [x] + b :: y in a + b || y == x
  {
    var q := a + [x] + b;
    SplayTree.SortedAround(a, x, b);
    assert q[|a|] == x;
    forall y | y in a ensures y.start < y.end && y in q {
      var k :| 0 <= k < |a| && a[k] == y;
      assert q[k] == y;
    }
    hide SplayTree.Sorted;
  }

  /** A span changed where it stands: no other starts where it does. */
  lemma ChangedSpan(q: seq<Span>, x: Span, y: Span, q2: seq<Span>)
    requires SplayTree.Replaced(q, x, y, q2) && SplayTree.Sorted(q)
    ensures x in q && y in q2 && (forall z | z in q && z != x :: z in q2 && z.start != x.start)
    ensures forall z | z in q2 :: (z in q && z != x) || z == y
  {
    var i :| 0 <= i < |q| && q[i] == x && q2 == q[i := y];
    forall z | z in q && z != x ensures z.start != x.start && z in q2 {
      var k :| 0 <= k < |q| && q[k] == z;
      assert q2[k] == z;
    }
    assert q2[i] == y;
    forall z | z in q2 && z != y ensures z in q && z != x {
      var k :| 0 <= k < |q2| && q2[k] == z;
      assert q[k] == z;
    }
  }

  lemma MoreEntries(q: seq<Span>, x: Span, q2: seq<Span>)
    requires SplayTree.WithOne(q, x, q2) && SplayTree.Sorted(q2)
    ensures Entries(q2) == Entries(q) + {EntryOf(x)} && EntryOf(x) !in Entries(q)
  {
    MoreSpans(q, x, q2);
    hide SplayTree.WithOne, SplayTree.Sorted;
  }

  lemma ChangedEntry(q: seq<Span>, x: Span, y: Span, q2: seq<Span>)
    requires SplayTree.Replaced(q, x, y, q2) && SplayTree.Sorted(q)
    ensures Entries(q2) == Entries(q) - {EntryOf(x)} + {EntryOf(y)}
  {
    ChangedSpan(q, x, y, q2);
    hide SplayTree.Replaced, SplayTree.Sorted;
    forall z | z in q && z != x ensures EntryOf(z) != EntryOf(x) {}
    forall e | e in Entries(q) - {EntryOf(x)} + {EntryOf(y)} ensures e in Entries(q2) {
      if e != EntryOf(y) {
        var z :| z in q && EntryOf(z) == e;
        assert z in q2;
      } else {
        assert y in q2;
      }
    }
  }

  lemma SortedNow(tree: SplayTree.Tree)
    requires tree.Valid()
    ensures SplayTree.Sorted(tree.Spans())
    ensures forall x | x in tree.Spans() :: x.node in tree.repr && x.node.end == x.end
  {
    SplayTree.LinkedIs(tree.shape);
    forall x | x in tree.Spans() ensures x.node in tree.repr {
      SplayTree.InNodes(tree.shape, x.node);
    }
  }

  lemma NoHolder(q: seq<Span>, start: int, end: int)
    requires start < end && forall x | x in q :: x.end <= start || end <= x.start
    ensures !exists x :: x in q && SplayTree.Holds(x, start)
  {
  }

  class Indexes {
    const objects: AddressMap.Map
    const tree: SplayTree.Tree
    var refs: map<int, SplayTree.Node>
    ghost var addrs: map<nat, int>
    ghost var spans: set<Entry>
    ghost var Repr: set<object>

    /** The nodes of the tree are the ones their numbers point to. */
    ghost predicate RefsOk()
      reads `refs, tree, tree.repr
    {
      forall x | x in tree.Spans() :: x.node in tree.repr && x.node.value in refs && refs[x.node.value] == x.node
    }

    ghost predicate TreeOk()
      reads `refs, `spans, tree, tree.repr
    {
      tree.Valid() && RefsOk() && spans == Entries(tree.Spans())
    }

    ghost predicate Valid()
      reads this, Repr
    {
      && {this, objects, tree} <= Repr && objects.table in Repr && {objects.table.data, objects.table.bits} <= Repr && tree.repr <= Repr
      && objects.Valid() && objects.addrs == addrs && TreeOk()
    }

    constructor ()
      ensures Valid() && spans == {} && addrs == map[] && fresh(Repr)
    {
      hide AddressMap.Map.Valid;
      objects := new AddressMap.Map();
      tree := new SplayTree.Tree();
      refs, addrs, spans := map[], map[], {};
      new;
      Repr := {this, objects, tree, objects.table, objects.table.data, objects.table.bits};
    }

    /** A node for a span that no other meets. */
    method Add(start: nat, end: nat, id: int)
      requires Valid() && start < end && start < WORD64
      requires forall e | e in spans :: (e.end <= start || end <= e.start) && e.id != id
      modifies Repr
      ensures Valid() && fresh(Repr - old(Repr))
      ensures addrs == old(addrs)[start := id] && spans == old(spans) + {Entry(start, end, id)}
    {
      hide TreeOk, AddressMap.Map.Valid;
      AddSpan(start, end, id);
      objects.Insert(start, id);
      addrs := addrs[start := id];
      Repr := Repr + tree.repr + {objects.table.data, objects.table.bits};
    }

    method AddSpan(start: nat, end: nat, id: int)
      requires TreeOk() && start < end
      requires forall e | e in spans :: (e.end <= start || end <= e.start) && e.id != id
      modifies this`refs, this`spans, tree, tree.repr
      ensures TreeOk() && fresh(tree.repr - old(tree.repr))
      ensures spans == old(spans) + {Entry(start, end, id)}
    {
      hide Entries, SplayTree.Tree.Valid, SplayTree.Sorted, SplayTree.WithOne, SplayTree.Tree.Spans;
      ghost var was := tree.Spans();
      EntryThere(was);
      assert forall x | x in was :: EntryOf(x) in spans;
      var node := InsertSpan(start, end, id);
      SortedNow(tree);
      MoreSpans(was, SplayTree.Span(node, end), tree.Spans());
      MoreEntries(was, SplayTree.Span(node, end), tree.Spans());
      refs := refs[id := node];
      forall z | z in tree.Spans() ensures z.node in tree.repr && z.node.value in refs && refs[z.node.value] == z.node {
        assert z in was || z.node == node;
      }
      spans := Entries(tree.Spans());
    }

    method InsertSpan(start: int, end: int, id: int) returns (node: SplayTree.Node)
      requires tree.Valid() && start < end && forall x | x in tree.Spans() :: x.end <= start || end <= x.start
      modifies tree, tree.repr
      ensures tree.Valid() && SplayTree.WithOne(old(tree.Spans()), SplayTree.Span(node, end), tree.Spans())
      ensures fresh(node) && node.start == start && node.value == id && tree.repr == old(tree.repr) + {node}
      ensures forall n | n in old(tree.repr) :: n.value == old(n.value)
    {
      hide SplayTree.Tree.Valid, SplayTree.Sorted, SplayTree.WithOne, SplayTree.Tree.Spans;
      NoHolder(tree.Spans(), start, end);
      node := tree.Insert(start, end, id);
    }

    /** The node's span is cut short where it stands. */
    method Shorten(ghost e: Entry, id: int, end: int)
      requires Valid() && e in spans && e.id == id && e.start < end <= e.end
      modifies Repr
      ensures Valid() && Repr == old(Repr)
      ensures addrs == old(addrs) && spans == old(spans) - {e} + {Entry(e.start, end, id)}
    {
      hide TreeOk, AddressMap.Map.Valid;
      ShortenSpan(e, id, end);
    }

    method ShortenSpan(ghost e: Entry, id: int, end: int)
      requires TreeOk() && e in spans && e.id == id && e.start < end <= e.end
      modifies this`spans, tree`shape, tree.repr
      ensures TreeOk() && tree.repr == old(tree.repr) && spans == old(spans) - {e} + {Entry(e.start, end, id)}
    {
      hide SplayTree.Tree.Valid, SplayTree.Sorted, SplayTree.Replaced, SplayTree.Tree.Spans;
      ghost var was := tree.Spans();
      ghost var x :| x in was && EntryOf(x) == e;
      SortedNow(tree);
      var node := refs[id];
      tree.Shrink(node, end);
      ChangedSpan(was, x, SplayTree.Span(node, end), tree.Spans());
      ChangedEntry(was, x, SplayTree.Span(node, end), tree.Spans());
      forall z | z in tree.Spans() ensures z.node in tree.repr && z.node.value in refs && refs[z.node.value] == z.node {
        assert z in was || z.node == node;
      }
      spans := Entries(tree.Spans());
    }

    /** A node given up, by its address. */
    method Drop(ghost e: Entry, start: nat)
      requires Valid() && e in spans && e.start == start < e.end && start < WORD64
      modifies Repr
      ensures Valid() && fresh(Repr - old(Repr))
      ensures addrs == old(addrs) - {start} && spans == old(spans) - {e}
    {
      hide TreeOk, AddressMap.Map.Valid;
      var ok := objects.Remove(start);
      DropSpan(e, start);
      addrs := addrs - {start};
      Repr := Repr + {objects.table.data, objects.table.bits};
    }

    method DropSpan(ghost e: Entry, start: nat)
      requires TreeOk() && e in spans && e.start == start < e.end
      modifies this`spans, tree, tree.repr
      ensures TreeOk() && tree.repr <= old(tree.repr) && spans == old(spans) - {e}
    {
      hide Entries, SplayTree.Tree.Valid, SplayTree.Sorted, SplayTree.WithOne, SplayTree.Tree.Spans;
      ghost var was := tree.Spans();
      ghost var x := HasEntry(was, e);
      SortedNow(tree);
      var value;
      ghost var removed;
      value, removed := tree.Remove(start);
      assert removed == x;
      MoreSpans(tree.Spans(), x, was);
      MoreEntries(tree.Spans(), x, was);
      SortedNow(tree);
      forall z | z in tree.Spans() ensures z.node in tree.repr && z.node.value in refs && refs[z.node.value] == z.node {
        assert z in was;
      }
      spans := Entries(tree.Spans());
    }

    /** The node at just this address, or 0. */
    method At(addr: nat) returns (id: int)
      requires Valid() && addr < WORD64
      ensures id == if addr in addrs then addrs[addr] else 0
    {
      hide TreeOk, AddressMap.Map.Valid;
      id := objects.Lookup(addr, 0);
    }

    /** The node whose span holds the address, or 0. */
    method Around(addr: nat) returns (id: int)
      requires Valid()
      modifies Repr
      ensures Valid() && Repr == old(Repr) && spans == old(spans) && addrs == old(addrs)
      ensures if exists e :: e in spans && e.start <= addr < e.end
              then exists e :: e in spans && e.start <= addr < e.end && e.id == id else id == 0
    {
      hide TreeOk, AddressMap.Map.Valid;
      id := AroundSpan(addr);
    }

    method AroundSpan(addr: nat) returns (id: int)
      requires TreeOk()
      modifies tree, tree.repr
      ensures TreeOk() && tree.repr == old(tree.repr)
      ensures if exists e :: e in spans && e.start <= addr < e.end
              then exists e :: e in spans && e.start <= addr < e.end && e.id == id else id == 0
    {
      hide SplayTree.Tree.Valid, SplayTree.Tree.Spans;
      var node := tree.Lookup(addr);
      if node == null { return 0; }
      assert EntryOf(SplayTree.Span(node, node.end)) in spans;
      id := node.value;
    }

    /** Every address with its node, each once. */
    method Each() returns (order: seq<(nat, int)>)
      requires Valid()
      ensures AddressMap.Lists(order, addrs)
    {
      hide TreeOk, AddressMap.Map.Valid;
      order := objects.Each();
    }
  }
}
