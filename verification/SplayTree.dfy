/** A top-down splay tree whose nodes hold disjoint spans of keys, with the pointers rewritten in place
    as the code does it.  The shape of a tree is kept beside it as a value; a shape's nodes read from
    left to right are its spans in order. */
module SplayTree {
  class Node {
    const start: int
    var end: int
    var value: int
    var left: Node?
    var right: Node?

    constructor (start: int, end: int, value: int)
      ensures this.start == start && this.end == end && this.value == value && left == null && right == null
    {
      this.start, this.end, this.value := start, end, value;
      left, right := null, null;
    }
  }

  /** A node with the end that its span has now; its start never changes. */
  datatype Span = Span(node: Node, end: int) {
    const start: int := node.start
  }

  /** -1, 0 or 1: the key is below, in or above the span. */
  function Compare(key: int, x: Span): int {
    if key < x.start then -1 else if key < x.end then 0 else 1
  }

  datatype Shape = Leaf | Branch(left: Shape, span: Span, right: Shape)

  function Top(t: Shape): Node? {
    if t.Leaf? then null else t.span.node
  }

  function InOrder(t: Shape): seq<Span> {
    match t
    case Leaf => []
    case Branch(l, x, r) => InOrder(l) + [x] + InOrder(r)
  }

  function Nodes(t: Shape): set<Node> {
    match t
    case Leaf => {}
    case Branch(l, x, r) => Nodes(l) + {x.node} + Nodes(r)
  }

  /** The pointers and the ends of the nodes agree with the shape. */
  ghost predicate Linked(t: Shape)
    reads Nodes(t)`left, Nodes(t)`right, Nodes(t)`end
  {
    match t
    case Leaf => true
    case Branch(l, Span(n, end), r) => n.left == Top(l) && n.right == Top(r) && n.end == end && Linked(l) && Linked(r)
  }

  /** Spans are not empty and come in order, so no two overlap and no node occurs twice. */
  ghost predicate Sorted(q: seq<Span>) {
    && (forall i | 0 <= i < |q| :: q[i].start < q[i].end)
    && (forall i, j | 0 <= i < j < |q| :: q[i].end <= q[j].start)
  }

  /** A chain of nodes set aside during a splay, each with the subtree on its outer side; the link
      from each to the next, and from the last to whatever comes, is on its inner side. */
  datatype Spine = Empty | Hung(above: Spine, sub: Shape, span: Span)

  function Held(s: Spine): set<Node> {
    match s
    case Empty => {}
    case Hung(above, sub, x) => Held(above) + Nodes(sub) + {x.node}
  }

  /** The left tree of the splay, in order. */
  function InLeft(s: Spine): seq<Span> {
    match s
    case Empty => []
    case Hung(above, sub, x) => InLeft(above) + InOrder(sub) + [x]
  }

  /** The right tree of the splay, in order. */
  function InRight(s: Spine): seq<Span> {
    match s
    case Empty => []
    case Hung(above, sub, x) => [x] + InOrder(sub) + InRight(above)
  }

  /** The node that holds the spine's open link; the dummy if nothing was set aside. */
  function Tip(s: Spine, dummy: Node): Node {
    if s.Empty? then dummy else s.span.node
  }

  ghost predicate LinkedLeft(s: Spine, dummy: Node)
    reads dummy`right, Held(s)
  {
    match s
    case Empty => true
    case Hung(above, sub, Span(n, end)) =>
      && LinkedLeft(above, dummy) && Linked(sub) && n.left == Top(sub) && n.end == end
      && Tip(above, dummy) in {dummy} + Held(above) && Tip(above, dummy).right == n
  }

  ghost predicate LinkedRight(s: Spine, dummy: Node)
    reads dummy`left, Held(s)
  {
    match s
    case Empty => true
    case Hung(above, sub, Span(n, end)) =>
      && LinkedRight(above, dummy) && Linked(sub) && n.right == Top(sub) && n.end == end
      && Tip(above, dummy) in {dummy} + Held(above) && Tip(above, dummy).left == n
  }

  function BuildLeft(s: Spine, t: Shape): Shape {
    match s
    case Empty => t
    case Hung(above, sub, x) => BuildLeft(above, Branch(sub, x, t))
  }

  function BuildRight(s: Spine, t: Shape): Shape {
    match s
    case Empty => t
    case Hung(above, sub, x) => BuildRight(above, Branch(t, x, sub))
  }

  /** Some span of `q` is the node's. */
  ghost predicate Has(q: seq<Span>, n: Node) {
    exists x :: x in q && x.node == n
  }

  lemma HasJoin(a: seq<Span>, x: Span, b: seq<Span>, n: Node)
    ensures Has(a + [x] + b, n) <==> Has(a, n) || x.node == n || Has(b, n)
  {
    var q := a + [x] + b;
    assert forall y :: y in q <==> y in a || y == x || y in b;
    if Has(a, n) {
      var y :| y in a && y.node == n;
      assert y in q;
    }
    if Has(b, n) {
      var y :| y in b && y.node == n;
      assert y in q;
    }
    assert x in q;
  }

  lemma HasBoth(a: seq<Span>, b: seq<Span>, n: Node)
    ensures Has(a + b, n) <==> Has(a, n) || Has(b, n)
  {
    assert forall y :: y in a + b <==> y in a || y in b;
    if Has(a, n) {
      var y :| y in a && y.node == n;
      assert y in a + b;
    }
    if Has(b, n) {
      var y :| y in b && y.node == n;
      assert y in a + b;
    }
  }

  lemma {:induction false} InNodes(t: Shape, n: Node)
    ensures Has(InOrder(t), n) <==> n in Nodes(t)
  {
    if t.Branch? {
      HasJoin(InOrder(t.left), t.span, InOrder(t.right), n);
      InNodes(t.left, n);
      InNodes(t.right, n);
    }
  }

  lemma {:induction false} InHeldLeft(s: Spine, n: Node)
    ensures Has(InLeft(s), n) <==> n in Held(s)
  {
    if s.Hung? {
      HasBoth(InLeft(s.above) + InOrder(s.sub), [s.span], n);
      HasBoth(InLeft(s.above), InOrder(s.sub), n);
      HasOnly(s.span, n);
      InHeldLeft(s.above, n);
      InNodes(s.sub, n);
    }
  }

  lemma {:induction false} InHeldRight(s: Spine, n: Node)
    ensures Has(InRight(s), n) <==> n in Held(s)
  {
    if s.Hung? {
      HasBoth([s.span] + InOrder(s.sub), InRight(s.above), n);
      HasBoth([s.span], InOrder(s.sub), n);
      HasOnly(s.span, n);
      InHeldRight(s.above, n);
      InNodes(s.sub, n);
    }
  }

  lemma HasOnly(x: Span, n: Node)
    ensures Has([x], n) <==> x.node == n
  {
    assert x in [x];
  }

  lemma Regroup<T>(a: seq<T>, b: seq<T>, x: T, c: seq<T>)
    ensures a + (b + [x] + c) == a + b + [x] + c
    ensures (a + [x] + b) + c == a + ([x] + b + c)
  {
  }

  lemma {:induction false} BuildLeftInOrder(s: Spine, t: Shape)
    ensures InOrder(BuildLeft(s, t)) == InLeft(s) + InOrder(t)
  {
    if s.Hung? {
      BuildLeftInOrder(s.above, Branch(s.sub, s.span, t));
      Regroup(InLeft(s.above), InOrder(s.sub), s.span, InOrder(t));
    }
  }

  lemma {:induction false} BuildRightInOrder(s: Spine, t: Shape)
    ensures InOrder(BuildRight(s, t)) == InOrder(t) + InRight(s)
  {
    if s.Hung? {
      BuildRightInOrder(s.above, Branch(t, s.span, s.sub));
      Regroup(InOrder(t), InOrder(s.sub), s.span, InRight(s.above));
    }
  }

  lemma {:induction false} BuildNodes(s: Spine, t: Shape)
    ensures Nodes(BuildLeft(s, t)) == Held(s) + Nodes(t) && Nodes(BuildRight(s, t)) == Held(s) + Nodes(t)
    decreases s
  {
    if s.Hung? {
      BuildNodes(s.above, Branch(s.sub, s.span, t));
      BuildNodes(s.above, Branch(t, s.span, s.sub));
    }
  }

  /** Filling the open link with `t` makes the spine a tree hung from the dummy's right. */
  lemma {:induction false} BuildLeftLinked(s: Spine, t: Shape, dummy: Node)
    requires LinkedLeft(s, dummy) && Linked(t) && Tip(s, dummy).right == Top(t)
    ensures Linked(BuildLeft(s, t)) && dummy.right == Top(BuildLeft(s, t))
  {
    if s.Hung? { BuildLeftLinked(s.above, Branch(s.sub, s.span, t), dummy); }
  }

  lemma {:induction false} BuildRightLinked(s: Spine, t: Shape, dummy: Node)
    requires LinkedRight(s, dummy) && Linked(t) && Tip(s, dummy).left == Top(t)
    ensures Linked(BuildRight(s, t)) && dummy.left == Top(BuildRight(s, t))
  {
    if s.Hung? { BuildRightLinked(s.above, Branch(t, s.span, s.sub), dummy); }
  }

  lemma SortedParts(a: seq<Span>, b: seq<Span>)
    requires Sorted(a + b)
    ensures Sorted(a) && Sorted(b)
    ensures forall x, y | x in a && y in b :: x.end <= y.start && x.node != y.node
  {
    SortedHalves(a, b);
    forall x, y | x in a && y in b ensures x.end <= y.start && x.node != y.node {
      SortedAcross(a, b, x, y);
    }
  }

  lemma SortedHalves(a: seq<Span>, b: seq<Span>)
    requires Sorted(a + b)
    ensures Sorted(a) && Sorted(b)
  {
    var q := a + b;
    assert forall i | 0 <= i < |a| :: q[i] == a[i];
    assert forall j | 0 <= j < |b| :: q[|a| + j] == b[j];
  }

  lemma SortedAcross(a: seq<Span>, b: seq<Span>, x: Span, y: Span)
    requires Sorted(a + b) && x in a && y in b
    ensures x.end <= y.start && x.node != y.node
  {
    var q := a + b;
    var i :| 0 <= i < |a| && a[i] == x;
    var j :| 0 <= j < |b| && b[j] == y;
    assert q[i] == x && q[|a| + j] == y;
  }

  lemma SortedAround(l: seq<Span>, n: Span, r: seq<Span>)
    requires Sorted(l + [n] + r)
    ensures Sorted(l) && Sorted(r) && n.start < n.end
    ensures forall x | x in l :: x.end <= n.start && x.node != n.node
    ensures forall y | y in r :: n.end <= y.start && y.node != n.node
    ensures forall x, y | x in l && y in r :: x.node != y.node
  {
    SortedParts(l + [n], r);
    SortedParts(l, [n]);
    assert n in [n] && n in l + [n] && [n][0] == n;
  }

  /** In a sorted tree the root's subtrees lie below and above it and share no node. */
  lemma SortedBranch(t: Shape)
    requires t.Branch? && Sorted(InOrder(t))
    ensures Sorted(InOrder(t.left)) && Sorted(InOrder(t.right)) && t.span.start < t.span.end
    ensures t.span.node !in Nodes(t.left) && t.span.node !in Nodes(t.right) && Nodes(t.left) !! Nodes(t.right)
    ensures forall x | x in InOrder(t.left) :: x.end <= t.span.start
    ensures forall x | x in InOrder(t.right) :: t.span.end <= x.start
  {
    hide Sorted, Nodes;
    var l, r := InOrder(t.left), InOrder(t.right);
    assert InOrder(t) == l + [t.span] + r;
    hide InOrder;
    SortedAround(l, t.span, r);
    forall n | n in Nodes(t.left) ensures n != t.span.node && n !in Nodes(t.right) {
      InNodes(t.left, n);
      InNodes(t.right, n);
    }
    forall n | n in Nodes(t.right) ensures n != t.span.node {
      InNodes(t.right, n);
    }
  }

  // ----- the splay -------------------------------------------------------------------------

  /** The three trees of a splay in progress, all of `q` between them. */
  ghost predicate Parts(q: seq<Span>, l: Spine, t: Shape, r: Spine) {
    Sorted(q) && q == InLeft(l) + InOrder(t) + InRight(r)
  }

  lemma PartsApart(q: seq<Span>, l: Spine, t: Shape, r: Spine)
    requires Parts(q, l, t, r)
    ensures Held(l) !! Nodes(t) && Held(l) !! Held(r) && Nodes(t) !! Held(r)
    ensures Sorted(InOrder(t)) && Sorted(InLeft(l)) && Sorted(InRight(r))
  {
    hide Sorted, InOrder, InLeft, InRight, Nodes, Held;
    var a, b, c := InLeft(l), InOrder(t), InRight(r);
    SortedParts(a + b, c);
    SortedParts(a, b);
    forall n | n in Held(l) ensures n !in Nodes(t) && n !in Held(r) {
      InHeldLeft(l, n);
      InNodes(t, n);
      InHeldRight(r, n);
      HasBoth(a, b, n);
    }
    forall n | n in Nodes(t) ensures n !in Held(r) {
      InNodes(t, n);
      InHeldRight(r, n);
      HasBoth(a, b, n);
    }
  }

  lemma RegroupTurn<T>(a: seq<T>, x: T, b: seq<T>, y: T, c: seq<T>)
    ensures a + [x] + b + [y] + c == a + [x] + (b + [y] + c)
  {
  }

  lemma RotatedInOrder(a: Shape, x: Span, b: Shape, n: Span, c: Shape)
    ensures InOrder(Branch(Branch(a, x, b), n, c)) == InOrder(Branch(a, x, Branch(b, n, c)))
    ensures Nodes(Branch(Branch(a, x, b), n, c)) == Nodes(Branch(a, x, Branch(b, n, c)))
  {
    var u, v := Branch(a, x, b), Branch(b, n, c);
    assert InOrder(u) == InOrder(a) + [x] + InOrder(b) && InOrder(v) == InOrder(b) + [n] + InOrder(c);
    assert Nodes(u) == Nodes(a) + {x.node} + Nodes(b) && Nodes(v) == Nodes(b) + {n.node} + Nodes(c);
    RegroupTurn(InOrder(a), x, InOrder(b), n, InOrder(c));
  }

  lemma LinkedBranch(t: Shape)
    requires t.Branch? && Linked(t)
    ensures t.span.node.left == Top(t.left) && t.span.node.right == Top(t.right) && t.span.node.end == t.span.end
    ensures Linked(t.left) && Linked(t.right)
  {
  }

  lemma MakeLinked(a: Shape, x: Span, b: Shape)
    requires x.node.left == Top(a) && x.node.right == Top(b) && x.node.end == x.end && Linked(a) && Linked(b)
    ensures Linked(Branch(a, x, b))
  {
  }

  lemma RootInOrder(t: Shape)
    requires t.Branch?
    ensures t.span in InOrder(t) && t.span.node in Nodes(t)
  {
    assert InOrder(t)[|InOrder(t.left)|] == t.span;
  }

  /** What the root of a tree in order is to its two sides. */
  lemma RootFacts(t: Shape)
    requires t.Branch? && Linked(t) && Sorted(InOrder(t))
    ensures t.span in InOrder(t) && t.span.node in Nodes(t) && t.span.node.end == t.span.end && t.span.start < t.span.end
    ensures t.span.node !in Nodes(t.left) && t.span.node !in Nodes(t.right) && Nodes(t.left) !! Nodes(t.right)
    ensures Nodes(t) == Nodes(t.left) + {t.span.node} + Nodes(t.right)
    ensures t.span.node.left == Top(t.left) && t.span.node.right == Top(t.right) && Linked(t.left) && Linked(t.right)
    ensures Sorted(InOrder(t.left)) && Sorted(InOrder(t.right))
  {
    RootInOrder(t);
    SortedBranch(t);
    LinkedBranch(t);
  }

  /** The left child becomes the root. */
  method RotateRight(n: Node, ghost t: Shape) returns (m: Node, ghost u: Shape)
    requires t.Branch? && t.span.node == n && t.left.Branch? && Linked(t) && Sorted(InOrder(t))
    modifies n`left, t.left.span.node`right
    ensures u == Branch(t.left.left, t.left.span, Branch(t.left.right, t.span, t.right)) && m == t.left.span.node
    ensures Linked(u) && InOrder(u) == InOrder(t) && Nodes(u) == Nodes(t)
  {
    hide Sorted, InOrder, Linked, Nodes;
    RootFacts(t);
    RootFacts(t.left);
    m := n.left;
    n.left := m.right;
    m.right := n;
    MakeLinked(t.left.right, t.span, t.right);
    MakeLinked(t.left.left, t.left.span, Branch(t.left.right, t.span, t.right));
    u := Branch(t.left.left, t.left.span, Branch(t.left.right, t.span, t.right));
    RotatedInOrder(t.left.left, t.left.span, t.left.right, t.span, t.right);
  }

  /** The right child becomes the root. */
  method RotateLeft(n: Node, ghost t: Shape) returns (m: Node, ghost u: Shape)
    requires t.Branch? && t.span.node == n && t.right.Branch? && Linked(t) && Sorted(InOrder(t))
    modifies n`right, t.right.span.node`left
    ensures u == Branch(Branch(t.left, t.span, t.right.left), t.right.span, t.right.right) && m == t.right.span.node
    ensures Linked(u) && InOrder(u) == InOrder(t) && Nodes(u) == Nodes(t)
  {
    hide Sorted, InOrder, Linked, Nodes;
    RootFacts(t);
    RootFacts(t.right);
    m := n.right;
    n.right := m.left;
    m.left := n;
    MakeLinked(t.left, t.span, t.right.left);
    MakeLinked(Branch(t.left, t.span, t.right.left), t.right.span, t.right.right);
    u := Branch(Branch(t.left, t.span, t.right.left), t.right.span, t.right.right);
    RotatedInOrder(t.left, t.span, t.right.left, t.right.span, t.right.right);
  }

  lemma RegroupHang<T>(a: seq<T>, b: seq<T>, x: T, c: seq<T>, d: seq<T>)
    ensures a + (b + [x] + c) + d == a + b + ([x] + c + d)
    ensures a + (b + [x] + c) + d == (a + b + [x]) + c + d
  {
  }

  lemma HangRightParts(q: seq<Span>, l: Spine, t: Shape, r: Spine)
    requires Parts(q, l, t, r) && t.Branch?
    ensures Parts(q, l, t.left, Hung(r, t.right, t.span))
  {
    hide Sorted;
    RegroupHang(InLeft(l), InOrder(t.left), t.span, InOrder(t.right), InRight(r));
  }

  lemma HangLeftParts(q: seq<Span>, l: Spine, t: Shape, r: Spine)
    requires Parts(q, l, t, r) && t.Branch?
    ensures Parts(q, Hung(l, t.left, t.span), t.right, r)
  {
    hide Sorted;
    RegroupHang(InLeft(l), InOrder(t.left), t.span, InOrder(t.right), InRight(r));
  }

  lemma RotateParts(q: seq<Span>, l: Spine, t: Shape, u: Shape, r: Spine)
    requires Parts(q, l, t, r) && InOrder(u) == InOrder(t)
    ensures Parts(q, l, u, r)
  {
  }

  function Size(t: Shape): nat {
    match t
    case Leaf => 0
    case Branch(l, _, r) => Size(l) + 1 + Size(r)
  }

  /** Everything on the left is below the key, everything on the right above it. */
  ghost predicate Sides(key: int, l: seq<Span>, r: seq<Span>) {
    (forall x | x in l :: x.end <= key) && (forall x | x in r :: key < x.start)
  }

  lemma SidesRight(key: int, q: seq<Span>, l: Spine, t: Shape, r: Spine)
    requires Parts(q, l, t, r) && t.Branch? && key < t.span.start && Sides(key, InLeft(l), InRight(r))
    ensures Sides(key, InLeft(l), InRight(Hung(r, t.right, t.span)))
  {
    PartsApart(q, l, t, r);
    SortedBranch(t);
  }

  lemma SidesLeft(key: int, q: seq<Span>, l: Spine, t: Shape, r: Spine)
    requires Parts(q, l, t, r) && t.Branch? && t.span.end <= key && Sides(key, InLeft(l), InRight(r))
    ensures Sides(key, InLeft(Hung(l, t.left, t.span)), InRight(r))
  {
    PartsApart(q, l, t, r);
    SortedBranch(t);
  }

  /** The last node of a spine is not among the nodes above it, nor in its own subtree. */
  lemma SpineApart(s: Spine)
    requires s.Hung? && (Sorted(InRight(s)) || Sorted(InLeft(s)))
    ensures s.span.node !in Held(s.above) && s.span.node !in Nodes(s.sub)
  {
    InNodes(s.sub, s.span.node);
    if Sorted(InRight(s)) {
      var a, b := InOrder(s.sub), InRight(s.above);
      assert InRight(s) == [s.span] + (a + b);
      SortedParts([s.span], a + b);
      assert s.span in [s.span];
      HasBoth(a, b, s.span.node);
      InHeldRight(s.above, s.span.node);
    } else {
      var a, b := InLeft(s.above), InOrder(s.sub);
      SortedParts(a + b, [s.span]);
      assert s.span in [s.span];
      HasBoth(a, b, s.span.node);
      InHeldLeft(s.above, s.span.node);
    }
  }

  /** The node `x` whose open link is about to be written is in none of the other parts. */
  ghost predicate Free(x: Node, t: Shape, other: Spine, own: Spine) {
    && t.Branch? && x != t.span.node && x !in Nodes(t.left) && x !in Nodes(t.right) && x !in Held(other)
    && (own.Hung? ==> x !in Held(own.above) && x !in Nodes(own.sub))
  }

  lemma TipsFree(q: seq<Span>, l: Spine, t: Shape, r: Spine, dummy: Node)
    requires Parts(q, l, t, r) && t.Branch? && dummy !in Held(l) + Nodes(t) + Held(r)
    ensures Free(Tip(l, dummy), t, r, l) && Free(Tip(r, dummy), t, l, r)
  {
    PartsApart(q, l, t, r);
    if l.Hung? { SpineApart(l); }
    if r.Hung? { SpineApart(r); }
    hide Parts, Sorted, InOrder, InLeft, InRight;
  }

  /** The root with its right subtree is set aside; the search goes on in the left subtree. */
  method HangRight(right: Node, n: Node, dummy: Node, ghost l: Spine, ghost t: Shape, ghost r: Spine)
    requires t.Branch? && n == t.span.node && right == Tip(r, dummy) && Free(right, t, l, r)
    requires Linked(t) && LinkedLeft(l, dummy) && LinkedRight(r, dummy)
    requires r.Hung? ==> dummy != r.span.node
    modifies right`left
    ensures Linked(t.left) && LinkedLeft(l, dummy) && LinkedRight(Hung(r, t.right, t.span), dummy)
    ensures n.left == Top(t.left) && n.right == Top(t.right)
  {
    hide InOrder, InLeft, InRight;
    right.left := n;
  }

  method HangLeft(left: Node, n: Node, dummy: Node, ghost l: Spine, ghost t: Shape, ghost r: Spine)
    requires t.Branch? && n == t.span.node && left == Tip(l, dummy) && Free(left, t, r, l)
    requires Linked(t) && LinkedLeft(l, dummy) && LinkedRight(r, dummy)
    requires l.Hung? ==> dummy != l.span.node
    modifies left`right
    ensures Linked(t.right) && LinkedRight(r, dummy) && LinkedLeft(Hung(l, t.left, t.span), dummy)
    ensures n.left == Top(t.left) && n.right == Top(t.right)
  {
    hide InOrder, InLeft, InRight;
    left.right := n;
  }

  /** Where the descent may stop: at the key's span, or where the next step would leave the tree. */
  predicate Stops(key: int, t: Shape) {
    t.Branch? && match Compare(key, t.span)
                 case -1 => t.left.Leaf?
                 case 1 => t.right.Leaf?
                 case _ => true
  }

  /** The whole tree, once both spines are hung back under the node where the descent stopped. */
  function Rebuilt(l: Spine, t: Shape, r: Spine): Shape
    requires t.Branch?
  {
    Branch(BuildLeft(l, t.left), t.span, BuildRight(r, t.right))
  }

  lemma Regroup4<T>(a: seq<T>, b: seq<T>, x: T, c: seq<T>, d: seq<T>)
    ensures (a + b) + [x] + (c + d) == a + (b + [x] + c) + d
  {
  }

  lemma RebuiltInOrder(q: seq<Span>, l: Spine, t: Shape, r: Spine)
    requires Parts(q, l, t, r) && t.Branch?
    ensures InOrder(Rebuilt(l, t, r)) == q
  {
    hide Sorted;
    BuildLeftInOrder(l, t.left);
    BuildRightInOrder(r, t.right);
    hide BuildLeft, BuildRight;
    Regroup4(InLeft(l), InOrder(t.left), t.span, InOrder(t.right), InRight(r));
  }

  lemma RebuiltNodes(l: Spine, t: Shape, r: Spine)
    requires t.Branch?
    ensures Nodes(Rebuilt(l, t, r)) == Held(l) + Nodes(t) + Held(r)
  {
    BuildNodes(l, t.left);
    BuildNodes(r, t.right);
    hide BuildLeft, BuildRight, Held;
  }

  lemma RebuiltSides(key: int, q: seq<Span>, l: Spine, t: Shape, r: Spine)
    requires Parts(q, l, t, r) && Stops(key, t) && Sides(key, InLeft(l), InRight(r))
    ensures Sides(key, InOrder(Rebuilt(l, t, r).left), InOrder(Rebuilt(l, t, r).right))
  {
    PartsApart(q, l, t, r);
    SortedBranch(t);
    BuildLeftInOrder(l, t.left);
    BuildRightInOrder(r, t.right);
    hide Parts, Sorted, InLeft, InRight, BuildLeft, BuildRight;
  }

  /** The nodes a rotation touches, and that it loses none. */
  lemma RotatedNodes(t: Shape)
    requires t.Branch?
    ensures t.span.node in Nodes(t)
    ensures t.left.Branch? ==> t.left.span.node in Nodes(t)
    ensures t.left.Branch? ==> Size(Branch(t.left.left, t.left.span, Branch(t.left.right, t.span, t.right))) == Size(t)
    ensures t.right.Branch? ==> t.right.span.node in Nodes(t)
    ensures t.right.Branch? ==> Size(Branch(Branch(t.left, t.span, t.right.left), t.right.span, t.right.right)) == Size(t)
  {
  }

  method CloseLeft(left: Node, x: Node?, dummy: Node, ghost s: Spine, ghost u: Shape)
    requires left == Tip(s, dummy) && LinkedLeft(s, dummy) && Linked(u) && x == Top(u) && left !in Nodes(u)
    requires s.Hung? ==> left != dummy && left !in Held(s.above) && left !in Nodes(s.sub)
    modifies left`right
    ensures Linked(BuildLeft(s, u)) && dummy.right == Top(BuildLeft(s, u))
  {
    hide InOrder, BuildLeft;
    left.right := x;
    BuildLeftLinked(s, u, dummy);
  }

  method CloseRight(right: Node, x: Node?, dummy: Node, ghost s: Spine, ghost u: Shape)
    requires right == Tip(s, dummy) && LinkedRight(s, dummy) && Linked(u) && x == Top(u) && right !in Nodes(u)
    requires s.Hung? ==> right != dummy && right !in Held(s.above) && right !in Nodes(s.sub)
    modifies right`left
    ensures Linked(BuildRight(s, u)) && dummy.left == Top(BuildRight(s, u))
  {
    hide InOrder, BuildRight;
    right.left := x;
    BuildRightLinked(s, u, dummy);
  }

  /** What is hung back on either side is apart from the other side and from the new root. */
  lemma BuiltApart(repr: set<Node>, q: seq<Span>, l: Spine, t: Shape, r: Spine, dummy: Node)
    requires Parts(q, l, t, r) && t.Branch? && dummy !in repr && Whole(repr, l, t, r)
    ensures Nodes(t.left) <= repr && Nodes(t.right) <= repr && Held(r) <= repr
    ensures var a, b := Nodes(BuildLeft(l, t.left)), Nodes(BuildRight(r, t.right));
      && t.span.node !in a && t.span.node !in b && dummy !in a && dummy !in b && Tip(r, dummy) !in a
      && a <= repr && b <= repr
    ensures l.Hung? ==> l.span.node != dummy
    ensures r.Hung? ==> r.span.node != dummy
  {
    PartsApart(q, l, t, r);
    SortedBranch(t);
    BuildNodes(l, t.left);
    BuildNodes(r, t.right);
    hide Parts, Sorted, InOrder, InLeft, InRight, BuildLeft, BuildRight;
  }

  /** Closes the left spine over `x` and the right spine over `y`. */
  method CloseBoth(left: Node, right: Node, x: Node?, y: Node?, dummy: Node,
                   ghost repr: set<Node>, ghost l: Spine, ghost a: Shape, ghost r: Spine, ghost b: Shape)
    requires left == Tip(l, dummy) && right == Tip(r, dummy) && x == Top(a) && y == Top(b)
    requires Linked(a) && Linked(b) && LinkedLeft(l, dummy) && LinkedRight(r, dummy)
    requires left !in Nodes(a) && left !in Nodes(b) && left !in Held(r) && right !in Nodes(b)
    requires l.Hung? ==> left != dummy && left !in Held(l.above) && left !in Nodes(l.sub)
    requires r.Hung? ==> right != dummy && right !in Held(r.above) && right !in Nodes(r.sub)
    requires Nodes(b) <= repr && Held(r) <= repr && Nodes(BuildLeft(l, a)) <= repr && right !in Nodes(BuildLeft(l, a))
    modifies left`right, right`left
    ensures Linked(BuildLeft(l, a)) && dummy.right == Top(BuildLeft(l, a))
    ensures Linked(BuildRight(r, b)) && dummy.left == Top(BuildRight(r, b))
  {
    hide InOrder, BuildLeft, BuildRight, Linked, LinkedLeft, LinkedRight, Held, Nodes;
    CloseLeft(left, x, dummy, l, a);
    CloseRight(right, y, dummy, r, b);
  }

  /** The node takes the two sides off the dummy. */
  method TakeSides(n: Node, dummy: Node, ghost a: Shape, ghost x: Span, ghost b: Shape)
    requires n == x.node && n.end == x.end
    requires Linked(a) && Linked(b) && dummy.right == Top(a) && dummy.left == Top(b) && n != dummy
    requires n !in Nodes(a) && n !in Nodes(b)
    modifies n`left, n`right
    ensures Linked(Branch(a, x, b))
  {
    n.left := dummy.right;
    n.right := dummy.left;
  }

  /** Hangs the spines back: `dummy.right` and `dummy.left` hold their tops. */
  method Assemble(left: Node, right: Node, n: Node, dummy: Node,
                  ghost repr: set<Node>, ghost q: seq<Span>, ghost l: Spine, ghost t: Shape, ghost r: Spine)
    requires Whole(repr, l, t, r) && dummy !in repr
    requires Parts(q, l, t, r) && t.Branch? && n == t.span.node && left == Tip(l, dummy) && right == Tip(r, dummy)
    requires Linked(t) && LinkedLeft(l, dummy) && LinkedRight(r, dummy)
    modifies left`right, right`left, n`left, n`right
    ensures Linked(Rebuilt(l, t, r))
  {
    WholeDummy(repr, l, t, r, dummy);
    TipsFree(q, l, t, r, dummy);
    BuiltApart(repr, q, l, t, r, dummy);
    LinkedBranch(t);
    hide Parts, Sorted, InOrder, InLeft, InRight, LinkedLeft, LinkedRight, BuildLeft, BuildRight, Held, Linked, Nodes, Whole;
    CloseBoth(left, right, n.left, n.right, dummy, repr, l, t.left, r, t.right);
    TakeSides(n, dummy, BuildLeft(l, t.left), t.span, BuildRight(r, t.right));
  }

  lemma WholeDummy(repr: set<Node>, l: Spine, t: Shape, r: Spine, dummy: Node)
    requires Whole(repr, l, t, r) && dummy !in repr && t.Branch?
    ensures dummy !in Held(l) + Nodes(t) + Held(r) && t.span.node != dummy
    ensures (l.Hung? ==> l.span.node != dummy) && (r.Hung? ==> r.span.node != dummy)
  {
  }

  /** The three parts hold exactly the tree's nodes. */
  ghost predicate Whole(repr: set<Node>, l: Spine, t: Shape, r: Spine) {
    Held(l) + Nodes(t) + Held(r) == repr
  }

  lemma WholeTurned(repr: set<Node>, l: Spine, t: Shape, u: Shape, r: Spine)
    requires Whole(repr, l, t, r) && Nodes(u) == Nodes(t)
    ensures Whole(repr, l, u, r)
  {
  }

  /** The root and its children are the tree's, and belong to neither spine. */
  lemma TurnFacts(repr: set<Node>, q: seq<Span>, l: Spine, t: Shape, r: Spine)
    requires Whole(repr, l, t, r) && Parts(q, l, t, r) && t.Branch?
    ensures t.span.node in repr && t.span.node !in Held(l) && t.span.node !in Held(r) && Held(l) <= repr && Held(r) <= repr
    ensures t.left.Branch? ==> t.left.span.node in repr && t.left.span.node !in Held(l) && t.left.span.node !in Held(r)
    ensures t.right.Branch? ==> t.right.span.node in repr && t.right.span.node !in Held(l) && t.right.span.node !in Held(r)
    ensures Sorted(InOrder(t))
  {
    PartsApart(q, l, t, r);
    RotatedNodes(t);
    hide Parts, Held, Nodes;
  }

  /** A splay under way: `l` and `r` set aside, `t` still to be searched, the dummy holding the ends. */
  ghost predicate Going(repr: set<Node>, q: seq<Span>, key: int, dummy: Node, left: Node, right: Node,
                        l: Spine, t: Shape, r: Spine)
    reads dummy, repr
  {
    && Whole(repr, l, t, r) && dummy !in repr
    && Parts(q, l, t, r) && t.Branch? && Sides(key, InLeft(l), InRight(r))
    && left == Tip(l, dummy) && right == Tip(r, dummy)
    && Linked(t) && LinkedLeft(l, dummy) && LinkedRight(r, dummy)
  }

  method TurnRight(n: Node, ghost repr: set<Node>, ghost q: seq<Span>, key: int, ghost dummy: Node, left: Node, right: Node,
                   ghost l: Spine, ghost t: Shape, ghost r: Spine) returns (m: Node, ghost u: Shape)
    requires Going(repr, q, key, dummy, left, right, l, t, r) && n == t.span.node && t.left.Branch?
    modifies repr`left, repr`right
    ensures Going(repr, q, key, dummy, left, right, l, u, r) && m == u.span.node && m == t.left.span.node && Size(u) == Size(t)
  {
    TurnFacts(repr, q, l, t, r);
    RotatedNodes(t);
    hide Parts, Sides, InLeft, InRight, InOrder, Sorted, Linked, LinkedLeft, LinkedRight, Nodes, Held, Size, Whole;
    m, u := RotateRight(n, t);
    WholeTurned(repr, l, t, u, r);
    RotateParts(q, l, t, u, r);
  }

  method TurnLeft(n: Node, ghost repr: set<Node>, ghost q: seq<Span>, key: int, ghost dummy: Node, left: Node, right: Node,
                  ghost l: Spine, ghost t: Shape, ghost r: Spine) returns (m: Node, ghost u: Shape)
    requires Going(repr, q, key, dummy, left, right, l, t, r) && n == t.span.node && t.right.Branch?
    modifies repr`left, repr`right
    ensures Going(repr, q, key, dummy, left, right, l, u, r) && m == u.span.node && m == t.right.span.node && Size(u) == Size(t)
  {
    TurnFacts(repr, q, l, t, r);
    RotatedNodes(t);
    hide Parts, Sides, InLeft, InRight, InOrder, Sorted, Linked, LinkedLeft, LinkedRight, Nodes, Held, Size, Whole;
    m, u := RotateLeft(n, t);
    WholeTurned(repr, l, t, u, r);
    RotateParts(q, l, t, u, r);
  }

  lemma DummyApart(repr: set<Node>, l: Spine, t: Shape, r: Spine, dummy: Node)
    requires Held(l) + Nodes(t) + Held(r) == repr && dummy !in repr && t.Branch?
    ensures (l.Hung? ==> dummy != l.span.node) && (r.Hung? ==> dummy != r.span.node)
    ensures Held(l) + Nodes(t.left) + Held(Hung(r, t.right, t.span)) == repr
    ensures Held(Hung(l, t.left, t.span)) + Nodes(t.right) + Held(r) == repr
  {
  }

  /** The root goes to the right tree; the search goes on in its left subtree. */
  method DropLeft(n: Node, ghost repr: set<Node>, ghost q: seq<Span>, key: int, dummy: Node, left: Node, right: Node,
                  ghost l: Spine, ghost t: Shape, ghost r: Spine)
    requires Going(repr, q, key, dummy, left, right, l, t, r) && n == t.span.node && t.left.Branch? && key < n.start
    modifies right`left
    ensures Going(repr, q, key, dummy, left, n, l, t.left, Hung(r, t.right, t.span)) && n.left == t.left.span.node
  {
    HangRightParts(q, l, t, r);
    SidesRight(key, q, l, t, r);
    WholeDummy(repr, l, t, r, dummy);
    DummyApart(repr, l, t, r, dummy);
    TipsFree(q, l, t, r, dummy);
    hide Parts, Sides, InLeft, InRight, InOrder, Held, Nodes;
    HangRight(right, n, dummy, l, t, r);
  }

  method DropRight(n: Node, ghost repr: set<Node>, ghost q: seq<Span>, key: int, dummy: Node, left: Node, right: Node,
                   ghost l: Spine, ghost t: Shape, ghost r: Spine)
    requires Going(repr, q, key, dummy, left, right, l, t, r) && n == t.span.node && t.right.Branch? && n.end <= key
    modifies left`right
    ensures Going(repr, q, key, dummy, n, right, Hung(l, t.left, t.span), t.right, r) && n.right == t.right.span.node
  {
    HangLeftParts(q, l, t, r);
    SidesLeft(key, q, l, t, r);
    WholeDummy(repr, l, t, r, dummy);
    DummyApart(repr, l, t, r, dummy);
    TipsFree(q, l, t, r, dummy);
    hide Parts, Sides, InLeft, InRight, InOrder, Held, Nodes;
    HangLeft(left, n, dummy, l, t, r);
  }

  /** Reading a null pointer on the key's side tells that the descent may stop. */
  lemma StopsHere(repr: set<Node>, q: seq<Span>, key: int, dummy: Node, left: Node, right: Node,
                  l: Spine, t: Shape, r: Spine)
    requires Going(repr, q, key, dummy, left, right, l, t, r)
    ensures t.Branch? && t.span.node.left == Top(t.left) && t.span.node.right == Top(t.right) && t.span.node in repr
    ensures t.span.node.end == t.span.end
    ensures t.left.Branch? ==> Size(t.left) < Size(t) && t.left.span.node in repr
    ensures t.right.Branch? ==> Size(t.right) < Size(t) && t.right.span.node in repr && t.right.span.node.end == t.right.span.end
    ensures t.span.start <= key < t.span.end ==> Stops(key, t)
    ensures key < t.span.start && t.span.node.left == null ==> Stops(key, t)
    ensures t.span.end <= key && t.span.node.right == null ==> Stops(key, t)
  {
    hide Parts, Sides, InLeft, InRight, InOrder, Sorted, Linked, LinkedLeft, LinkedRight;
    PartsApart(q, l, t, r);
    SortedBranch(t);
    LinkedBranch(t);
    RotatedNodes(t);
    if t.right.Branch? { LinkedBranch(t.right); }
  }

  lemma BranchNotEmpty(t: Shape)
    ensures (InOrder(t) == [] <==> t.Leaf?) && (Nodes(t) == {} <==> t.Leaf?)
  {
  }

  lemma StartGoing(repr: set<Node>, key: int, dummy: Node, t: Shape)
    requires Sorted(InOrder(t)) && t.Branch? && Linked(t) && repr == Nodes(t) && dummy !in repr
    ensures Going(repr, InOrder(t), key, dummy, dummy, dummy, Empty, t, Empty)
  {
    assert InLeft(Empty) + InOrder(t) + InRight(Empty) == InOrder(t);
  }

  /** The end of a splay: the tree is whole again, with the node where the descent stopped at its root. */
  method Finish(n: Node, ghost repr: set<Node>, ghost q: seq<Span>, key: int, dummy: Node, left: Node, right: Node,
                ghost l: Spine, ghost t: Shape, ghost r: Spine) returns (ghost u: Shape)
    requires Going(repr, q, key, dummy, left, right, l, t, r) && n == t.span.node && Stops(key, t)
    modifies left`right, right`left, n`left, n`right
    ensures u.Branch? && u.span.node == n && Linked(u) && InOrder(u) == q && Sorted(q) && Nodes(u) == repr
    ensures Sides(key, InOrder(u.left), InOrder(u.right))
  {
    u := Rebuilt(l, t, r);
    RebuiltInOrder(q, l, t, r);
    RebuiltNodes(l, t, r);
    RebuiltSides(key, q, l, t, r);
    hide Sides, InLeft, InRight, InOrder, Sorted, LinkedLeft, LinkedRight, BuildLeft, BuildRight, Stops;
    Assemble(left, right, n, dummy, repr, q, l, t, r);
  }

  /** One round of the descent with the key below the root; `stop` when the next step would leave the tree. */
  method GoLeft(n: Node, ghost repr: set<Node>, ghost q: seq<Span>, key: int, dummy: Node, left: Node, right: Node,
                ghost l: Spine, ghost t: Shape, ghost r: Spine)
    returns (stop: bool, current: Node, newRight: Node, ghost u: Shape, ghost v: Spine)
    requires Going(repr, q, key, dummy, left, right, l, t, r) && n == t.span.node && key < n.start
    modifies repr`left, repr`right, right`left
    ensures Going(repr, q, key, dummy, left, newRight, l, u, v) && u.Branch? && u.span.node == current
    ensures if stop then Stops(key, u) else Size(u) < Size(t)
    ensures newRight in repr || newRight == right
  {
    hide Going, Sides, InOrder, Sorted, Linked, Nodes, Size, Stops;
    StopsHere(repr, q, key, dummy, left, right, l, t, r);
    stop, current, newRight, u, v := true, n, right, t, r;
    if current.left == null { return; }
    if key < current.left.start {
      current, u := TurnRight(current, repr, q, key, dummy, left, right, l, t, r);
      StopsHere(repr, q, key, dummy, left, right, l, u, r);
      if current.left == null { return; }
    }
    DropLeft(current, repr, q, key, dummy, left, right, l, u, r);
    stop, newRight, v, u, current := false, current, Hung(r, u.right, u.span), u.left, current.left;
  }

  /** One round of the descent with the key above the root. */
  method GoRight(n: Node, ghost repr: set<Node>, ghost q: seq<Span>, key: int, dummy: Node, left: Node, right: Node,
                 ghost l: Spine, ghost t: Shape, ghost r: Spine)
    returns (stop: bool, current: Node, newLeft: Node, ghost u: Shape, ghost v: Spine)
    requires Going(repr, q, key, dummy, left, right, l, t, r) && n == t.span.node && n.end <= key
    modifies repr`left, repr`right, left`right
    ensures Going(repr, q, key, dummy, newLeft, right, v, u, r) && u.Branch? && u.span.node == current
    ensures if stop then Stops(key, u) else Size(u) < Size(t)
    ensures newLeft in repr || newLeft == left
  {
    hide Going, Sides, InOrder, Sorted, Linked, Nodes, Size, Stops;
    StopsHere(repr, q, key, dummy, left, right, l, t, r);
    stop, current, newLeft, u, v := true, n, left, t, l;
    if current.right == null { return; }
    if current.right.end <= key {
      current, u := TurnLeft(current, repr, q, key, dummy, left, right, l, t, r);
      StopsHere(repr, q, key, dummy, left, right, l, u, r);
      if current.right == null { return; }
    }
    DropRight(current, repr, q, key, dummy, left, right, l, u, r);
    stop, newLeft, v, u, current := false, current, Hung(l, u.left, u.span), u.right, current.right;
  }

  /** The descent from the root and the hanging back. */
  method SplayFrom(root: Node, key: int, ghost repr: set<Node>, ghost shape: Shape) returns (current: Node, ghost u: Shape)
    requires repr == Nodes(shape) && shape.Branch? && root == shape.span.node && Linked(shape) && Sorted(InOrder(shape))
    modifies repr`left, repr`right
    ensures u.Branch? && u.span.node == current && Linked(u) && InOrder(u) == InOrder(shape) && Sorted(InOrder(u)) && Nodes(u) == repr
    ensures Sides(key, InOrder(u.left), InOrder(u.right))
  {
    current := root;
    var dummy := new Node(0, 0, 0);
    var left, right := dummy, dummy;
    ghost var t, l, r := shape, Empty, Empty;
    StartGoing(repr, key, dummy, t);
    hide Going, Sides, InOrder, Sorted, Linked, Nodes, Size, Stops;
    ghost var q := InOrder(shape);
    var stop := false;
    while !stop
      invariant Going(repr, q, key, dummy, left, right, l, t, r) && t.Branch? && t.span.node == current
      invariant left in repr + {dummy} && right in repr + {dummy} && (stop ==> Stops(key, t)) && fresh(dummy)
      decreases if stop then 0 else 1 + Size(t)
    {
      if key < current.start {
        stop, current, right, t, r := GoLeft(current, repr, q, key, dummy, left, right, l, t, r);
      } else if key < current.end {
        StopsHere(repr, q, key, dummy, left, right, l, t, r);
        stop := true;
      } else {
        stop, current, left, t, l := GoRight(current, repr, q, key, dummy, left, right, l, t, r);
      }
    }
    StopsHere(repr, q, key, dummy, left, right, l, t, r);
    u := Finish(current, repr, q, key, dummy, left, right, l, t, r);
  }

  predicate Holds(x: Span, key: int) {
    x.start <= key < x.end
  }

  /** With everything on the left below the key and everything on the right above it, only the root
      can hold the key. */
  lemma OnlyRootHolds(t: Shape, key: int, x: Span)
    requires t.Branch? && Sides(key, InOrder(t.left), InOrder(t.right)) && x in InOrder(t) && Holds(x, key)
    ensures x == t.span
  {
    SidesInOrder(key, t);
    assert x in [t.span] ==> x == t.span;
  }

  /** Spans below the key have no span above it among them. */
  lemma NothingAbove(key: int, t: Shape, before: seq<Span>)
    requires t.Branch? && InOrder(t) == before && Sorted(before) && (forall x | x in before :: x.end <= key)
    requires Sides(key, InOrder(t.left), InOrder(t.right))
    ensures t.right == Leaf
  {
    if t.right.Branch? {
      var x := t.right.span;
      RootInOrder(t.right);
      assert x in before;
      SortedBranch(t.right) by { SortedBranch(t); }
    }
  }

  /** A new span set between the two sides of a sorted tree. */
  lemma InsertSorted(a: seq<Span>, n: Span, b: seq<Span>)
    requires Sorted(a + b) && n.start < n.end
    requires (forall x | x in a :: x.end <= n.start) && (forall y | y in b :: n.end <= y.start)
    ensures Sorted(a + [n] + b)
  {
    var q, p := a + [n] + b, a + b;
    forall i | 0 <= i < |q| ensures q[i].start < q[i].end {
      if i < |a| { assert q[i] == p[i]; } else if i > |a| { assert q[i] == p[i - 1]; }
    }
    forall i, j | 0 <= i < j < |q| ensures q[i].end <= q[j].start {
      if i == |a| {
        assert q[j] == b[j - |a| - 1];
      } else if j == |a| {
        assert q[i] == a[i];
      } else {
        assert q[i] == p[if i < |a| then i else i - 1] && q[j] == p[if j < |a| then j else j - 1];
      }
    }
  }

  lemma Cut(a: seq<Span>, n: Span, b: seq<Span>)
    ensures (a + [n] + b)[..|a|] == a && (a + [n] + b)[|a| + 1..] == b && (a + [n] + b)[|a|] == n
  {
  }

  lemma RemoveSorted(a: seq<Span>, n: Span, b: seq<Span>)
    requires Sorted(a + [n] + b)
    ensures Sorted(a + b)
  {
    var q, p := a + [n] + b, a + b;
    assert forall i | 0 <= i < |p| :: p[i] == q[if i < |a| then i else i + 1];
  }

  /** The new span goes between the left side and the old root. */
  lemma InsertBefore(q: seq<Span>, l: seq<Span>, top: Span, r: seq<Span>, node: Span)
    requires q == l + [top] + r && Sorted(q) && node.start < node.end <= top.start
    requires forall x | x in l :: x.end <= node.start
    ensures Sorted(l + [node] + ([top] + r)) && l + [node] + ([top] + r) == q[..|l|] + [node] + q[|l|..]
  {
    assert q == l + ([top] + r);
    SortedAround(l, top, r);
    forall y | y in [top] + r ensures node.end <= y.start {
      assert y in [top] || y in r;
    }
    InsertSorted(l, node, [top] + r);
  }

  lemma InsertAfter(q: seq<Span>, l: seq<Span>, top: Span, r: seq<Span>, node: Span)
    requires q == l + [top] + r && Sorted(q) && top.end <= node.start < node.end
    requires forall y | y in r :: node.end <= y.start
    ensures Sorted(l + [top] + [node] + r) && l + [top] + [node] + r == q[..|l| + 1] + [node] + q[|l| + 1..]
  {
    assert q[..|l| + 1] == l + [top] && q[|l| + 1..] == r;
    SortedAround(l, top, r);
    forall x | x in l + [top] ensures x.end <= node.start {
      assert x in [top] || x in l;
    }
    InsertSorted(l + [top], node, r);
  }

  /** What lies on the two sides of the splayed root, as sequences. */
  lemma SidesInOrder(key: int, t: Shape)
    requires t.Branch? && Sides(key, InOrder(t.left), InOrder(t.right))
    ensures forall x | x in InOrder(t.left) :: x.end <= key
    ensures forall x | x in InOrder(t.right) :: key < x.start
    ensures InOrder(t) == InOrder(t.left) + [t.span] + InOrder(t.right)
  {
  }

  lemma NoneHolds(q: seq<Span>, l: seq<Span>, top: Span, r: seq<Span>, key: int)
    requires q == l + [top] + r && !Holds(top, key)
    requires (forall n | n in l :: n.end <= key) && (forall n | n in r :: key < n.start)
    ensures forall n | n in q :: !Holds(n, key)
  {
  }

  lemma AboveShape(t: Shape, node: Span)
    requires t.Branch?
    ensures InOrder(Branch(t.left, node, Branch(Leaf, t.span, t.right))) == InOrder(t.left) + [node] + ([t.span] + InOrder(t.right))
    ensures InOrder(Branch(Branch(t.left, t.span, Leaf), node, t.right)) == InOrder(t.left) + [t.span] + [node] + InOrder(t.right)
  {
    EmptySides(InOrder(t.left), t.span, InOrder(t.right));
    assert InOrder(Leaf) == [];
    var u, v := Branch(Leaf, t.span, t.right), Branch(t.left, t.span, Leaf);
    assert InOrder(u) == [] + [t.span] + InOrder(t.right) && InOrder(v) == InOrder(t.left) + [t.span] + [];
  }

  lemma EmptySides<T>(a: seq<T>, x: T, b: seq<T>)
    ensures [] + [x] + b == [x] + b && a + [x] + [] == a + [x]
  {
  }

  lemma AboveNodes(t: Shape, x: Span)
    requires t.Branch?
    ensures Nodes(Branch(t.left, x, Branch(Leaf, t.span, t.right))) == Nodes(t) + {x.node}
    ensures Nodes(Branch(Branch(t.left, t.span, Leaf), x, t.right)) == Nodes(t) + {x.node}
  {
    hide InOrder;
    assert Nodes(Leaf) == {};
    var u, v := Branch(Leaf, t.span, t.right), Branch(t.left, t.span, Leaf);
    assert Nodes(u) == {} + {t.span.node} + Nodes(t.right) && Nodes(v) == Nodes(t.left) + {t.span.node} + {};
    Shuffle(Nodes(t.left), t.span.node, x.node, Nodes(t.right));
  }

  lemma Shuffle<T>(a: set<T>, x: T, y: T, b: set<T>)
    ensures a + {y} + ({} + {x} + b) == a + {x} + b + {y}
    ensures a + {x} + {} + {y} + b == a + {x} + b + {y}
  {
  }

  /** The new node above the old root, which keeps only its right subtree. */
  method LinkAbove(node: Node, root: Node, ghost t: Shape)
    requires t.Branch? && t.span.node == root && Linked(t) && node !in Nodes(t)
    requires root !in Nodes(t.left) && root !in Nodes(t.right)
    modifies node`left, node`right, root`left
    ensures Linked(Branch(t.left, Span(node, node.end), Branch(Leaf, t.span, t.right)))
  {
    hide InOrder;
    node.right := root;
    node.left := root.left;
    root.left := null;
    MakeLinked(Leaf, t.span, t.right);
    MakeLinked(t.left, Span(node, node.end), Branch(Leaf, t.span, t.right));
  }

  /** The new node above the old root, which keeps only its left subtree. */
  method LinkBelow(node: Node, root: Node, ghost t: Shape)
    requires t.Branch? && t.span.node == root && Linked(t) && node !in Nodes(t)
    requires root !in Nodes(t.left) && root !in Nodes(t.right)
    modifies node`left, node`right, root`right
    ensures Linked(Branch(Branch(t.left, t.span, Leaf), Span(node, node.end), t.right))
  {
    hide InOrder;
    node.left := root;
    node.right := root.right;
    root.right := null;
    MakeLinked(t.left, t.span, Leaf);
    MakeLinked(Branch(t.left, t.span, Leaf), Span(node, node.end), t.right);
  }

  method TakeRight(top: Node, right: Node?, ghost t: Shape, ghost r: Shape)
    requires t.Branch? && t.span.node == top && Linked(t) && Linked(r) && right == Top(r)
    requires top !in Nodes(t.left) && top !in Nodes(r)
    modifies top`right
    ensures Linked(Branch(t.left, t.span, r))
  {
    hide InOrder;
    top.right := right;
    MakeLinked(t.left, t.span, r);
  }

  /** A root without a right child takes `r` there. */
  lemma JoinShape(t: Shape, r: Shape)
    requires t.Branch? && t.right == Leaf
    ensures InOrder(Branch(t.left, t.span, r)) == InOrder(t) + InOrder(r)
    ensures Nodes(Branch(t.left, t.span, r)) == Nodes(t) + Nodes(r)
  {
    assert InOrder(t.left) + [t.span] + [] == InOrder(t.left) + [t.span];
  }

  /** `q` with `n` set in somewhere. */
  ghost predicate WithOne(q: seq<Span>, n: Span, q2: seq<Span>) {
    exists i :: 0 <= i <= |q| && q2 == InsertedAt(q, i, n)
  }

  function InsertedAt(q: seq<Span>, i: int, n: Span): seq<Span>
    requires 0 <= i <= |q|
  {
    q[..i] + [n] + q[i..]
  }

  /** Every span before `n` ends at or below the key, and every span after it starts above the key. */
  ghost predicate Splits(q: seq<Span>, n: Span, key: int) {
    exists i :: 0 <= i < |q| && q[i] == n && (forall j | 0 <= j < i :: q[j].end <= key) && (forall j | i < j < |q| :: key < q[j].start)
  }

  lemma SplitsBetween(l: seq<Span>, x: Span, r: seq<Span>, key: int)
    requires Sides(key, l, r)
    ensures Splits(l + [x] + r, x, key)
  {
    var q := l + [x] + r;
    forall j | 0 <= j < |l| ensures q[j].end <= key { assert q[j] in l; }
    forall j | |l| < j < |q| ensures key < q[j].start { assert q[j] == r[j - |l| - 1] && q[j] in r; }
    assert q[|l|] == x;
  }

  lemma RootSplits(key: int, t: Shape)
    requires t.Branch? && Sides(key, InOrder(t.left), InOrder(t.right))
    ensures Splits(InOrder(t), t.span, key)
  {
    hide Splits, Sides;
    SplitsBetween(InOrder(t.left), t.span, InOrder(t.right), key);
  }

  /** The span that a removal takes holds the key if and only if some span does. */
  lemma SplitHolds(q: seq<Span>, n: Span, key: int)
    requires Splits(q, n, key)
    ensures Holds(n, key) <==> exists m :: m in q && Holds(m, key)
    ensures forall m | m in q && Holds(m, key) :: m == n
  {
    var i :| 0 <= i < |q| && q[i] == n && (forall j | 0 <= j < i :: q[j].end <= key) && (forall j | i < j < |q| :: key < q[j].start);
    forall m | m in q && Holds(m, key) ensures m == n {
      var j :| 0 <= j < |q| && q[j] == m;
    }
  }

  /** One place of `q` holds another span. */
  ghost predicate Replaced(q: seq<Span>, x: Span, y: Span, q2: seq<Span>) {
    exists i :: 0 <= i < |q| && q[i] == x && q2 == q[i := y]
  }

  // ----- a span cut short in place ---------------------------------------------------------

  /** The shape with another end for one node's span. */
  function Short(t: Shape, n: Node, end: int): Shape {
    match t
    case Leaf => Leaf
    case Branch(l, x, r) => Branch(Short(l, n, end), if x.node == n then Span(n, end) else x, Short(r, n, end))
  }

  function ShortAll(q: seq<Span>, n: Node, end: int): (r: seq<Span>)
    ensures |r| == |q| && forall i | 0 <= i < |q| :: r[i] == if q[i].node == n then Span(n, end) else q[i]
  {
    seq(|q|, i requires 0 <= i < |q| => if q[i].node == n then Span(n, end) else q[i])
  }

  lemma ShortJoin(a: seq<Span>, x: Span, b: seq<Span>, n: Node, end: int)
    ensures ShortAll(a + [x] + b, n, end) == ShortAll(a, n, end) + [if x.node == n then Span(n, end) else x] + ShortAll(b, n, end)
  {
  }

  lemma {:induction false} ShortShape(t: Shape, n: Node, end: int)
    ensures InOrder(Short(t, n, end)) == ShortAll(InOrder(t), n, end) && Nodes(Short(t, n, end)) == Nodes(t)
    ensures Top(Short(t, n, end)) == Top(t)
  {
    hide ShortAll;
    if t.Branch? {
      ShortShape(t.left, n, end);
      ShortShape(t.right, n, end);
      ShortJoin(InOrder(t.left), t.span, InOrder(t.right), n, end);
    } else {
      assert ShortAll([], n, end) == [];
    }
  }

  /** A span that ends earlier still follows the ones before it and is clear of the ones after it. */
  lemma ShortSorted(q: seq<Span>, n: Node, end: int)
    requires Sorted(q) && n.start < end && forall x | x in q && x.node == n :: end <= x.end
    ensures Sorted(ShortAll(q, n, end))
  {
    var r := ShortAll(q, n, end);
    forall i | 0 <= i < |q| ensures r[i].start == q[i].start < r[i].end <= q[i].end {}
  }

  /** The pointers alone. */
  ghost predicate Wired(t: Shape)
    reads Nodes(t)`left, Nodes(t)`right
  {
    match t
    case Leaf => true
    case Branch(l, x, r) => x.node.left == Top(l) && x.node.right == Top(r) && Wired(l) && Wired(r)
  }

  /** The ends alone. */
  ghost predicate Ended(q: seq<Span>)
    reads set x | x in q :: x.node
  {
    forall x | x in q :: x.node.end == x.end
  }

  lemma EndedJoin(a: seq<Span>, x: Span, b: seq<Span>)
    ensures Ended(a + [x] + b) <==> Ended(a) && x.node.end == x.end && Ended(b)
  {
    var q := a + [x] + b;
    assert forall y :: y in q <==> y in a || y == x || y in b;
  }

  lemma {:induction false} LinkedIs(t: Shape)
    ensures Linked(t) <==> Wired(t) && Ended(InOrder(t))
  {
    if t.Branch? {
      LinkedIs(t.left);
      LinkedIs(t.right);
      EndedJoin(InOrder(t.left), t.span, InOrder(t.right));
      hide Ended;
    }
  }

  lemma {:induction false} WiredShort(t: Shape, n: Node, end: int)
    requires Wired(t)
    ensures Wired(Short(t, n, end))
  {
    if t.Branch? {
      WiredShort(t.left, n, end);
      WiredShort(t.right, n, end);
      ShortShape(t.left, n, end);
      ShortShape(t.right, n, end);
    }
  }

  lemma ShortEnded(q: seq<Span>, n: Node, end: int)
    requires n.end == end && forall x | x in q && x.node != n :: x.node.end == x.end
    ensures Ended(ShortAll(q, n, end))
  {
  }

  /** The one place where the node's span stands. */
  lemma SpanOf(t: Shape, n: Node) returns (i: nat)
    requires Ended(InOrder(t)) && Sorted(InOrder(t)) && n in Nodes(t)
    ensures i < |InOrder(t)| && InOrder(t)[i] == Span(n, n.end)
    ensures forall end :: ShortAll(InOrder(t), n, end) == InOrder(t)[i := Span(n, end)]
  {
    var q := InOrder(t);
    InNodes(t, n);
    var x :| x in q && x.node == n;
    i :| 0 <= i < |q| && q[i] == x;
    hide InOrder, Linked, Nodes;
    forall j | 0 <= j < |q| && j != i ensures q[j].node != n {
      if j < i { assert q[j].end <= q[i].start; } else { assert q[i].end <= q[j].start; }
    }
    forall end ensures ShortAll(q, n, end) == q[i := Span(n, end)] {}
  }

  class Tree {
    var root: Node?
    ghost var shape: Shape
    ghost var repr: set<Node>

    ghost predicate Valid()
      reads this, repr
    {
      repr == Nodes(shape) && root == Top(shape) && Linked(shape) && Sorted(InOrder(shape))
    }

    /** The spans in order. */
    ghost function Spans(): seq<Span>
      reads this
    {
      InOrder(shape)
    }

    constructor ()
      ensures Valid() && Spans() == [] && repr == {}
    {
      root, shape, repr := null, Leaf, {};
    }

    /** Brings to the root the node whose span holds the key, if there is one, and otherwise one next
        to where it would be; the spans and their order stay. */
    method Splay(key: int) returns (node: Node?)
      requires Valid()
      modifies this, repr`left, repr`right
      ensures Valid() && Spans() == old(Spans()) && repr == old(repr)
      ensures node == root && (node == null <==> Spans() == [])
      ensures shape.Branch? ==> Sides(key, InOrder(shape.left), InOrder(shape.right))
    {
      BranchNotEmpty(shape);
      if root == null { return null; }
      node, shape := SplayFrom(root, key, repr, shape);
      root := node;
      BranchNotEmpty(shape);
    }

    /** The node whose span holds the key, or null if none does. */
    method Lookup(key: int) returns (found: Node?)
      requires Valid()
      modifies this, repr`left, repr`right
      ensures Valid() && Spans() == old(Spans()) && repr == old(repr)
      ensures found != null ==> Span(found, found.end) in Spans() && Holds(Span(found, found.end), key)
      ensures found == null ==> forall x | x in Spans() :: !Holds(x, key)
    {
      var node := Splay(key);
      BranchNotEmpty(shape);
      if node != null {
        RootInOrder(shape);
        LinkedBranch(shape);
        if Compare(key, Span(node, node.end)) == 0 { return node; }
      }
      forall x | x in Spans() ensures !Holds(x, key) {
        if Holds(x, key) { OnlyRootHolds(shape, key, x); }
      }
      return null;
    }

    /** The span next before the root's. */
    method Previous() returns (prev: Node?)
      requires Valid() && shape.Branch?
      ensures (prev == null <==> InOrder(shape.left) == [])
      ensures prev != null ==> prev == InOrder(shape.left)[|InOrder(shape.left)| - 1].node
    {
      var node: Node? := root.left;
      ghost var t := shape.left;
      BranchNotEmpty(t);
      if node == null { return null; }
      while node.right != null
        invariant t.Branch? && node == t.span.node && Linked(t) && InOrder(t) != [] && InOrder(shape.left) != []
        invariant InOrder(t)[|InOrder(t)| - 1] == InOrder(shape.left)[|InOrder(shape.left)| - 1]
        decreases t
      {
        BranchNotEmpty(t.right);
        node, t := node.right, t.right;
      }
      return node;
    }

    /** Adds a span, or gives the value to the node that has exactly this span. */
    method Insert(start: int, end: int, value: int) returns (node: Node)
      requires Valid() && start < end
      requires forall x | x in Spans() :: (x.start == start && x.end == end) || x.end <= start || end <= x.start
      modifies this, repr`left, repr`right, repr`value
      ensures Valid() && node == root && node.start == start && node.end == end && node.value == value
      ensures if exists x :: x in old(Spans()) && Holds(x, start) then Spans() == old(Spans()) && Span(node, end) in old(Spans())
              else fresh(node) && WithOne(old(Spans()), Span(node, end), Spans())
      ensures repr == old(repr) + {node} && forall n | n in old(repr) && n != node :: n.value == old(n.value)
    {
      hide InOrder, Sorted, Linked, Nodes, Sides, WithOne;
      BranchNotEmpty(shape);
      if root == null {
        node := InsertFirst(start, end, value);
        return;
      }
      var top := Splay(start);
      BranchNotEmpty(shape);
      RootFacts(shape);
      if top.start <= start < top.end {
        top.value := value;
        node := top;
      } else {
        node := InsertFresh(start, end, value);
      }
    }

    method InsertFirst(start: int, end: int, value: int) returns (node: Node)
      requires Valid() && shape == Leaf && start < end
      modifies this
      ensures Valid() && node == root && node.start == start && node.end == end && node.value == value && fresh(node)
      ensures old(Spans()) == [] && WithOne([], Span(node, end), Spans()) && old(repr) == {} && repr == {node}
    {
      node := new Node(start, end, value);
      root, shape, repr := node, Branch(Leaf, Span(node, end), Leaf), {node};
      assert Spans() == InsertedAt([], 0, Span(node, end));
    }

    /** After the splay, a span that no node holds goes above the root, on the side where it belongs. */
    method InsertFresh(start: int, end: int, value: int) returns (node: Node)
      requires Valid() && start < end && shape.Branch? && !Holds(shape.span, start)
      requires Sides(start, InOrder(shape.left), InOrder(shape.right))
      requires forall x | x in Spans() :: x.end <= start || end <= x.start || (x.start == start && x.end == end)
      modifies this, repr`left, repr`right
      ensures Valid() && node == root && node.start == start && node.end == end && node.value == value && fresh(node)
      ensures WithOne(old(Spans()), Span(node, end), Spans()) && !exists x :: x in old(Spans()) && Holds(x, start)
      ensures repr == old(repr) + {node}
    {
      node := new Node(start, end, value);
      ghost var q, l, r, x := Spans(), InOrder(shape.left), InOrder(shape.right), Span(node, end);
      SidesInOrder(start, shape);
      NoneHolds(q, l, shape.span, r, start);
      SortedBranch(shape);
      assert shape.span in q;
      if start < root.start {
        InsertBefore(q, l, shape.span, r, x);
        hide InOrder, Sorted, Sides, Linked, Nodes;
        PutAbove(node);
        assert Spans() == InsertedAt(q, |l|, x);
      } else {
        InsertAfter(q, l, shape.span, r, x);
        hide InOrder, Sorted, Sides, Linked, Nodes;
        PutBelow(node);
        assert Spans() == InsertedAt(q, |l| + 1, x);
      }
    }

    method PutAbove(node: Node)
      requires Valid() && shape.Branch? && node !in repr
      requires Sorted(InOrder(shape.left) + [Span(node, node.end)] + ([shape.span] + InOrder(shape.right)))
      modifies this, node`left, node`right, repr`left
      ensures Valid() && Spans() == InOrder(old(shape.left)) + [Span(node, node.end)] + ([old(shape.span)] + InOrder(old(shape.right)))
      ensures root == node && repr == old(repr) + {node}
    {
      ghost var x := Span(node, node.end);
      SortedBranch(shape);
      AboveShape(shape, x);
      AboveNodes(shape, x);
      assert root in Nodes(shape);
      hide InOrder, Sorted, Linked, Nodes;
      LinkAbove(node, root, shape);
      root, shape, repr := node, Branch(shape.left, x, Branch(Leaf, shape.span, shape.right)), repr + {node};
    }

    method PutBelow(node: Node)
      requires Valid() && shape.Branch? && node !in repr
      requires Sorted(InOrder(shape.left) + [shape.span] + [Span(node, node.end)] + InOrder(shape.right))
      modifies this, node`left, node`right, repr`right
      ensures Valid() && Spans() == InOrder(old(shape.left)) + [old(shape.span)] + [Span(node, node.end)] + InOrder(old(shape.right))
      ensures root == node && repr == old(repr) + {node}
    {
      ghost var x := Span(node, node.end);
      SortedBranch(shape);
      AboveShape(shape, x);
      AboveNodes(shape, x);
      assert root in Nodes(shape);
      hide InOrder, Sorted, Linked, Nodes;
      LinkBelow(node, root, shape);
      root, shape, repr := node, Branch(Branch(shape.left, shape.span, Leaf), x, shape.right), repr + {node};
    }

    /** Cuts a span short where it stands in the tree. */
    method Shrink(node: Node, end: int)
      requires Valid() && node in repr && node.start < end <= node.end
      modifies this`shape, node`end
      ensures Valid() && repr == old(repr) && Top(shape) == old(Top(shape))
      ensures Replaced(old(Spans()), Span(node, old(node.end)), Span(node, end), Spans())
    {
      hide Linked, Sorted, Nodes, InOrder, Wired, Short, ShortAll;
      LinkedIs(shape);
      ShortShape(shape, node, end);
      ShortSorted(InOrder(shape), node, end);
      ghost var i := SpanOf(shape, node);
      node.end := end;
      WiredShort(shape, node, end);
      ghost var q := InOrder(shape);
      shape := Short(shape, node, end);
      ShortEnded(q, node, end);
      LinkedIs(shape);
    }

    /** Removes the root that the splay brings up: the span that holds the key if there is one, and
        otherwise one next to where the key would be.  The second splay finds every remaining span on
        its side below the key, so the root it brings up has no right child to lose. */
    method Remove(key: int) returns (value: int, ghost removed: Span)
      requires Valid() && Spans() != []
      modifies this, repr`left, repr`right
      ensures Valid() && removed in old(Spans()) && WithOne(Spans(), removed, old(Spans())) && value == removed.node.value
      ensures Splits(old(Spans()), removed, key)
      ensures forall x | x in old(Spans()) && Holds(x, key) :: x == removed
      ensures repr == old(repr) - {removed.node}
    {
      ghost var before := Spans();
      var node := Splay(key);
      BranchNotEmpty(shape);
      removed := shape.span;
      value := node.value;
      RootInOrder(shape);
      RootSplits(key, shape);
      SplitHolds(before, removed, key);
      hide Splits;
      DropRoot(key);
    }

    method DropRoot(key: int)
      requires Valid() && shape.Branch? && Sides(key, InOrder(shape.left), InOrder(shape.right))
      modifies this, repr`left, repr`right
      ensures Valid() && WithOne(Spans(), old(shape.span), old(Spans())) && repr == old(repr) - {old(shape.span).node}
    {
      hide Sides, InOrder, Sorted, Linked, Nodes;
      ghost var q, l, n, r := Spans(), shape.left, shape.span, shape.right;
      SidesInOrder(key, shape);
      RootFacts(shape);
      RemoveSorted(InOrder(l), n, InOrder(r));
      BranchNotEmpty(l);
      if root.left == null {
        root, shape, repr := root.right, r, Nodes(r);
        assert q == InsertedAt(Spans(), 0, n);
      } else {
        var right := root.right;
        root, shape, repr := root.left, l, Nodes(l);
        JoinSides(key, right, Nodes(r), r);
        assert q == InsertedAt(Spans(), |InOrder(l)|, n);
      }
    }

    /** With every span below the key, hangs another tree on the right of the root the splay brings up. */
    method JoinSides(key: int, right: Node?, ghost rs: set<Node>, ghost r: Shape)
      requires Valid() && shape.Branch? && rs == Nodes(r) && right == Top(r) && Linked(r) && rs !! repr
      requires (forall x | x in Spans() :: x.end <= key) && Sorted(Spans() + InOrder(r))
      modifies this, repr`left, repr`right
      ensures Valid() && Spans() == old(Spans()) + InOrder(r) && repr == old(repr) + rs
    {
      hide InOrder, Sorted, Sides, Linked, Nodes;
      BranchNotEmpty(shape);
      var top := Splay(key);
      BranchNotEmpty(shape);
      NothingAbove(key, shape, Spans());
      JoinShape(shape, r);
      RootFacts(shape);
      TakeRight(top, right, shape, r);
      shape, repr := Branch(shape.left, shape.span, r), repr + rs;
    }
  }

  /** A key that no span holds: the only span of the tree goes all the same. */
  method RemoveMisses(start: int, end: int, key: int) returns (t: Tree, ghost removed: Span)
    requires start < end && !(start <= key < end)
    ensures t.Valid() && t.Spans() == [] && removed.start == start && removed.end == end && !Holds(removed, key)
  {
    t := new Tree();
    var node := t.Insert(start, end, 0);
    ghost var q := t.Spans();
    assert q == [Span(node, end)];
    var value;
    value, removed := t.Remove(key);
    assert t.Spans() == [];
  }
}
