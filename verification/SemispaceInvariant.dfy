/** What a semispace collection keeps true at every step.

    `World` is the heap as the collection finds it; `Memory` is what the collector has made of it
    so far; `Progress` is the bookkeeping that relates the two: which object went where and which
    slots already hold new addresses. */
module SemispaceInvariant {
  import opened ObjectModel

  datatype World = World(
    layout: seq<Addr>,          // from-space objects in address order
    large: set<Addr>,           // live large objects, which never move
    ephemerons: set<Addr>,
    store: map<Addr, Object>,
    slots: map<Addr, set<int>>, // strong reference slots of the other objects
    next: map<Addr, int>,       // first ephemeron down the chain that is not dead
    roots: seq<int>,
    fromBase: int, fromEnd: int, toBase: int, active: int,
    epoch: int,
    hash: Addr -> int, nbuckets: int)

  datatype Memory = Memory(
    store: map<Addr, Object>,
    roots: seq<int>,
    hp: int,
    marked: set<Addr>,
    buckets: seq<seq<Addr>>,
    resolved: seq<Addr>,
    checking: bool)

  datatype Status = Claimed | Pending | Resolved | Finished

  datatype Progress = Progress(
    at: map<Addr, Addr>,       // live objects found so far, and where each is now
    copies: seq<Addr>,         // the small ones, in copying order
    places: seq<Addr>,         // and their new addresses
    started: nat,              // how many of them the grey pointer has reached
    done: set<(Addr, int)>,    // slots already updated
    rootsDone: nat,            // roots already updated, in order
    status: map<Addr, Status>, // ephemerons whose tracing has begun
    work: seq<Addr>)           // rest of the resolved list now being traced

  // ----- the heap before collection ------------------------------------------------------

  ghost predicate Known(w: World, a: Addr) {
    a in w.layout || a in w.large
  }

  ghost predicate RefOk(w: World, word: int) {
    Pointer(word) ==> Known(w, word)
  }

  ghost function Word(w: World, x: Addr, j: int): int {
    if x in w.store && 0 <= j < |w.store[x]| then w.store[x][j] else 0
  }

  ghost function SizeOf(w: World, x: Addr): int {
    if x in w.store then 8 * |w.store[x]| else 0
  }

  ghost function PlaceOf(places: seq<int>, end: int, i: nat): int {
    if i < |places| then places[i] else end
  }

  /** `objs`, placed at `places`, fill the range from `base` to `end` without gap or overlap. */
  ghost predicate Tiles(w: World, objs: seq<Addr>, places: seq<Addr>, base: int, end: int) {
    && |objs| == |places|
    && PlaceOf(places, end, 0) == base
    && forall i | 0 <= i < |objs| :: places[i] + SizeOf(w, objs[i]) == PlaceOf(places, end, i + 1)
  }

  ghost predicate RegionsOk(w: World) {
    && 0 < w.fromBase <= w.fromEnd <= w.fromBase + w.active
    && 0 < w.toBase
    && (w.fromBase + w.active <= w.toBase || w.toBase + w.active <= w.fromBase)
    && w.toBase % 8 == 0 && w.fromBase % 8 == 0
  }

  ghost predicate SpacesOk(w: World) {
    && RegionsOk(w)
    && Tiles(w, w.layout, w.layout, w.fromBase, w.fromEnd)
    && Distinct(w.layout)
    && (forall a | a in w.layout :: w.fromBase <= a < w.fromEnd && a % 8 == 0)
    && (forall a | a in w.large :: a % 8 == 0 && a > 0)
    && (forall a | a in w.large :: !(w.fromBase <= a < w.fromBase + w.active))
    && (forall a | a in w.large :: !(w.toBase <= a < w.toBase + w.active))
  }

  ghost predicate ObjectsOk(w: World) {
    && (forall a | a in w.layout :: a in w.store && |w.store[a]| > 0)
    && (forall a | a in w.large :: a in w.store && |w.store[a]| > 0)
    && (forall e | e in w.ephemerons :: e in w.layout && |w.store[e]| == 6)
  }

  /** The slots whose contents the collector replaces by new addresses. */
  ghost predicate Traced(w: World, x: Addr, j: int) {
    if x in w.ephemerons then j == CHAIN || j == KEY || j == VALUE
    else x in w.slots && j in w.slots[x]
  }

  /** The old word whose image a traced slot ends up holding. */
  ghost function Target(w: World, x: Addr, j: int): int {
    if x in w.ephemerons && j == CHAIN && x in w.next then w.next[x] else Word(w, x, j)
  }

  ghost predicate Dead(w: World, e: Addr) {
    Word(w, e, KEY) == 0
  }

  ghost predicate RefsOk(w: World) {
    && (forall x, j | Known(w, x) && Traced(w, x, j) && !(x in w.ephemerons && Dead(w, x) && j == VALUE) ::
          0 < 8 * j < SizeOf(w, x) && RefOk(w, Target(w, x, j)))
    && (forall i | 0 <= i < |w.roots| :: RefOk(w, w.roots[i]))
    && w.nbuckets > 0
    && (forall a :: 0 <= w.hash(a) < w.nbuckets)
  }

  ghost predicate WellFormed(w: World) {
    && ObjectsOk(w)
    && SpacesOk(w)
    && RefsOk(w)
  }

  // ----- liveness ------------------------------------------------------------------------

  ghost predicate Holds(S: set<Addr>, word: int) {
    Pointer(word) ==> word in S
  }

  ghost predicate EdgesClosed(w: World, S: set<Addr>, x: Addr) {
    if x in w.ephemerons then
      && Holds(S, Target(w, x, CHAIN))
      && (!Dead(w, x) && Holds(S, Target(w, x, KEY)) ==> Holds(S, Target(w, x, VALUE)))
    else
      forall j | Traced(w, x, j) :: Holds(S, Target(w, x, j))
  }

  /** `S` contains the roots and is closed under strong edges and under "the ephemeron and its
      key are in, so its value is in". */
  ghost predicate Closed(w: World, S: set<Addr>) {
    && (forall i | 0 <= i < |w.roots| :: Holds(S, w.roots[i]))
    && (forall x | x in S :: EdgesClosed(w, S, x))
  }

  /** No closed set misses any of `live`. */
  ghost predicate Needed(w: World, live: set<Addr>) {
    forall S: set<Addr> | Closed(w, S) :: live <= S
  }

  // ----- the invariant -------------------------------------------------------------------

  ghost predicate Found(at: map<Addr, Addr>, word: int) {
    Pointer(word) ==> word in at
  }

  ghost function Image(at: map<Addr, Addr>, word: int): int {
    if Pointer(word) && word in at then at[word] else word
  }

  ghost function Code(s: Status): int {
    match s
    case Finished => 0
    case Claimed => 1
    case Pending => 2
    case Resolved => 3
  }

  /** What word `j` of the current version of `x` holds. */
  ghost function Now(w: World, g: Progress, x: Addr, j: int): int {
    if (x, j) in g.done then Image(g.at, Target(w, x, j))
    else if x in g.status && j == STATE then Code(g.status[x])
    else if x in g.status && j == EPOCH then w.epoch
    else if x in g.status then Target(w, x, j)
    else Word(w, x, j)
  }

  ghost predicate Shows(w: World, g: Progress, x: Addr, o: Object) {
    8 * |o| == SizeOf(w, x) && forall j | 0 <= j < |o| :: o[j] == Now(w, g, x, j)
  }

  /** Forwarding words and marks say exactly which objects have been found. */
  ghost predicate ForwardOk(w: World, m: Memory, g: Progress) {
    && (forall x | x in g.at :: Known(w, x))
    && (forall o | o in w.layout && o !in g.at && o in w.store :: o in m.store && m.store[o] == w.store[o])
    && (forall o | o in w.layout && o in g.at && o in w.store && |w.store[o]| > 0 ::
          o in m.store && m.store[o] == w.store[o][0 := g.at[o]])
    && m.marked <= w.large
    && (forall x | x in w.large :: x in g.at <==> x in m.marked)
    && (forall x | x in w.large && x in g.at :: g.at[x] == x)
    && (forall x | x in w.large && x !in g.at && x in w.store :: x in m.store && m.store[x] == w.store[x])
  }

  /** Bytes of the listed objects that have not been copied yet. */
  ghost function Unmoved(w: World, objs: seq<Addr>, at: map<Addr, Addr>): (r: int)
    ensures r >= 0
  {
    if objs == [] then 0
    else (if objs[0] in at then 0 else SizeOf(w, objs[0])) + Unmoved(w, objs[1..], at)
  }

  /** The copies tile the used part of to-space, and what is left to copy still fits. */
  ghost predicate CopiesOk(w: World, m: Memory, g: Progress) {
    && Tiles(w, g.copies, g.places, w.toBase, m.hp)
    && Distinct(g.copies)
    && w.toBase <= m.hp && m.hp % 8 == 0
    && Unmoved(w, w.layout, g.at) + (m.hp - w.toBase) == w.fromEnd - w.fromBase
  }

  ghost predicate PlacesOk(w: World, m: Memory, g: Progress) {
    && |g.copies| == |g.places|
    && (forall i | 0 <= i < |g.copies| :: g.copies[i] in w.layout && g.copies[i] in g.at && g.at[g.copies[i]] == g.places[i])
    && (forall o | o in w.layout && o in g.at :: o in g.copies && w.toBase <= g.at[o] < m.hp && g.at[o] % 8 == 0)
    && (forall x, y | x in g.at && y in g.at && x != y :: g.at[x] != g.at[y])
  }

  ghost predicate Contents(w: World, m: Memory, g: Progress) {
    forall x | x in g.at :: g.at[x] in m.store && Shows(w, g, x, m.store[g.at[x]])
  }

  ghost predicate DoneOk(w: World, g: Progress) {
    forall x, j | (x, j) in g.done ::
      && x in g.at
      && Traced(w, x, j)
      && Found(g.at, Target(w, x, j))
      && (x in w.ephemerons ==> x in g.status)
  }

  ghost predicate StatusOk(w: World, g: Progress, e: Addr)
    requires e in g.status
  {
    && e in g.at
    && e in w.ephemerons
    && match g.status[e]
       case Claimed => ((e, VALUE) in g.done ==> (e, KEY) in g.done) && (Dead(w, e) ==> (e, KEY) !in g.done)
       case Pending => Pointer(Word(w, e, KEY)) && (e, CHAIN) in g.done && (e, KEY) !in g.done && (e, VALUE) !in g.done
       case Resolved => !Dead(w, e) && (e, CHAIN) in g.done && (e, KEY) in g.done
       case Finished => (e, CHAIN) in g.done && ((e, KEY) in g.done <==> !Dead(w, e)) && ((e, VALUE) in g.done <==> !Dead(w, e))
  }

  /** `link` is the new address of `e`, an ephemeron being traced. */
  ghost predicate Names(g: Progress, link: Addr, e: Addr) {
    e in g.status && e in g.at && g.at[e] == link
  }

  ghost predicate Published(g: Progress, link: Addr) {
    exists e :: Names(g, link, e) && !g.status[e].Claimed?
  }

  ghost predicate Queued(g: Progress, link: Addr) {
    exists e :: Names(g, link, e) && g.status[e].Resolved?
  }

  ghost function BucketOf(w: World, e: Addr): int {
    w.hash(Word(w, e, KEY))
  }

  /** Pending ephemerons are in their key's bucket. */
  ghost predicate BucketsOk(w: World, m: Memory, g: Progress) {
    && |m.buckets| == w.nbuckets
    && (forall e | e in g.status && g.status[e].Pending? ::
          e in g.at && 0 <= BucketOf(w, e) < |m.buckets| && g.at[e] in m.buckets[BucketOf(w, e)])
    && (forall b, i | 0 <= b < |m.buckets| && 0 <= i < |m.buckets[b]| ::
          Published(g, m.buckets[b][i]))
  }

  /** Resolved ephemerons are queued exactly once. */
  ghost predicate QueueOk(queue: seq<Addr>, g: Progress) {
    && (forall i | 0 <= i < |queue| :: Queued(g, queue[i]))
    && (forall e | e in g.status && g.status[e].Resolved? :: e in g.at && g.at[e] in queue)
    && Distinct(queue)
  }

  ghost predicate RootsOk(w: World, m: Memory, g: Progress) {
    && |m.roots| == |w.roots|
    && forall i | 0 <= i < |w.roots| ::
         && m.roots[i] == (if i < g.rootsDone then Image(g.at, w.roots[i]) else w.roots[i])
         && (i < g.rootsDone ==> Found(g.at, w.roots[i]))
  }

  /** While keys are checked eagerly, no pending ephemeron has a live key, `busy` excepted. */
  ghost predicate KeysOk(w: World, m: Memory, g: Progress, busy: Addr) {
    m.checking ==>
      forall e | e in g.status && g.status[e].Pending? && Word(w, e, KEY) != busy :: Word(w, e, KEY) !in g.at
  }

  ghost predicate GreyOk(w: World, g: Progress) {
    && g.started <= |g.copies|
    && forall i | g.started <= i < |g.copies| :: Untouched(g, g.copies[i])
  }

  ghost predicate Untouched(g: Progress, x: Addr) {
    x !in g.status && forall j :: (x, j) !in g.done
  }

  ghost predicate Inv(w: World, m: Memory, g: Progress, busy: Addr) {
    && ForwardOk(w, m, g)
    && CopiesOk(w, m, g)
    && PlacesOk(w, m, g)
    && Contents(w, m, g)
    && DoneOk(w, g)
    && (forall e | e in g.status :: StatusOk(w, g, e))
    && BucketsOk(w, m, g)
    && QueueOk(m.resolved + g.work, g)
    && RootsOk(w, m, g)
    && Needed(w, g.at.Keys)
    && KeysOk(w, m, g, busy)
    && GreyOk(w, g)
  }
}
