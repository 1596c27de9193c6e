/** Parallel evacuation: workers race to forward edges into copied objects.  An object's tag word is
    its lock: odd while it stays, zero while someone copies it, the new address once it has moved.
    New addresses come from blocks that each worker bumps through on its own. */
module Evacuation {
  import opened Basics
  import opened Runs

  type Obj = int    // address of an object in the space being evacuated
  type Edge = int

  const REGION := 65536
  const BLOCK := 131072
  const GRANULE := 8
  const LARGE_THRESHOLD := 8192

  /** The objects as they were, tag word first; what each edge pointed to; which half is copied to. */
  datatype Heap = Heap(objs: map<Obj, seq<int>>, edges: map<Edge, Obj>, half: int)

  /** A worker's allocator; block 0 is none. */
  datatype Allocator = Allocator(block: int, hp: int, limit: int)

  /** The block lists of the space; `used` is the byte count a partly full block remembers. */
  datatype Space = Space(empty: seq<int>, paged: seq<int>, partly: seq<int>, full: seq<int>, used: map<int, int>)

  datatype Where = Nowhere | Empty | Paged | Partly | Full | Held(id: int)

  /** Memory handed out at an address: from which block, how many bytes. */
  datatype Chunk = Chunk(block: int, size: int)

  /** Recorded for the proof: which list each block is on, how far it is filled, and what was handed out. */
  datatype Layout = Layout(place: map<int, Where>, top: map<int, int>, chunks: map<int, Chunk>)

  ghost predicate HeapOk(c: Heap) {
    && (c.half == 0 || c.half == 1)
    && (forall o | o in c.objs :: o > 0 && |c.objs[o]| > 0 && c.objs[o][0] % 2 == 1 && 8 * |c.objs[o]| <= LARGE_THRESHOLD)
    && (forall e | e in c.edges :: c.edges[e] in c.objs)
  }

  function Base(c: Heap, b: int): int {
    BLOCK * b + REGION * c.half
  }

  function Rounded(n: int): int {
    (n + (GRANULE - 1)) / GRANULE * GRANULE
  }

  function PlaceOf(y: Layout, b: int): Where {
    if b in y.place then y.place[b] else Nowhere
  }

  function TopOf(c: Heap, y: Layout, b: int): int {
    if b in y.top then y.top[b] else Base(c, b)
  }

  function UsedIn(p: Space, b: int): int {
    if b in p.used then p.used[b] else 0
  }

  ghost predicate OnList(q: seq<int>, y: Layout, w: Where) {
    && (forall i | 0 <= i < |q| :: q[i] > 0 && PlaceOf(y, q[i]) == w)
    && (forall i, j | 0 <= i < j < |q| :: q[i] != q[j])
  }

  ghost predicate SpaceOk(c: Heap, p: Space, y: Layout) {
    && OnList(p.empty, y, Empty) && OnList(p.paged, y, Paged) && OnList(p.partly, y, Partly)
    && (forall b | PlaceOf(y, b) == Empty || PlaceOf(y, b) == Paged :: TopOf(c, y, b) == Base(c, b))
    && (forall b | PlaceOf(y, b) == Partly ::
          TopOf(c, y, b) == Base(c, b) + UsedIn(p, b) && UsedIn(p, b) % GRANULE == 0 && 0 <= UsedIn(p, b) <= REGION)
  }

  ghost predicate AllocatorOk(c: Heap, y: Layout, id: int, m: Allocator) {
    if m.block == 0 then m.hp == 0 && m.limit == 0
    else
      && m.block > 0 && PlaceOf(y, m.block) == Held(id) && TopOf(c, y, m.block) == m.hp
      && Base(c, m.block) <= m.hp <= m.limit == Base(c, m.block) + REGION && m.hp % GRANULE == 0
  }

  ghost predicate ChunkOk(c: Heap, y: Layout, a: int, k: Chunk) {
    && k.size > 0 && a > 0 && a % GRANULE == 0 && k.block > 0 && PlaceOf(y, k.block) != Nowhere
    && Base(c, k.block) <= a && a + k.size <= TopOf(c, y, k.block) <= Base(c, k.block) + REGION
  }

  ghost predicate ChunksOk(c: Heap, y: Layout) {
    && (forall a | a in y.chunks :: ChunkOk(c, y, a, y.chunks[a]))
    && (forall a, b | a in y.chunks && b in y.chunks && a < b :: a + y.chunks[a].size <= b)
  }

  // ----- the allocator's steps -------------------------------------------------------------

  function Put(y: Layout, b: int, w: Where): Layout {
    y.(place := y.place[b := w])
  }

  /** The block is given up as full. */
  ghost predicate ReleaseFull(p: Space, m: Allocator, y: Layout, p2: Space, m2: Allocator, y2: Layout) {
    && p2 == p.(full := [m.block] + p.full)
    && m2 == Allocator(0, 0, 0)
    && y2 == Put(y, m.block, Full)
  }

  /** At the end of its work a worker keeps a partly full block for later; a cursor that reached the
      end of the region leaves no low bits, and the block goes with the full ones. */
  ghost predicate ReleasePartly(p: Space, m: Allocator, y: Layout, p2: Space, m2: Allocator, y2: Layout) {
    && m2 == Allocator(0, 0, 0)
    && var used := m.hp % REGION;
       if used != 0 then p2 == p.(partly := [m.block] + p.partly, used := p.used[m.block := used]) && y2 == Put(y, m.block, Partly)
       else p2 == p.(full := [m.block] + p.full) && y2 == Put(y, m.block, Full)
  }

  ghost predicate AcquirePartly(c: Heap, id: int, p: Space, y: Layout, p2: Space, m2: Allocator, y2: Layout) {
    && p.partly != []
    && var b := p.partly[0];
       && p2 == p.(partly := p.partly[1..])
       && m2 == Allocator(b, Base(c, b) + UsedIn(p, b), Base(c, b) + REGION)
       && y2 == Put(y, b, Held(id))
  }

  ghost predicate AcquireEmpty(c: Heap, id: int, p: Space, y: Layout, p2: Space, m2: Allocator, y2: Layout) {
    && (p.empty != [] || p.paged != [])
    && var b := if p.empty != [] then p.empty[0] else p.paged[0];
       && p2 == (if p.empty != [] then p.(empty := p.empty[1..]) else p.(paged := p.paged[1..])).(used := p.used[b := 0])
       && m2 == Allocator(b, Base(c, b), Base(c, b) + REGION)
       && y2 == Put(y, b, Held(id))
  }

  function Bump(m: Allocator, n: int): Allocator {
    m.(hp := m.hp + n)
  }

  function Carved(y: Layout, m: Allocator, n: int): Layout {
    y.(top := y.top[m.block := m.hp + n], chunks := y.chunks[m.hp := Chunk(m.block, n)])
  }

  /** Moving one block from place to place keeps every chunk and every other allocator. */
  lemma PutKeeps(c: Heap, y: Layout, b: int, w: Where)
    requires ChunksOk(c, y) && w != Nowhere
    ensures ChunksOk(c, Put(y, b, w))
  {
    hide Base;
    var y2 := Put(y, b, w);
    forall a | a in y2.chunks ensures ChunkOk(c, y2, a, y2.chunks[a]) {
      assert ChunkOk(c, y, a, y.chunks[a]);
    }
  }

  lemma PutOthers(c: Heap, y: Layout, b: int, w: Where, id: int, m: Allocator)
    requires AllocatorOk(c, y, id, m) && m.block != b
    ensures AllocatorOk(c, Put(y, b, w), id, m)
  {
    hide Base;
  }

  lemma PutList(q: seq<int>, y: Layout, b: int, w: Where, listed: Where)
    requires OnList(q, y, listed) && PlaceOf(y, b) != listed
    ensures OnList(q, Put(y, b, w), listed)
  {
  }

  lemma PutFirst(q: seq<int>, y: Layout, b: int, w: Where)
    requires OnList(q, y, w) && PlaceOf(y, b) != w && b > 0
    ensures OnList([b] + q, Put(y, b, w), w)
  {
  }

  lemma PutAway(q: seq<int>, y: Layout, w: Where, listed: Where)
    requires OnList(q, y, listed) && q != []
    ensures OnList(q[1..], Put(y, q[0], w), listed)
  {
  }

  /** The blocks of other workers' allocators are other blocks. */
  lemma OthersKeep(c: Heap, y: Layout, b: int, w: Where, id: int)
    requires PlaceOf(y, b) == Held(id) || !PlaceOf(y, b).Held?
    ensures forall i, m: Allocator | i != id && AllocatorOk(c, y, i, m) :: AllocatorOk(c, Put(y, b, w), i, m)
  {
    hide Base, TopOf, PlaceOf;
    forall i, m: Allocator | i != id && AllocatorOk(c, y, i, m) ensures AllocatorOk(c, Put(y, b, w), i, m) {
      if m.block == 0 {
      } else {
        PutOthers(c, y, b, w, i, m);
      }
    }
  }

  lemma ReleaseFullOk(c: Heap, id: int, p: Space, m: Allocator, y: Layout, p2: Space, m2: Allocator, y2: Layout)
    requires SpaceOk(c, p, y) && AllocatorOk(c, y, id, m) && ChunksOk(c, y) && m.block != 0
    requires ReleaseFull(p, m, y, p2, m2, y2)
    ensures SpaceOk(c, p2, y2) && AllocatorOk(c, y2, id, m2) && ChunksOk(c, y2)
    ensures forall i, n: Allocator | i != id && AllocatorOk(c, y, i, n) :: AllocatorOk(c, y2, i, n)
  {
    hide Base, ChunksOk, OnList;
    PutKeeps(c, y, m.block, Full);
    OthersKeep(c, y, m.block, Full, id);
    PutList(p.empty, y, m.block, Full, Empty);
    PutList(p.paged, y, m.block, Full, Paged);
    PutList(p.partly, y, m.block, Full, Partly);
    forall b | PlaceOf(y2, b) == Partly
      ensures TopOf(c, y2, b) == Base(c, b) + UsedIn(p2, b) && UsedIn(p2, b) % GRANULE == 0 && 0 <= UsedIn(p2, b) <= REGION
    {
      assert PlaceOf(y, b) == Partly;
    }
  }

  lemma LowPart(q: int, r: int)
    requires 0 <= r < REGION
    ensures (REGION * q + r) % REGION == r
  {
  }

  lemma RegionPart(c: Heap, b: int, hp: int)
    requires Base(c, b) <= hp <= Base(c, b) + REGION
    ensures hp % REGION == if hp == Base(c, b) + REGION then 0 else hp - Base(c, b)
  {
    var q := 2 * b + c.half;
    assert Base(c, b) == REGION * q;
    if hp == Base(c, b) + REGION {
      LowPart(q + 1, 0);
    } else {
      LowPart(q, hp - REGION * q);
    }
  }

  lemma Granules(x: int, y: int)
    requires x % GRANULE == 0 && y % GRANULE == 0
    ensures (x + y) % GRANULE == 0 && (x - y) % GRANULE == 0
  {
  }

  lemma BaseAligned(c: Heap, b: int)
    ensures Base(c, b) % GRANULE == 0
  {
    assert Base(c, b) == GRANULE * (16384 * b + 8192 * c.half);
  }

  lemma ReleasePartlyOk(c: Heap, id: int, p: Space, m: Allocator, y: Layout, p2: Space, m2: Allocator, y2: Layout)
    requires HeapOk(c) && SpaceOk(c, p, y) && AllocatorOk(c, y, id, m) && ChunksOk(c, y) && m.block != 0
    requires ReleasePartly(p, m, y, p2, m2, y2)
    ensures SpaceOk(c, p2, y2) && AllocatorOk(c, y2, id, m2) && ChunksOk(c, y2)
    ensures forall i, n: Allocator | i != id && AllocatorOk(c, y, i, n) :: AllocatorOk(c, y2, i, n)
  {
    RegionPart(c, m.block, m.hp);
    hide HeapOk, Base, ChunksOk, OnList;
    if m.hp % REGION == 0 {
      ReleaseFullOk(c, id, p, m, y, p2, m2, y2);
    } else {
      BaseAligned(c, m.block);
      Granules(m.hp, Base(c, m.block));
      PutKeeps(c, y, m.block, Partly);
      OthersKeep(c, y, m.block, Partly, id);
      PutList(p.empty, y, m.block, Partly, Empty);
      PutList(p.paged, y, m.block, Partly, Paged);
      PutFirst(p.partly, y, m.block, Partly);
    }
  }

  lemma AcquirePartlyOk(c: Heap, id: int, p: Space, y: Layout, p2: Space, m2: Allocator, y2: Layout)
    requires HeapOk(c) && SpaceOk(c, p, y) && ChunksOk(c, y) && AcquirePartly(c, id, p, y, p2, m2, y2)
    ensures SpaceOk(c, p2, y2) && AllocatorOk(c, y2, id, m2) && ChunksOk(c, y2)
    ensures forall i, n: Allocator | i != id && AllocatorOk(c, y, i, n) :: AllocatorOk(c, y2, i, n)
  {
    hide HeapOk, Base, ChunksOk;
    var b := p.partly[0];
    BaseAligned(c, b);
    Granules(Base(c, b), UsedIn(p, b));
    PutKeeps(c, y, b, Held(id));
    OthersKeep(c, y, b, Held(id), id);
    PutList(p.empty, y, b, Held(id), Empty);
    PutList(p.paged, y, b, Held(id), Paged);
    PutAway(p.partly, y, Held(id), Partly);
  }

  lemma AcquireEmptyOk(c: Heap, id: int, p: Space, y: Layout, p2: Space, m2: Allocator, y2: Layout)
    requires HeapOk(c) && SpaceOk(c, p, y) && ChunksOk(c, y) && AcquireEmpty(c, id, p, y, p2, m2, y2)
    ensures SpaceOk(c, p2, y2) && AllocatorOk(c, y2, id, m2) && ChunksOk(c, y2)
    ensures forall i, n: Allocator | i != id && AllocatorOk(c, y, i, n) :: AllocatorOk(c, y2, i, n)
    ensures m2.block != 0 && m2.hp + REGION == m2.limit
  {
    hide HeapOk, Base, ChunksOk;
    var b := m2.block;
    BaseAligned(c, b);
    PutKeeps(c, y, b, Held(id));
    OthersKeep(c, y, b, Held(id), id);
    PutList(p.partly, y, b, Held(id), Partly);
    if p.empty != [] {
      PutAway(p.empty, y, Held(id), Empty);
      PutList(p.paged, y, b, Held(id), Paged);
    } else {
      PutAway(p.paged, y, Held(id), Paged);
      PutList(p.empty, y, b, Held(id), Empty);
    }
  }

  /** What a bump hands out is new memory. */
  lemma BumpChunks(c: Heap, id: int, m: Allocator, y: Layout, n: int)
    requires AllocatorOk(c, y, id, m) && ChunksOk(c, y) && m.block != 0 && HeapOk(c)
    requires 0 < n && m.hp + n <= m.limit
    ensures ChunksOk(c, Carved(y, m, n)) && m.hp !in y.chunks
  {
    hide HeapOk;
    var y2 := Carved(y, m, n);
    assert c.half == 0 || c.half == 1 by { HalfOk(c); }
    forall a | a in y.chunks
      ensures a != m.hp && ChunkOk(c, y2, a, y.chunks[a])
      ensures a < m.hp ==> a + y.chunks[a].size <= m.hp
      ensures m.hp < a ==> m.hp + n <= a
    {
      assert ChunkOk(c, y, a, y.chunks[a]);
      BlocksApart(c, m.block, y.chunks[a].block);
    }
    assert ChunkOk(c, y2, m.hp, y2.chunks[m.hp]);
  }

  lemma HalfOk(c: Heap)
    requires HeapOk(c)
    ensures c.half == 0 || c.half == 1
  {
  }

  lemma BlocksApart(c: Heap, b: int, d: int)
    ensures b < d ==> Base(c, b) + REGION < Base(c, d)
    ensures d < b ==> Base(c, d) + REGION < Base(c, b)
    ensures b > 0 && c.half >= 0 ==> Base(c, b) > 0
  {
  }

  lemma BumpOk(c: Heap, id: int, p: Space, m: Allocator, y: Layout, n: int)
    requires HeapOk(c) && SpaceOk(c, p, y) && AllocatorOk(c, y, id, m) && ChunksOk(c, y) && m.block != 0
    requires 0 < n && n % GRANULE == 0 && m.hp + n <= m.limit
    ensures SpaceOk(c, p, Carved(y, m, n)) && AllocatorOk(c, Carved(y, m, n), id, Bump(m, n)) && ChunksOk(c, Carved(y, m, n))
    ensures forall i, k: Allocator | i != id && AllocatorOk(c, y, i, k) :: AllocatorOk(c, Carved(y, m, n), i, k)
    ensures m.hp !in y.chunks
  {
    hide HeapOk, Base, ChunksOk;
    BumpChunks(c, id, m, y, n);
    Granules(m.hp, n);
  }

  // ----- the forwarding protocol -----------------------------------------------------------

  /** Forward an edge, or only update it if its object has already moved. */
  datatype Mode = Forward | IfTraced

  /** What a call reports: this worker moved the object, another had, there was no memory for the copy, or
      the object had not been moved. */
  datatype Outcome = Evacuated | Updated | Failed | NotMoved

  /** Where a worker is, and after a call what it reported. */
  datatype Pc =
    | Idle(report: Option<Outcome>)
    | Look(mode: Mode, e: Edge, o: Obj)
    | Busy(mode: Mode, e: Edge, o: Obj)
    | Claim(e: Edge, o: Obj, data: int)
    | Alloc(e: Edge, o: Obj, data: int)
    | TryPartly(e: Edge, o: Obj, data: int)
    | TryEmpty(e: Edge, o: Obj, data: int)
    | FreshBlock(e: Edge, o: Obj, data: int)
    | Copy(e: Edge, o: Obj, data: int, to: int, i: int)
    | WriteTag(e: Edge, o: Obj, data: int, to: int)
    | Commit(e: Edge, o: Obj, data: int, to: int)
    | Abort(e: Edge, o: Obj, data: int)
    | Update(e: Edge, o: Obj, addr: int, out: Outcome)

  datatype Worker = Worker(pc: Pc, m: Allocator)

  /** Shared memory: tag words of the old objects, the words of new memory, and the edges.  Recorded
      for the proof: who is copying what, which object each chunk is for, and every evacuation. */
  datatype State = State(
    workers: map<int, Worker>, space: Space, layout: Layout, tags: map<Obj, int>, mem: map<int, int>,
    slots: map<Edge, int>, owner: map<Obj, int>, home: map<int, Obj>, evacuated: multiset<Obj>)

  function Original(c: Heap, o: Obj): int {
    if o in c.objs && |c.objs[o]| > 0 then c.objs[o][0] else 1
  }

  function TagOf(c: Heap, s: State, o: Obj): int {
    if o in s.tags then s.tags[o] else Original(c, o)
  }

  function SlotOf(c: Heap, s: State, e: Edge): int {
    if e in s.slots then s.slots[e] else if e in c.edges then c.edges[e] else 0
  }

  function WordAt(mem: map<int, int>, a: int, i: int): int {
    if a + 8 * i in mem then mem[a + 8 * i] else 0
  }

  function Size(c: Heap, o: Obj): int {
    if o in c.objs then |c.objs[o]| else 0
  }

  /** Word `i` of the old object as it now stands. */
  function OldWord(c: Heap, s: State, o: Obj, i: int): int {
    if i == 0 then TagOf(c, s, o) else if o in c.objs && 0 < i < |c.objs[o]| then c.objs[o][i] else 0
  }

  ghost predicate Init(c: Heap, s: State) {
    && HeapOk(c) && SpaceOk(c, s.space, s.layout)
    && (forall id | id in s.workers :: s.workers[id] == Worker(Idle(None), Allocator(0, 0, 0)))
    && s.tags == map[] && s.slots == map[] && s.layout.chunks == map[] && s.home == map[] && s.owner == map[]
    && s.evacuated == multiset{}
  }

  function Go(s: State, id: int, pc: Pc): (r: State)
    requires id in s.workers
    ensures r.tags == s.tags && r.evacuated == s.evacuated
  {
    s.(workers := s.workers[id := s.workers[id].(pc := pc)])
  }

  function With(s: State, id: int, pc: Pc, m: Allocator): (r: State)
    ensures r.tags == s.tags && r.evacuated == s.evacuated
  {
    s.(workers := s.workers[id := Worker(pc, m)])
  }

  /** What a worker does with a tag it has read. */
  function Read(mode: Mode, e: Edge, o: Obj, tag: int): Pc {
    if tag == 0 then Busy(mode, e, o)
    else if tag % 2 == 0 then Update(e, o, tag, Updated)
    else if mode == Forward then Claim(e, o, tag)
    else Idle(Some(NotMoved))
  }

  ghost predicate Start(c: Heap, s: State, s2: State, id: int)
    requires id in s.workers && id in s2.workers
  {
    || (exists e, mode | e in c.edges && SlotOf(c, s, e) == c.edges[e] :: s2 == Go(s, id, Look(mode, e, c.edges[e])))
    || (s.workers[id].m.block != 0
        && ReleasePartly(s.space, s.workers[id].m, s.layout, s2.space, s2.workers[id].m, s2.layout)
        && s2 == With(s, id, s.workers[id].pc, s2.workers[id].m).(space := s2.space, layout := s2.layout))
  }

  /** Room for `o` in the worker's block: carve it out and start copying. */
  function Take(c: Heap, s: State, id: int, e: Edge, o: Obj, data: int): (r: State)
    requires id in s.workers
    ensures r.tags == s.tags && r.evacuated == s.evacuated
  {
    var m, n := s.workers[id].m, Rounded(8 * Size(c, o));
    With(s, id, Copy(e, o, data, m.hp, 0), Bump(m, n)).(layout := Carved(s.layout, m, n), home := s.home[m.hp := o])
  }

  ghost predicate Allocate(c: Heap, s: State, s2: State, id: int)
    requires id in s.workers && id in s2.workers
  {
    var m, m2 := s.workers[id].m, s2.workers[id].m;
    match s.workers[id].pc
    case Alloc(e, o, data) =>
      if m.hp + Rounded(8 * Size(c, o)) <= m.limit then s2 == Take(c, s, id, e, o, data)
      else if m.block == 0 then s2 == Go(s, id, TryPartly(e, o, data))
      else
        && ReleaseFull(s.space, m, s.layout, s2.space, m2, s2.layout)
        && s2 == With(s, id, TryPartly(e, o, data), m2).(space := s2.space, layout := s2.layout)
    case TryPartly(e, o, data) =>
      if s.space.partly == [] then s2 == Go(s, id, TryEmpty(e, o, data))
      else
        && AcquirePartly(c, id, s.space, s.layout, s2.space, m2, s2.layout)
        && s2 == With(s, id, Alloc(e, o, data), m2).(space := s2.space, layout := s2.layout)
    case TryEmpty(e, o, data) =>
      if s.space.empty == [] && s.space.paged == [] then s2 == Go(s, id, Abort(e, o, data))
      else
        && AcquireEmpty(c, id, s.space, s.layout, s2.space, m2, s2.layout)
        && s2 == With(s, id, FreshBlock(e, o, data), m2).(space := s2.space, layout := s2.layout)
    case FreshBlock(e, o, data) => s2 == Take(c, s, id, e, o, data)   // no check: any small object fits
    case _ => false
  }

  ghost predicate Forwarding(c: Heap, s: State, s2: State, id: int)
    requires id in s.workers
  {
    match s.workers[id].pc
    case Look(mode, e, o) => s2 == Go(s, id, Read(mode, e, o, TagOf(c, s, o)))
    case Busy(mode, e, o) => s2 == Go(s, id, Read(mode, e, o, TagOf(c, s, o)))
    case Claim(e, o, data) =>
      var tag := TagOf(c, s, o);
      if tag == data then s2 == Go(s, id, Alloc(e, o, data)).(tags := s.tags[o := 0], owner := s.owner[o := id])
      else s2 == Go(s, id, if tag == 0 then Busy(Forward, e, o) else Update(e, o, tag, Updated))
    case Copy(e, o, data, to, i) =>
      if i < Size(c, o) then s2 == Go(s, id, Copy(e, o, data, to, i + 1)).(mem := s.mem[to + 8 * i := OldWord(c, s, o, i)])
      else s2 == Go(s, id, WriteTag(e, o, data, to))
    case WriteTag(e, o, data, to) => s2 == Go(s, id, Commit(e, o, data, to)).(mem := s.mem[to := data])
    case Commit(e, o, data, to) =>
      s2 == Go(s, id, Update(e, o, to, Evacuated)).(tags := s.tags[o := to], owner := s.owner - {o},
                                         evacuated := s.evacuated + multiset{o})
    case Abort(e, o, data) => s2 == Go(s, id, Idle(Some(Failed))).(tags := s.tags[o := data], owner := s.owner - {o})
    case Update(e, o, addr, out) => s2 == Go(s, id, Idle(Some(out))).(slots := s.slots[e := addr])
    case _ => false
  }

  ghost predicate Step(c: Heap, s: State, s2: State, id: int) {
    id in s.workers && id in s2.workers
    && ((s.workers[id].pc.Idle? && Start(c, s, s2, id)) || Allocate(c, s, s2, id) || Forwarding(c, s, s2, id))
  }

  // ----- the invariant ---------------------------------------------------------------------

  /** The object a worker is copying. */
  function Owned(pc: Pc): Obj {
    match pc
    case Alloc(_, o, _) => o
    case TryPartly(_, o, _) => o
    case TryEmpty(_, o, _) => o
    case FreshBlock(_, o, _) => o
    case Copy(_, o, _, _, _) => o
    case WriteTag(_, o, _, _) => o
    case Commit(_, o, _, _) => o
    case Abort(_, o, _) => o
    case _ => 0
  }

  ghost predicate OwnersOk(workers: map<int, Worker>, owner: map<Obj, int>) {
    && 0 !in owner
    && (forall o | o in owner :: owner[o] in workers && Owned(workers[owner[o]].pc) == o)
    && (forall id | id in workers && Owned(workers[id].pc) != 0 ::
          Owned(workers[id].pc) in owner && owner[Owned(workers[id].pc)] == id)
  }

  /** The first `n` words of the object, tag aside, are in new memory. */
  ghost predicate Copied(c: Heap, mem: map<int, int>, o: Obj, to: int, n: int) {
    o in c.objs && n <= |c.objs[o]| && forall i | 1 <= i < n :: WordAt(mem, to, i) == c.objs[o][i]
  }

  ghost predicate WholeCopy(c: Heap, mem: map<int, int>, o: Obj, to: int) {
    o in c.objs && forall i | 0 <= i < |c.objs[o]| :: WordAt(mem, to, i) == c.objs[o][i]
  }

  ghost predicate ChunkFor(c: Heap, s: State, o: Obj, a: int) {
    && a in s.layout.chunks && a in s.home && s.home[a] == o && s.layout.chunks[a].size >= 8 * Size(c, o)
    && a > 0 && a % 2 == 0
  }

  ghost predicate Moved(c: Heap, s: State, o: Obj) {
    && s.evacuated[o] == 1 && TagOf(c, s, o) != 0 && TagOf(c, s, o) % 2 == 0
    && ChunkFor(c, s, o, TagOf(c, s, o)) && WholeCopy(c, s.mem, o, TagOf(c, s, o))
  }

  ghost predicate ObjOk(c: Heap, s: State, o: Obj) {
    if o in s.owner then TagOf(c, s, o) == 0 && s.evacuated[o] == 0
    else (TagOf(c, s, o) == Original(c, o) && s.evacuated[o] == 0) || Moved(c, s, o)
  }

  ghost predicate OnEdge(c: Heap, e: Edge, o: Obj) {
    e in c.edges && c.edges[e] == o && o in c.objs
  }

  ghost predicate PcOk(c: Heap, s: State, pc: Pc, m: Allocator) {
    && (pc.Idle? || OnEdge(c, pc.e, pc.o))
    && (Owned(pc) != 0 || pc.Claim? ==> pc.data == Original(c, pc.o))
    && match pc {
         case FreshBlock(e, o, data) => m.block != 0 && m.hp + REGION == m.limit
         case Copy(e, o, data, to, i) => 0 <= i <= Size(c, o) && ChunkFor(c, s, o, to) && Copied(c, s.mem, o, to, i)
         case WriteTag(e, o, data, to) => ChunkFor(c, s, o, to) && Copied(c, s.mem, o, to, Size(c, o))
         case Commit(e, o, data, to) => ChunkFor(c, s, o, to) && WholeCopy(c, s.mem, o, to)
         case Update(e, o, addr, out) => s.evacuated[o] == 1 && TagOf(c, s, o) == addr && (out == Updated || out == Evacuated)
         case _ => true
       }
  }

  ghost predicate SlotOk(c: Heap, s: State, e: Edge) {
    e in c.edges ==>
      || SlotOf(c, s, e) == c.edges[e]
      || (s.evacuated[c.edges[e]] == 1 && SlotOf(c, s, e) == TagOf(c, s, c.edges[e]))
  }

  ghost predicate WorkersOk(c: Heap, s: State) {
    forall id | id in s.workers :: AllocatorOk(c, s.layout, id, s.workers[id].m) && PcOk(c, s, s.workers[id].pc, s.workers[id].m)
  }

  ghost predicate ObjsOk(c: Heap, s: State) {
    forall o | o in c.objs :: ObjOk(c, s, o)
  }

  ghost predicate SlotsOk(c: Heap, s: State) {
    forall e :: SlotOk(c, s, e)
  }

  ghost predicate Inv(c: Heap, s: State) {
    && HeapOk(c) && SpaceOk(c, s.space, s.layout) && ChunksOk(c, s.layout)
    && WorkersOk(c, s) && OwnersOk(s.workers, s.owner) && ObjsOk(c, s) && SlotsOk(c, s)
  }

  lemma InitInv(c: Heap, s: State)
    requires Init(c, s)
    ensures Inv(c, s)
  {
    hide SpaceOk, HeapOk;
  }

  // ----- what a step by one worker leaves alone --------------------------------------------

  /** A step may touch one object `o`: its tag, its copy.  What has moved stays moved. */
  ghost predicate Frame(c: Heap, s: State, s2: State, o: Obj) {
    && (forall x | x != o || s.evacuated[x] == 1 :: TagOf(c, s2, x) == TagOf(c, s, x) && s2.evacuated[x] == s.evacuated[x])
    && (forall x | x != o :: x in s.owner <==> x in s2.owner)
    && (forall a | a in s.layout.chunks :: a in s2.layout.chunks && s2.layout.chunks[a] == s.layout.chunks[a])
    && (forall a | a in s.layout.chunks && a in s.home :: a in s2.home && s2.home[a] == s.home[a])
    && (forall a, i | a in s.layout.chunks && a in s.home && s.home[a] != o && 0 <= i && 8 * i < s.layout.chunks[a].size ::
          WordAt(s2.mem, a, i) == WordAt(s.mem, a, i))
  }

  lemma OtherPcKeeps(c: Heap, s: State, s2: State, o: Obj, pc: Pc, m: Allocator)
    requires PcOk(c, s, pc, m) && Frame(c, s, s2, o) && (Owned(pc) != o || o == 0)
    requires HeapOk(c)
    ensures PcOk(c, s2, pc, m)
  {
    hide Original, TagOf, ChunkFor, Copied, WholeCopy;
    match pc
    case Copy(e, x, data, to, i) => SameChunk(c, s, s2, o, x, to); SameCopied(c, s, s2, o, x, to, i);
    case WriteTag(e, x, data, to) => SameChunk(c, s, s2, o, x, to); SameCopied(c, s, s2, o, x, to, Size(c, x));
    case Commit(e, x, data, to) => SameChunk(c, s, s2, o, x, to); SameWhole(c, s, s2, o, x, to);
    case _ =>
  }

  lemma SameChunk(c: Heap, s: State, s2: State, o: Obj, x: Obj, a: int)
    requires Frame(c, s, s2, o) && ChunkFor(c, s, x, a)
    ensures ChunkFor(c, s2, x, a)
  {
  }

  lemma SameCopied(c: Heap, s: State, s2: State, o: Obj, x: Obj, a: int, n: int)
    requires Frame(c, s, s2, o) && ChunkFor(c, s, x, a) && x != o && Copied(c, s.mem, x, a, n)
    ensures Copied(c, s2.mem, x, a, n)
  {
    hide TagOf;
  }

  lemma SameWhole(c: Heap, s: State, s2: State, o: Obj, x: Obj, a: int)
    requires Frame(c, s, s2, o) && ChunkFor(c, s, x, a) && x != o && WholeCopy(c, s.mem, x, a)
    ensures WholeCopy(c, s2.mem, x, a)
  {
    hide TagOf;
  }

  lemma OtherObjKeeps(c: Heap, s: State, s2: State, o: Obj, x: Obj)
    requires Frame(c, s, s2, o) && ObjOk(c, s, x) && x != o
    ensures ObjOk(c, s2, x)
  {
    hide TagOf, Original, WholeCopy, ChunkFor;
    if Moved(c, s, x) {
      SameChunk(c, s, s2, o, x, TagOf(c, s, x));
      SameWhole(c, s, s2, o, x, TagOf(c, s, x));
    }
  }

  /** The general step: one worker moves, the object it holds or takes changes, the rest stays. */
  lemma EffectKeeps(c: Heap, s: State, s2: State, id: int, o: Obj)
    requires Inv(c, s) && id in s.workers && id in s2.workers && s2.workers == s.workers[id := s2.workers[id]]
    requires Frame(c, s, s2, o)
    requires forall i | i in s.workers && i != id :: o == 0 || Owned(s.workers[i].pc) != o
    requires SpaceOk(c, s2.space, s2.layout) && ChunksOk(c, s2.layout)
    requires AllocatorOk(c, s2.layout, id, s2.workers[id].m) && PcOk(c, s2, s2.workers[id].pc, s2.workers[id].m)
    requires forall i, n: Allocator | i != id && AllocatorOk(c, s.layout, i, n) :: AllocatorOk(c, s2.layout, i, n)
    requires OwnersOk(s2.workers, s2.owner) && (o in c.objs ==> ObjOk(c, s2, o))
    requires forall e :: SlotOf(c, s2, e) == SlotOf(c, s, e) || SlotOk(c, s2, e)
    ensures Inv(c, s2)
  {
    hide HeapOk, SpaceOk, ChunksOk, OwnersOk, AllocatorOk, PcOk, ObjOk, Owned;
    forall i | i in s2.workers && i != id
      ensures AllocatorOk(c, s2.layout, i, s2.workers[i].m) && PcOk(c, s2, s2.workers[i].pc, s2.workers[i].m)
    {
      OtherPcKeeps(c, s, s2, o, s.workers[i].pc, s.workers[i].m);
    }
    forall x | x in c.objs ensures ObjOk(c, s2, x) {
      if x != o { OtherObjKeeps(c, s, s2, o, x); }
    }
    forall e ensures SlotOk(c, s2, e) {
      if SlotOf(c, s2, e) == SlotOf(c, s, e) { assert SlotOk(c, s, e); SlotStays(c, s, s2, o, e); }
    }
  }

  lemma SlotStays(c: Heap, s: State, s2: State, o: Obj, e: Edge)
    requires Frame(c, s, s2, o) && SlotOk(c, s, e) && SlotOf(c, s2, e) == SlotOf(c, s, e)
    ensures SlotOk(c, s2, e)
  {
    hide TagOf, SlotOf;
  }

  // ----- every step keeps the invariant ----------------------------------------------------

  lemma OwnersStay(workers: map<int, Worker>, owner: map<Obj, int>, id: int, w: Worker)
    requires OwnersOk(workers, owner) && id in workers && Owned(w.pc) == Owned(workers[id].pc)
    ensures OwnersOk(workers[id := w], owner)
  {
    hide Owned;
  }

  lemma OwnersTake(workers: map<int, Worker>, owner: map<Obj, int>, id: int, w: Worker, o: Obj)
    requires OwnersOk(workers, owner) && id in workers && Owned(workers[id].pc) == 0 && Owned(w.pc) == o
    requires o != 0 && o !in owner
    ensures OwnersOk(workers[id := w], owner[o := id])
    ensures forall i | i in workers :: Owned(workers[i].pc) != o
  {
    hide Owned;
  }

  lemma OwnersDrop(workers: map<int, Worker>, owner: map<Obj, int>, id: int, w: Worker, o: Obj)
    requires OwnersOk(workers, owner) && id in workers && Owned(workers[id].pc) == o && o != 0 && Owned(w.pc) == 0
    ensures OwnersOk(workers[id := w], owner - {o})
    ensures o in owner && owner[o] == id && forall i | i in workers && i != id :: Owned(workers[i].pc) != o
  {
    hide Owned;
  }

  /** A worker that only changes its own position. */
  lemma QuietKeeps(c: Heap, s: State, s2: State, id: int, pc: Pc)
    requires Inv(c, s) && id in s.workers && s2 == Go(s, id, pc)
    requires Owned(pc) == Owned(s.workers[id].pc) && PcOk(c, s, pc, s.workers[id].m)
    ensures Inv(c, s2)
  {
    hide HeapOk, SpaceOk, ChunksOk, ObjsOk, SlotsOk, AllocatorOk, OwnersOk, Owned;
    OwnersStay(s.workers, s.owner, id, s.workers[id].(pc := pc));
    NoObjZero(c);
    assert PcOk(c, s2, pc, s.workers[id].m) by { PcSame(c, s, s2, pc, s.workers[id].m); }
    EffectKeeps(c, s, s2, id, 0);
  }

  lemma NoObjZero(c: Heap)
    requires HeapOk(c)
    ensures 0 !in c.objs
  {
  }

  lemma PcSame(c: Heap, s: State, s2: State, pc: Pc, m: Allocator)
    requires PcOk(c, s, pc, m) && s2 == s.(workers := s2.workers)
    ensures PcOk(c, s2, pc, m)
  {
  }

  lemma ClaimKeeps(c: Heap, s: State, s2: State, id: int, e: Edge, o: Obj, data: int)
    requires Inv(c, s) && id in s.workers && s.workers[id].pc == Claim(e, o, data) && TagOf(c, s, o) == data
    requires s2 == Go(s, id, Alloc(e, o, data)).(tags := s.tags[o := 0], owner := s.owner[o := id])
    ensures Inv(c, s2)
  {
    hide SpaceOk, ChunksOk, SlotsOk, AllocatorOk, OwnersOk, WholeCopy, ChunkFor;
    assert PcOk(c, s, s.workers[id].pc, s.workers[id].m);
    assert ObjOk(c, s, o);
    OwnersTake(s.workers, s.owner, id, s2.workers[id], o);
    EffectKeeps(c, s, s2, id, o);
  }

  lemma AbortKeeps(c: Heap, s: State, s2: State, id: int, e: Edge, o: Obj, data: int)
    requires Inv(c, s) && id in s.workers && s.workers[id].pc == Abort(e, o, data)
    requires s2 == Go(s, id, Idle(Some(Failed))).(tags := s.tags[o := data], owner := s.owner - {o})
    ensures Inv(c, s2)
  {
    hide SpaceOk, ChunksOk, SlotsOk, AllocatorOk, OwnersOk, WholeCopy, ChunkFor;
    assert PcOk(c, s, s.workers[id].pc, s.workers[id].m);
    assert ObjOk(c, s, o);
    OwnersDrop(s.workers, s.owner, id, s2.workers[id], o);
    EffectKeeps(c, s, s2, id, o);
  }

  lemma CommitKeeps(c: Heap, s: State, s2: State, id: int, e: Edge, o: Obj, data: int, to: int)
    requires Inv(c, s) && id in s.workers && s.workers[id].pc == Commit(e, o, data, to)
    requires s2 == Go(s, id, Update(e, o, to, Evacuated)).(tags := s.tags[o := to], owner := s.owner - {o},
                                                evacuated := s.evacuated + multiset{o})
    ensures Inv(c, s2)
  {
    hide SpaceOk, ChunksOk, SlotsOk, AllocatorOk, OwnersOk, WholeCopy;
    assert PcOk(c, s, s.workers[id].pc, s.workers[id].m);
    OwnersDrop(s.workers, s.owner, id, s2.workers[id], o);
    assert ObjOk(c, s, o);
    EffectKeeps(c, s, s2, id, o);
  }

  lemma UpdateKeeps(c: Heap, s: State, s2: State, id: int, e: Edge, o: Obj, addr: int, out: Outcome)
    requires Inv(c, s) && id in s.workers && s.workers[id].pc == Update(e, o, addr, out)
    requires s2 == Go(s, id, Idle(Some(out))).(slots := s.slots[e := addr])
    ensures Inv(c, s2)
  {
    hide SpaceOk, ChunksOk, SlotsOk, AllocatorOk, OwnersOk, ObjsOk, WholeCopy, ChunkFor, HeapOk;
    assert PcOk(c, s, s.workers[id].pc, s.workers[id].m);
    NoObjZero(c);
    OwnersStay(s.workers, s.owner, id, s2.workers[id]);
    EffectKeeps(c, s, s2, id, 0);
  }

  /** A word written into one chunk is in no other. */
  lemma WriteElsewhere(c: Heap, y: Layout, mem: map<int, int>, to: int, i: int, v: int, a: int, j: int)
    requires ChunksOk(c, y) && to in y.chunks && a in y.chunks && a != to
    requires 0 <= i && 8 * i < y.chunks[to].size && 0 <= j && 8 * j < y.chunks[a].size
    ensures WordAt(mem[to + 8 * i := v], a, j) == WordAt(mem, a, j)
  {
  }

  lemma WriteHere(mem: map<int, int>, to: int, i: int, v: int, j: int)
    ensures WordAt(mem[to + 8 * i := v], to, j) == if i == j then v else WordAt(mem, to, j)
  {
  }

  /** Writing one word of the copy. */
  lemma WriteKeeps(c: Heap, s: State, s2: State, id: int, o: Obj, to: int, i: int, v: int, pc: Pc)
    requires Inv(c, s) && id in s.workers && Owned(s.workers[id].pc) == Owned(pc) == o && o != 0
    requires ChunkFor(c, s, o, to) && 0 <= i < Size(c, o)
    requires s2 == Go(s, id, pc).(mem := s.mem[to + 8 * i := v]) && PcOk(c, s2, pc, s.workers[id].m)
    ensures Inv(c, s2)
  {
    hide HeapOk, SpaceOk, SlotsOk, AllocatorOk, OwnersOk, Owned, PcOk, WholeCopy, Copied, ChunksOk, WordAt;
    assert Owned(s.workers[id].pc) in s.owner by { OwnerIs(s.workers, s.owner, id); }
    OwnerIs(s.workers, s.owner, id);
    forall a, j | a in s.layout.chunks && a in s.home && s.home[a] != o && 0 <= j && 8 * j < s.layout.chunks[a].size
      ensures WordAt(s2.mem, a, j) == WordAt(s.mem, a, j)
    {
      WriteElsewhere(c, s.layout, s.mem, to, i, v, a, j);
    }
    OwnersStay(s.workers, s.owner, id, s2.workers[id]);
    if o in c.objs { assert ObjOk(c, s, o); }
    EffectKeeps(c, s, s2, id, o);
  }

  lemma OwnerIs(workers: map<int, Worker>, owner: map<Obj, int>, id: int)
    requires OwnersOk(workers, owner) && id in workers && Owned(workers[id].pc) != 0
    ensures Owned(workers[id].pc) in owner
    ensures forall i | i in workers && i != id :: Owned(workers[i].pc) != Owned(workers[id].pc)
  {
    hide Owned;
  }

  lemma CopyKeeps(c: Heap, s: State, s2: State, id: int, e: Edge, o: Obj, data: int, to: int, i: int)
    requires Inv(c, s) && id in s.workers && s.workers[id].pc == Copy(e, o, data, to, i)
    requires Forwarding(c, s, s2, id)
    ensures Inv(c, s2)
  {
    hide SpaceOk, SlotsOk, AllocatorOk, OwnersOk, ObjsOk, ChunksOk, WordAt;
    assert PcOk(c, s, s.workers[id].pc, s.workers[id].m);
    if i < Size(c, o) {
      var v := OldWord(c, s, o, i);
      forall j | 1 <= j < i + 1 ensures WordAt(s2.mem, to, j) == c.objs[o][j] {
        WriteHere(s.mem, to, i, v, j);
      }
      WriteKeeps(c, s, s2, id, o, to, i, v, Copy(e, o, data, to, i + 1));
    } else {
      QuietKeeps(c, s, s2, id, WriteTag(e, o, data, to));
    }
  }

  lemma WriteTagKeeps(c: Heap, s: State, s2: State, id: int, e: Edge, o: Obj, data: int, to: int)
    requires Inv(c, s) && id in s.workers && s.workers[id].pc == WriteTag(e, o, data, to)
    requires Forwarding(c, s, s2, id)
    ensures Inv(c, s2)
  {
    hide SpaceOk, SlotsOk, AllocatorOk, OwnersOk, ObjsOk, ChunksOk, WordAt;
    assert PcOk(c, s, s.workers[id].pc, s.workers[id].m);
    forall j | 0 <= j < |c.objs[o]| ensures WordAt(s2.mem, to, j) == c.objs[o][j] {
      WriteHere(s.mem, to, 0, data, j);
    }
    WriteKeeps(c, s, s2, id, o, to, 0, data, Commit(e, o, data, to));
  }

  lemma RoundedFits(n: int)
    requires 0 < n <= LARGE_THRESHOLD
    ensures n <= Rounded(n) <= REGION && Rounded(n) % GRANULE == 0
  {
  }

  lemma TakeKeeps(c: Heap, s: State, s2: State, id: int, e: Edge, o: Obj, data: int)
    requires Inv(c, s) && id in s.workers && (s.workers[id].pc == Alloc(e, o, data) || s.workers[id].pc == FreshBlock(e, o, data))
    requires s.workers[id].pc.Alloc? ==> s.workers[id].m.hp + Rounded(8 * Size(c, o)) <= s.workers[id].m.limit
    requires s2 == Take(c, s, id, e, o, data)
    ensures Inv(c, s2)
  {
    hide SpaceOk, SlotsOk, OwnersOk, ObjsOk, ChunksOk, WordAt, Rounded, Carved, Base, TopOf;
    var m, n := s.workers[id].m, Rounded(8 * Size(c, o));
    assert PcOk(c, s, s.workers[id].pc, m);
    RoundedFits(8 * Size(c, o));
    BumpOk(c, id, s.space, m, s.layout, n);
    TakeFrame(c, s, s2, id, o, m, n);
    OwnerIs(s.workers, s.owner, id);
    OwnersStay(s.workers, s.owner, id, s2.workers[id]);
    TakenKeeps(c, s, s2, o);
    EffectKeeps(c, s, s2, id, o);
  }

  lemma TakeFrame(c: Heap, s: State, s2: State, id: int, o: Obj, m: Allocator, n: int)
    requires m.hp !in s.layout.chunks && n >= 8 * Size(c, o) && m.hp % GRANULE == 0 && HeapOk(c)
    requires s2.layout == Carved(s.layout, m, n) && s2.home == s.home[m.hp := o]
    requires s2 == s.(workers := s2.workers, layout := s2.layout, home := s2.home)
    requires ChunksOk(c, s2.layout)
    ensures Frame(c, s, s2, o) && ChunkFor(c, s2, o, m.hp)
  {
    hide WordAt;
    assert ChunkOk(c, s2.layout, m.hp, s2.layout.chunks[m.hp]);
    EvenGranules(m.hp);
  }

  lemma EvenGranules(x: int)
    requires x % GRANULE == 0
    ensures x % 2 == 0
  {
    assert x == 2 * (4 * (x / GRANULE));
  }

  lemma TakenKeeps(c: Heap, s: State, s2: State, o: Obj)
    requires ObjsOk(c, s) && s2.tags == s.tags && s2.owner == s.owner && s2.evacuated == s.evacuated && o in s.owner
    ensures o in c.objs ==> ObjOk(c, s2, o)
  {
    if o in c.objs { assert ObjOk(c, s, o); }
  }

  /** Moving a block between the lists and a worker. */
  lemma BlocksKeep(c: Heap, s: State, s2: State, id: int, pc: Pc)
    requires Inv(c, s) && id in s.workers && id in s2.workers && Owned(pc) == Owned(s.workers[id].pc)
    requires s2 == With(s, id, pc, s2.workers[id].m).(space := s2.space, layout := s2.layout)
    requires s2.layout.chunks == s.layout.chunks
    requires SpaceOk(c, s2.space, s2.layout) && ChunksOk(c, s2.layout) && AllocatorOk(c, s2.layout, id, s2.workers[id].m)
    requires forall i, n: Allocator | i != id && AllocatorOk(c, s.layout, i, n) :: AllocatorOk(c, s2.layout, i, n)
    requires PcOk(c, s2, pc, s2.workers[id].m)
    ensures Inv(c, s2)
  {
    hide HeapOk, SpaceOk, SlotsOk, OwnersOk, ObjsOk, ChunksOk, WordAt, PcOk, AllocatorOk, Owned;
    OwnersStay(s.workers, s.owner, id, s2.workers[id]);
    NoObjZero(c);
    EffectKeeps(c, s, s2, id, 0);
  }

  lemma AllocateKeeps(c: Heap, s: State, s2: State, id: int)
    requires Inv(c, s) && id in s.workers && id in s2.workers && Allocate(c, s, s2, id)
    ensures Inv(c, s2)
  {
    hide SpaceOk, SlotsOk, OwnersOk, ObjsOk, ChunksOk, AllocatorOk, Take, Rounded, Base, OnEdge, Original, HeapOk;
    var m, m2 := s.workers[id].m, s2.workers[id].m;
    assert PcOk(c, s, s.workers[id].pc, m);
    match s.workers[id].pc
    case Alloc(e, o, data) =>
      if m.hp + Rounded(8 * Size(c, o)) <= m.limit {
        TakeKeeps(c, s, s2, id, e, o, data);
      } else if m.block == 0 {
        QuietKeeps(c, s, s2, id, TryPartly(e, o, data));
      } else {
        ReleaseFullOk(c, id, s.space, m, s.layout, s2.space, m2, s2.layout);
        BlocksKeep(c, s, s2, id, TryPartly(e, o, data));
      }
    case TryPartly(e, o, data) =>
      if s.space.partly == [] {
        QuietKeeps(c, s, s2, id, TryEmpty(e, o, data));
      } else {
        AcquirePartlyOk(c, id, s.space, s.layout, s2.space, m2, s2.layout);
        BlocksKeep(c, s, s2, id, Alloc(e, o, data));
      }
    case TryEmpty(e, o, data) =>
      if s.space.empty == [] && s.space.paged == [] {
        QuietKeeps(c, s, s2, id, Abort(e, o, data));
      } else {
        AcquireEmptyOk(c, id, s.space, s.layout, s2.space, m2, s2.layout);
        BlocksKeep(c, s, s2, id, FreshBlock(e, o, data));
      }
    case FreshBlock(e, o, data) => TakeKeeps(c, s, s2, id, e, o, data);
    case _ =>
  }

  /** A tag read by a worker tells it the truth, now and later. */
  lemma ReadOk(c: Heap, s: State, mode: Mode, e: Edge, o: Obj, m: Allocator)
    requires Inv(c, s) && OnEdge(c, e, o)
    ensures PcOk(c, s, Read(mode, e, o, TagOf(c, s, o)), m) && Owned(Read(mode, e, o, TagOf(c, s, o))) == 0
  {
    hide SpaceOk, SlotsOk, OwnersOk, WorkersOk, ChunksOk, WholeCopy, ChunkFor;
    assert ObjOk(c, s, o);
  }

  /** The claim can fail only because the object is being copied or has moved: its tag never
      changes to another odd value. */
  lemma ClaimFailsOk(c: Heap, s: State, id: int, e: Edge, o: Obj, data: int, m: Allocator)
    requires Inv(c, s) && OnEdge(c, e, o) && data == Original(c, o) && TagOf(c, s, o) != data
    ensures TagOf(c, s, o) % 2 == 0
    ensures TagOf(c, s, o) != 0 ==> PcOk(c, s, Update(e, o, TagOf(c, s, o), Updated), m)
  {
    hide SpaceOk, SlotsOk, OwnersOk, WorkersOk, ChunksOk, WholeCopy, ChunkFor;
    assert ObjOk(c, s, o);
  }

  lemma ForwardingKeeps(c: Heap, s: State, s2: State, id: int)
    requires Inv(c, s) && id in s.workers && Forwarding(c, s, s2, id)
    ensures Inv(c, s2)
  {
    hide HeapOk, SpaceOk, SlotsOk, OwnersOk, ObjsOk, ChunksOk, AllocatorOk, ChunkFor, Copied, WholeCopy, TagOf, Read, OldWord, OnEdge, Original;
    var m := s.workers[id].m;
    assert PcOk(c, s, s.workers[id].pc, m);
    match s.workers[id].pc
    case Look(mode, e, o) =>
      ReadOk(c, s, mode, e, o, m);
      QuietKeeps(c, s, s2, id, Read(mode, e, o, TagOf(c, s, o)));
    case Busy(mode, e, o) =>
      ReadOk(c, s, mode, e, o, m);
      QuietKeeps(c, s, s2, id, Read(mode, e, o, TagOf(c, s, o)));
    case Claim(e, o, data) =>
      var tag := TagOf(c, s, o);
      if tag == data {
        ClaimKeeps(c, s, s2, id, e, o, data);
      } else {
        ClaimFailsOk(c, s, id, e, o, data, m);
        QuietKeeps(c, s, s2, id, if tag == 0 then Busy(Forward, e, o) else Update(e, o, tag, Updated));
      }
    case Copy(e, o, data, to, i) => CopyKeeps(c, s, s2, id, e, o, data, to, i);
    case WriteTag(e, o, data, to) => WriteTagKeeps(c, s, s2, id, e, o, data, to);
    case Commit(e, o, data, to) => CommitKeeps(c, s, s2, id, e, o, data, to);
    case Abort(e, o, data) => AbortKeeps(c, s, s2, id, e, o, data);
    case Update(e, o, addr, out) => UpdateKeeps(c, s, s2, id, e, o, addr, out);
    case _ =>
  }

  lemma StartKeeps(c: Heap, s: State, s2: State, id: int)
    requires Inv(c, s) && id in s.workers && id in s2.workers && s.workers[id].pc.Idle? && Start(c, s, s2, id)
    ensures Inv(c, s2)
  {
    hide SpaceOk, SlotsOk, OwnersOk, ObjsOk, ChunksOk, AllocatorOk, ReleasePartly;
    if e, mode :| e in c.edges && SlotOf(c, s, e) == c.edges[e] && s2 == Go(s, id, Look(mode, e, c.edges[e])) {
      QuietKeeps(c, s, s2, id, Look(mode, e, c.edges[e]));
    } else {
      ReleasePartlyOk(c, id, s.space, s.workers[id].m, s.layout, s2.space, s2.workers[id].m, s2.layout);
      ReleaseChunks(s.space, s.workers[id].m, s.layout, s2.space, s2.workers[id].m, s2.layout);
      BlocksKeep(c, s, s2, id, s.workers[id].pc);
    }
  }

  lemma ReleaseChunks(p: Space, m: Allocator, y: Layout, p2: Space, m2: Allocator, y2: Layout)
    requires ReleasePartly(p, m, y, p2, m2, y2)
    ensures y2.chunks == y.chunks
  {
  }

  lemma StepKeepsInv(c: Heap, s: State, s2: State, id: int)
    requires Inv(c, s) && Step(c, s, s2, id)
    ensures Inv(c, s2)
  {
    hide Inv, Start, Allocate, Forwarding;
    if Allocate(c, s, s2, id) {
      AllocateKeeps(c, s, s2, id);
    } else if Forwarding(c, s, s2, id) {
      ForwardingKeeps(c, s, s2, id);
    } else {
      StartKeeps(c, s, s2, id);
    }
  }

  // ----- what every run keeps --------------------------------------------------------------

  ghost predicate Next(c: Heap, s: State, s2: State) {
    exists id :: Step(c, s, s2, id)
  }

  ghost predicate Run(c: Heap, run: seq<State>) {
    && |run| > 0 && Init(c, run[0])
    && forall i | 0 <= i < |run| - 1 :: Next(c, run[i], run[i + 1])
  }

  lemma {:induction false} RunKeepsInv(c: Heap, run: seq<State>, i: nat)
    requires Run(c, run) && i < |run|
    ensures Inv(c, run[i])
  {
    hide Inv, Init, Step;
    if i == 0 {
      InitInv(c, run[0]);
    } else {
      RunKeepsInv(c, run, i - 1);
      var id :| Step(c, run[i - 1], run[i], id);
      StepKeepsInv(c, run[i - 1], run[i], id);
    }
  }

  /** At every point of every run an object has been evacuated at most once; then its tag word is the
      address of a whole copy, original tag included; otherwise, unless someone is copying it, it
      still carries its original tag, whatever was claimed and aborted before. */
  lemma EvacuatedOnce(c: Heap, run: seq<State>, i: nat, o: Obj)
    requires Run(c, run) && i < |run| && o in c.objs
    ensures run[i].evacuated[o] <= 1
    ensures run[i].evacuated[o] == 1 ==> WholeCopy(c, run[i].mem, o, TagOf(c, run[i], o))
    ensures run[i].evacuated[o] == 0 ==> TagOf(c, run[i], o) == (if o in run[i].owner then 0 else Original(c, o))
  {
    RunKeepsInv(c, run, i);
    hide SpaceOk, ChunksOk, WorkersOk, OwnersOk, SlotsOk, ChunkFor, WholeCopy;
    assert ObjOk(c, run[i], o);
  }

  /** All edges to an object agree: each still holds the old address or the one new address. */
  lemma EdgesAgree(c: Heap, run: seq<State>, i: nat, e: Edge, d: Edge)
    requires Run(c, run) && i < |run| && e in c.edges && d in c.edges && c.edges[e] == c.edges[d]
    requires SlotOf(c, run[i], e) != c.edges[e] && SlotOf(c, run[i], d) != c.edges[d]
    ensures SlotOf(c, run[i], e) == SlotOf(c, run[i], d)
    ensures WholeCopy(c, run[i].mem, c.edges[e], SlotOf(c, run[i], e))
  {
    RunKeepsInv(c, run, i);
    hide SpaceOk, ChunksOk, WorkersOk, OwnersOk, ChunkFor, WholeCopy;
    assert SlotOk(c, run[i], e) && SlotOk(c, run[i], d);
    assert ObjOk(c, run[i], c.edges[e]);
  }

  /** Different objects end up in disjoint memory. */
  lemma CopiesApart(c: Heap, run: seq<State>, i: nat, o: Obj, x: Obj)
    requires Run(c, run) && i < |run| && o in c.objs && x in c.objs && o != x
    requires run[i].evacuated[o] == 1 && run[i].evacuated[x] == 1
    ensures var a, b := TagOf(c, run[i], o), TagOf(c, run[i], x);
      a + 8 * Size(c, o) <= b || b + 8 * Size(c, x) <= a
  {
    RunKeepsInv(c, run, i);
    hide SpaceOk, WorkersOk, OwnersOk, SlotsOk, WholeCopy, ChunkOk;
    assert ObjOk(c, run[i], o) && ObjOk(c, run[i], x);
  }

  lemma {:induction false} MovedStays(c: Heap, run: seq<State>, i: nat, j: nat, o: Obj)
    requires Run(c, run) && i <= j < |run| && run[i].evacuated[o] >= 1 && o in c.objs
    ensures run[j].evacuated[o] == 1 && TagOf(c, run[j], o) == TagOf(c, run[i], o)
    decreases j - i
  {
    hide Init, Step, Inv;
    RunKeepsInv(c, run, i);
    EvacuatedOnce(c, run, i, o);
    if i < j {
      var id :| Step(c, run[i], run[i + 1], id);
      StepKeepsMoved(c, run[i], run[i + 1], id, o);
      MovedStays(c, run, i + 1, j, o);
    }
  }

  /** Once an object has moved its new address never changes. */
  lemma StepKeepsMoved(c: Heap, s: State, s2: State, id: int, o: Obj)
    requires Inv(c, s) && Step(c, s, s2, id) && s.evacuated[o] == 1 && o in c.objs
    ensures s2.evacuated[o] == 1 && TagOf(c, s2, o) == TagOf(c, s, o)
  {
    hide Inv, Start, Allocate, Forwarding, TagOf;
    if Allocate(c, s, s2, id) {
      AllocateTags(c, s, s2, id);
      SameTag(c, s, s2, o);
    } else if Forwarding(c, s, s2, id) {
      ForwardingTags(c, s, s2, id, o);
    } else {
      StartTags(c, s, s2, id);
      SameTag(c, s, s2, o);
    }
  }

  lemma SameTag(c: Heap, s: State, s2: State, o: Obj)
    requires s2.tags == s.tags
    ensures TagOf(c, s2, o) == TagOf(c, s, o)
  {
  }

  lemma AllocateTags(c: Heap, s: State, s2: State, id: int)
    requires id in s.workers && id in s2.workers && Allocate(c, s, s2, id)
    ensures s2.tags == s.tags && s2.evacuated == s.evacuated
  {
    hide ReleaseFull, AcquirePartly, AcquireEmpty, Rounded, Size, Go, With, Take;
  }

  lemma StartTags(c: Heap, s: State, s2: State, id: int)
    requires id in s.workers && id in s2.workers && Start(c, s, s2, id)
    ensures s2.tags == s.tags && s2.evacuated == s.evacuated
  {
    hide ReleasePartly, Go, With, SlotOf;
  }

  lemma ForwardingTags(c: Heap, s: State, s2: State, id: int, o: Obj)
    requires Inv(c, s) && id in s.workers && Forwarding(c, s, s2, id) && s.evacuated[o] == 1 && o in c.objs
    ensures s2.evacuated[o] == 1 && TagOf(c, s2, o) == TagOf(c, s, o)
  {
    hide SpaceOk, ChunksOk, SlotsOk, WholeCopy, ChunkFor, AllocatorOk, HeapOk, Original, Read, Size, OldWord, Go, OnEdge;
    OddOriginal(c, o);
    assert PcOk(c, s, s.workers[id].pc, s.workers[id].m);
    assert ObjOk(c, s, o);
    OwnerIsNot(s.workers, s.owner, id, o);
  }

  lemma OwnerIsNot(workers: map<int, Worker>, owner: map<Obj, int>, id: int, o: Obj)
    requires OwnersOk(workers, owner) && id in workers && o !in owner && o != 0
    ensures Owned(workers[id].pc) != o
  {
    hide Owned;
  }

  lemma OddOriginal(c: Heap, o: Obj)
    requires HeapOk(c) && o in c.objs
    ensures Original(c, o) % 2 == 1 && o != 0
  {
  }

  // ----- what a call has done when it returns ----------------------------------------------

  /** The edge holds the address of the object's whole copy. */
  ghost predicate Forwarded(c: Heap, s: State, e: Edge, o: Obj) {
    s.evacuated[o] == 1 && SlotOf(c, s, e) == TagOf(c, s, o) && WholeCopy(c, s.mem, o, SlotOf(c, s, e))
  }

  /** The object is where it was and nobody is copying it. */
  ghost predicate Unmoved(c: Heap, s: State, o: Obj) {
    TagOf(c, s, o) == Original(c, o) && s.evacuated[o] == 0
  }

  predicate NoPartly(p: Space) {
    p.partly == []
  }

  predicate NoEmpty(p: Space) {
    p.empty == [] && p.paged == []
  }

  /** The worker moves the object in this step. */
  ghost predicate Commits(s: State, s2: State, id: int, o: Obj) {
    && id in s.workers && id in s2.workers && s2.workers[id].pc != s.workers[id].pc
    && s.evacuated[o] == 0 && s2.evacuated[o] == 1
  }

  /** The worker is in a call for this edge and this object. */
  ghost predicate For(pc: Pc, mode: Mode, e: Edge, o: Obj) {
    && !pc.Idle? && pc.e == e && pc.o == o
    && (pc.Look? || pc.Busy? ==> pc.mode == mode)
    && (mode == IfTraced ==> pc.Look? || pc.Busy? || (pc.Update? && pc.out == Updated))
  }

  /** What a worker that is back reports is so. */
  ghost predicate Reports(c: Heap, s: State, s2: State, pc: Pc, report: Option<Outcome>, mode: Mode, e: Edge, o: Obj) {
    report.Some? && match report.value {
      case Failed => pc.Abort? && Unmoved(c, s2, o)
      case NotMoved => mode == IfTraced && Unmoved(c, s, o)
      case out => pc.Update? && pc.out == out && Forwarded(c, s2, e, o)
    }
  }

  /** What one step of a worker in a call may come to. */
  ghost predicate ComesOn(c: Heap, s: State, s2: State, id: int, mode: Mode, e: Edge, o: Obj)
    requires id in s.workers && id in s2.workers
  {
    var pc, pc2 := s.workers[id].pc, s2.workers[id].pc;
    && (pc2.Idle? || For(pc2, mode, e, o))
    && (pc.Update? ==> pc2.Idle?)
    && (pc2.TryEmpty? ==> NoPartly(s.space))
    && (pc2.Abort? ==> pc.TryEmpty? && NoEmpty(s.space))
    && (pc2.Update? ==> pc2.out == Updated || pc2.out == Evacuated)
    && (Commits(s, s2, id, o) <==> pc2.Update? && pc2.out == Evacuated)
    && (pc2.Idle? ==> Reports(c, s, s2, pc, pc2.report, mode, e, o))
  }

  lemma GoPc(s: State, id: int, pc: Pc)
    requires id in s.workers
    ensures id in Go(s, id, pc).workers && Go(s, id, pc).workers[id].pc == pc
  {
  }

  lemma WithPc(s: State, id: int, pc: Pc, m: Allocator)
    ensures id in With(s, id, pc, m).workers && With(s, id, pc, m).workers[id].pc == pc
  {
  }

  lemma TakePc(c: Heap, s: State, id: int, e: Edge, o: Obj, data: int)
    requires id in s.workers
    ensures id in Take(c, s, id, e, o, data).workers
    ensures Take(c, s, id, e, o, data).workers[id].pc == Copy(e, o, data, s.workers[id].m.hp, 0)
  {
    hide Rounded, Size, Carved, Bump;
  }

  /** Where the search for memory goes next. */
  function AllocatePc(c: Heap, w: Worker, p: Space): Pc {
    match w.pc
    case Alloc(e, o, data) =>
      if w.m.hp + Rounded(8 * Size(c, o)) <= w.m.limit then Copy(e, o, data, w.m.hp, 0) else TryPartly(e, o, data)
    case TryPartly(e, o, data) => if NoPartly(p) then TryEmpty(e, o, data) else Alloc(e, o, data)
    case TryEmpty(e, o, data) => if NoEmpty(p) then Abort(e, o, data) else FreshBlock(e, o, data)
    case FreshBlock(e, o, data) => Copy(e, o, data, w.m.hp, 0)
    case _ => w.pc
  }

  lemma AllocateGoes(c: Heap, s: State, s2: State, id: int)
    requires id in s.workers && id in s2.workers && Allocate(c, s, s2, id)
    ensures s2.workers[id].pc == AllocatePc(c, s.workers[id], s.space)
    ensures var pc := s.workers[id].pc; pc.Alloc? || pc.TryPartly? || pc.TryEmpty? || pc.FreshBlock?
  {
    hide ReleaseFull, AcquirePartly, AcquireEmpty, Rounded, Size, Go, With, Take;
    var m, m2, p := s.workers[id].m, s2.workers[id].m, AllocatePc(c, s.workers[id], s.space);
    match s.workers[id].pc {
      case Alloc(e, o, data) => TakePc(c, s, id, e, o, data);
      case FreshBlock(e, o, data) => TakePc(c, s, id, e, o, data);
      case _ =>
    }
    GoPc(s, id, p);
    WithPc(s, id, p, m2);
  }

  lemma AllocateComesOn(c: Heap, s: State, s2: State, id: int, mode: Mode, e: Edge, o: Obj)
    requires id in s.workers && id in s2.workers && Allocate(c, s, s2, id) && For(s.workers[id].pc, mode, e, o)
    ensures ComesOn(c, s, s2, id, mode, e, o)
  {
    AllocateGoes(c, s, s2, id);
    AllocateTags(c, s, s2, id);
    hide Allocate, Rounded, Size;
  }

  lemma LookComesOn(c: Heap, s: State, s2: State, id: int, mode: Mode, e: Edge, o: Obj)
    requires Inv(c, s) && id in s.workers && id in s2.workers && Forwarding(c, s, s2, id) && For(s.workers[id].pc, mode, e, o)
    requires s.workers[id].pc.Look? || s.workers[id].pc.Busy? || s.workers[id].pc.Claim?
    ensures ComesOn(c, s, s2, id, mode, e, o)
  {
    hide SpaceOk, ChunksOk, SlotsOk, WholeCopy, ChunkFor, AllocatorOk, OwnersOk, TagOf, SlotOf;
    assert PcOk(c, s, s.workers[id].pc, s.workers[id].m);
    assert ObjOk(c, s, o);
    OddOriginal(c, o);
  }

  lemma CopyComesOn(c: Heap, s: State, s2: State, id: int, mode: Mode, e: Edge, o: Obj)
    requires Inv(c, s) && id in s.workers && id in s2.workers && Forwarding(c, s, s2, id) && For(s.workers[id].pc, mode, e, o)
    requires s.workers[id].pc.Copy? || s.workers[id].pc.WriteTag? || s.workers[id].pc.Commit?
    ensures ComesOn(c, s, s2, id, mode, e, o)
  {
    hide SpaceOk, ChunksOk, SlotsOk, WholeCopy, Copied, ChunkFor, AllocatorOk, TagOf, SlotOf, OldWord;
    assert PcOk(c, s, s.workers[id].pc, s.workers[id].m);
    assert ObjOk(c, s, o);
    OwnerIs(s.workers, s.owner, id);
  }

  lemma AbortComesOn(c: Heap, s: State, s2: State, id: int, mode: Mode, e: Edge, o: Obj)
    requires Inv(c, s) && id in s.workers && id in s2.workers && Forwarding(c, s, s2, id) && For(s.workers[id].pc, mode, e, o)
    requires s.workers[id].pc.Abort?
    ensures ComesOn(c, s, s2, id, mode, e, o)
  {
    hide SpaceOk, ChunksOk, SlotsOk, WholeCopy, ChunkFor, AllocatorOk;
    assert PcOk(c, s, s.workers[id].pc, s.workers[id].m);
    assert ObjOk(c, s, o);
    OwnerIs(s.workers, s.owner, id);
  }

  lemma UpdateComesOn(c: Heap, s: State, s2: State, id: int, mode: Mode, e: Edge, o: Obj)
    requires Inv(c, s) && id in s.workers && id in s2.workers && Forwarding(c, s, s2, id) && For(s.workers[id].pc, mode, e, o)
    requires s.workers[id].pc.Update?
    ensures ComesOn(c, s, s2, id, mode, e, o)
  {
    hide SpaceOk, ChunksOk, SlotsOk, WholeCopy, ChunkFor, AllocatorOk, OwnersOk, HeapOk, TagOf, Original;
    assert PcOk(c, s, s.workers[id].pc, s.workers[id].m);
    assert ObjOk(c, s, o);
    assert TagOf(c, s2, o) == TagOf(c, s, o) by { SameTag(c, s, s2, o); }
    assert SlotOf(c, s2, e) == s.workers[id].pc.addr;
    assert Forwarded(c, s2, e, o);
  }

  lemma StepComesOn(c: Heap, s: State, s2: State, id: int, mode: Mode, e: Edge, o: Obj)
    requires Inv(c, s) && Step(c, s, s2, id) && For(s.workers[id].pc, mode, e, o)
    ensures ComesOn(c, s, s2, id, mode, e, o)
  {
    hide Inv, Start, Allocate, Forwarding, ComesOn;
    if Allocate(c, s, s2, id) {
      AllocateComesOn(c, s, s2, id, mode, e, o);
    } else {
      ForwardingAt(c, s, s2, id);
      match s.workers[id].pc {
        case Look(_, _, _) => LookComesOn(c, s, s2, id, mode, e, o);
        case Busy(_, _, _) => LookComesOn(c, s, s2, id, mode, e, o);
        case Claim(_, _, _) => LookComesOn(c, s, s2, id, mode, e, o);
        case Abort(_, _, _) => AbortComesOn(c, s, s2, id, mode, e, o);
        case Update(_, _, _, _) => UpdateComesOn(c, s, s2, id, mode, e, o);
        case _ => CopyComesOn(c, s, s2, id, mode, e, o);
      }
    }
  }

  lemma ForwardingAt(c: Heap, s: State, s2: State, id: int)
    requires id in s.workers && Forwarding(c, s, s2, id)
    ensures var pc := s.workers[id].pc; !pc.Idle? && !pc.Alloc? && !pc.TryPartly? && !pc.TryEmpty? && !pc.FreshBlock?
  {
    hide Read, TagOf, Go, Size, OldWord;
  }

  /** The edge a worker is done with holds the new address, or its object has not moved. */
  lemma LeavesForwarded(c: Heap, s: State, s2: State, id: int, mode: Mode, e: Edge, o: Obj)
    requires Inv(c, s) && Step(c, s, s2, id) && For(s.workers[id].pc, mode, e, o)
    requires s2.workers[id].pc.Idle?
    ensures Forwarded(c, s2, e, o) || (Unmoved(c, s2, o) && s.workers[id].pc.Abort?) || (Unmoved(c, s, o) && mode == IfTraced)
  {
    hide Inv, Step, Forwarded, Unmoved;
    StepComesOn(c, s, s2, id, mode, e, o);
  }

  /** A worker begins a call in state `i` and is back in state `j`. */
  ghost predicate Call(run: seq<State>, id: int, i: nat, j: nat, mode: Mode, e: Edge, o: Obj) {
    && i + 1 < j < |run| && (forall k | i <= k <= j :: id in run[k].workers)
    && run[i].workers[id].pc.Idle? && run[i + 1].workers[id].pc == Look(mode, e, o)
    && (forall k | i < k < j :: !run[k].workers[id].pc.Idle?) && run[j].workers[id].pc.Idle?
  }

  ghost predicate SawNoPartly(run: seq<State>, i: nat, k: nat)
    requires k < |run|
  {
    exists n | i <= n <= k :: NoPartly(run[n].space)
  }

  ghost predicate SawNoEmpty(run: seq<State>, i: nat, k: nat)
    requires k < |run|
  {
    exists n | i <= n <= k :: NoEmpty(run[n].space)
  }

  ghost predicate SawUnmoved(c: Heap, run: seq<State>, i: nat, k: nat, o: Obj)
    requires k < |run|
  {
    exists n | i <= n <= k :: Unmoved(c, run[n], o)
  }

  /** A step of the worker between the two states moves the object. */
  ghost predicate Committed(run: seq<State>, id: int, i: nat, k: nat, o: Obj)
    requires k < |run|
  {
    exists n | i <= n < k :: Commits(run[n], run[n + 1], id, o)
  }

  /** What a report at state `k` of a call begun in state `i` means. */
  ghost predicate Means(c: Heap, run: seq<State>, id: int, i: nat, k: nat, mode: Mode, e: Edge, o: Obj, report: Option<Outcome>)
    requires k < |run|
  {
    report.Some? && (report.value == Evacuated <==> Committed(run, id, i, k, o)) && match report.value {
      case Evacuated => mode == Forward && Forwarded(c, run[k], e, o)
      case Updated => Forwarded(c, run[k], e, o)
      case Failed => mode == Forward && Unmoved(c, run[k], o) && SawNoPartly(run, i, k) && SawNoEmpty(run, i, k)
      case NotMoved => mode == IfTraced && SawUnmoved(c, run, i, k, o)
    }
  }

  ghost predicate SoFar(c: Heap, run: seq<State>, id: int, i: nat, k: nat, mode: Mode, e: Edge, o: Obj)
    requires k < |run| && id in run[k].workers
  {
    var pc := run[k].workers[id].pc;
    && (pc.Idle? ==> Means(c, run, id, i, k, mode, e, o, pc.report))
    && (!pc.Idle? ==> For(pc, mode, e, o))
    && (pc.TryEmpty? ==> SawNoPartly(run, i, k))
    && (pc.Abort? ==> SawNoPartly(run, i, k) && SawNoEmpty(run, i, k))
    && (!pc.Idle? ==> (Committed(run, id, i, k, o) <==> pc.Update? && pc.out == Evacuated))
  }

  /** The worker alone may have changed among the workers. */
  ghost predicate OnlyMoves(s: State, s2: State, w: int) {
    w in s.workers && w in s2.workers && s2.workers == s.workers[w := s2.workers[w]]
  }

  lemma GoMoves(s: State, s2: State, w: int, pc: Pc)
    requires w in s.workers && s2.workers == Go(s, w, pc).workers
    ensures OnlyMoves(s, s2, w)
  {
  }

  lemma WithMoves(s: State, s2: State, w: int, pc: Pc, m: Allocator)
    requires w in s.workers && s2.workers == With(s, w, pc, m).workers
    ensures OnlyMoves(s, s2, w)
  {
  }

  lemma TakeMoves(c: Heap, s: State, w: int, e: Edge, o: Obj, data: int)
    requires w in s.workers
    ensures OnlyMoves(s, Take(c, s, w, e, o, data), w)
  {
    hide Rounded, Size, Carved, Bump;
  }

  lemma AllocateMoves(c: Heap, s: State, s2: State, w: int)
    requires w in s.workers && w in s2.workers && Allocate(c, s, s2, w)
    ensures OnlyMoves(s, s2, w)
  {
    hide ReleaseFull, AcquirePartly, AcquireEmpty, Rounded, Size, Go, With, Take, OnlyMoves;
    AllocateGoes(c, s, s2, w);
    var pc, m, m2 := AllocatePc(c, s.workers[w], s.space), s.workers[w].m, s2.workers[w].m;
    match s.workers[w].pc
    case Alloc(e, o, data) =>
      if pc.Copy? { TakeMoves(c, s, w, e, o, data); }
      else if m.block == 0 { GoMoves(s, s2, w, pc); }
      else { WithMoves(s, s2, w, pc, m2); }
    case FreshBlock(e, o, data) => TakeMoves(c, s, w, e, o, data);
    case TryPartly(e, o, data) => if NoPartly(s.space) { GoMoves(s, s2, w, pc); } else { WithMoves(s, s2, w, pc, m2); }
    case TryEmpty(e, o, data) => if NoEmpty(s.space) { GoMoves(s, s2, w, pc); } else { WithMoves(s, s2, w, pc, m2); }
    case _ =>
  }

  lemma ForwardingMoves(c: Heap, s: State, s2: State, w: int)
    requires w in s.workers && w in s2.workers && Forwarding(c, s, s2, w)
    ensures OnlyMoves(s, s2, w)
  {
    hide Read, TagOf, Size, OldWord, Go, OnlyMoves;
    match s.workers[w].pc
    case Look(mode, e, o) => GoMoves(s, s2, w, Read(mode, e, o, TagOf(c, s, o)));
    case Busy(mode, e, o) => GoMoves(s, s2, w, Read(mode, e, o, TagOf(c, s, o)));
    case Claim(e, o, data) =>
      var tag := TagOf(c, s, o);
      GoMoves(s, s2, w, if tag == data then Alloc(e, o, data) else if tag == 0 then Busy(Forward, e, o) else Update(e, o, tag, Updated));
    case Copy(e, o, data, to, i) =>
      GoMoves(s, s2, w, if i < Size(c, o) then Copy(e, o, data, to, i + 1) else WriteTag(e, o, data, to));
    case WriteTag(e, o, data, to) => GoMoves(s, s2, w, Commit(e, o, data, to));
    case Commit(e, o, data, to) => GoMoves(s, s2, w, Update(e, o, to, Evacuated));
    case Abort(e, o, data) => GoMoves(s, s2, w, Idle(Some(Failed)));
    case Update(e, o, addr, out) => GoMoves(s, s2, w, Idle(Some(out)));
    case _ =>
  }

  lemma StartMoves(c: Heap, s: State, s2: State, w: int)
    requires w in s.workers && w in s2.workers && Start(c, s, s2, w)
    ensures OnlyMoves(s, s2, w)
  {
    hide ReleasePartly, SlotOf;
  }

  lemma StepMoves(c: Heap, s: State, s2: State, w: int)
    requires Step(c, s, s2, w)
    ensures OnlyMoves(s, s2, w)
  {
    hide Start, Allocate, Forwarding;
    if Allocate(c, s, s2, w) {
      AllocateMoves(c, s, s2, w);
    } else if Forwarding(c, s, s2, w) {
      ForwardingMoves(c, s, s2, w);
    } else {
      StartMoves(c, s, s2, w);
    }
  }

  lemma PcStays(c: Heap, s: State, s2: State, w: int, id: int)
    requires Step(c, s, s2, w) && id in s.workers && id != w
    ensures id in s2.workers && s2.workers[id] == s.workers[id]
  {
    hide Step;
    StepMoves(c, s, s2, w);
  }

  /** What was seen by state `k` has been seen by the next. */
  lemma SawMore(c: Heap, run: seq<State>, id: int, i: nat, k: nat, o: Obj)
    requires k + 1 < |run|
    ensures SawNoPartly(run, i, k) ==> SawNoPartly(run, i, k + 1)
    ensures SawNoEmpty(run, i, k) ==> SawNoEmpty(run, i, k + 1)
    ensures Committed(run, id, i, k + 1, o) <==> Committed(run, id, i, k, o) || (i <= k && Commits(run[k], run[k + 1], id, o))
  {
    hide NoPartly, NoEmpty, Unmoved, Commits;
  }

  lemma SawHere(c: Heap, run: seq<State>, id: int, i: nat, k: nat, o: Obj)
    requires i <= k && k + 1 < |run|
    ensures NoPartly(run[k].space) ==> SawNoPartly(run, i, k + 1)
    ensures NoEmpty(run[k].space) ==> SawNoEmpty(run, i, k + 1)
    ensures Unmoved(c, run[k], o) ==> SawUnmoved(c, run, i, k + 1, o)
  {
    hide NoPartly, NoEmpty, Unmoved, Commits;
  }

  lemma SoFarNext(c: Heap, run: seq<State>, id: int, i: nat, k: nat, mode: Mode, e: Edge, o: Obj)
    requires Run(c, run) && i <= k && k + 1 < |run| && id in run[k].workers && id in run[k + 1].workers
    requires SoFar(c, run, id, i, k, mode, e, o) && !run[k].workers[id].pc.Idle?
    ensures SoFar(c, run, id, i, k + 1, mode, e, o)
  {
    hide Run, Inv, Step, For, NoPartly, NoEmpty, Unmoved, Commits, Forwarded, SawNoPartly, SawNoEmpty, SawUnmoved, Committed;
    var s, s2 := run[k], run[k + 1];
    RunKeepsInv(c, run, k);
    var w := Stepper(c, run, k);
    SawMore(c, run, id, i, k, o);
    if w == id {
      StepComesOn(c, s, s2, id, mode, e, o);
      SawHere(c, run, id, i, k, o);
      AbortForwards(s.workers[id].pc, mode, e, o);
    } else {
      PcStays(c, s, s2, w, id);
      StayCommitsNot(s, s2, id, o);
    }
  }

  lemma StayCommitsNot(s: State, s2: State, id: int, o: Obj)
    requires id in s.workers && id in s2.workers && s2.workers[id] == s.workers[id]
    ensures !Commits(s, s2, id, o)
  {
  }

  /** A call begins without moving anything. */
  lemma StartCommitsNot(c: Heap, run: seq<State>, id: int, i: nat, o: Obj)
    requires Run(c, run) && i + 1 < |run| && id in run[i].workers && id in run[i + 1].workers
    requires run[i].workers[id].pc.Idle? && !run[i + 1].workers[id].pc.Idle?
    ensures !Committed(run, id, i, i + 1, o)
  {
    hide Run, Start, Allocate, Forwarding;
    var s, s2 := run[i], run[i + 1];
    var w := Stepper(c, run, i);
    if w != id { PcStays(c, s, s2, w, id); }
    if Allocate(c, s, s2, id) {
      AllocateGoes(c, s, s2, id);
    } else if Forwarding(c, s, s2, id) {
      ForwardingAt(c, s, s2, id);
    } else {
      StartTags(c, s, s2, id);
    }
  }

  lemma AbortForwards(pc: Pc, mode: Mode, e: Edge, o: Obj)
    requires For(pc, mode, e, o)
    ensures pc.Abort? || (pc.Update? && pc.out == Evacuated) ==> mode == Forward
  {
  }

  lemma Stepper(c: Heap, run: seq<State>, k: nat) returns (w: int)
    requires Run(c, run) && k + 1 < |run|
    ensures Step(c, run[k], run[k + 1], w)
  {
    hide Step, Init;
    assert Next(c, run[k], run[k + 1]);
    w :| Step(c, run[k], run[k + 1], w);
  }

  lemma {:induction false} CallComesOn(c: Heap, run: seq<State>, id: int, i: nat, j: nat, k: nat, mode: Mode, e: Edge, o: Obj)
    requires Run(c, run) && Call(run, id, i, j, mode, e, o) && i < k <= j
    ensures SoFar(c, run, id, i, k, mode, e, o)
  {
    hide Run, Means, SawNoPartly, SawNoEmpty, SawUnmoved, Committed;
    if i + 1 < k {
      CallComesOn(c, run, id, i, j, k - 1, mode, e, o);
      hide SoFar;
      SoFarNext(c, run, id, i, k - 1, mode, e, o);
    } else {
      StartCommitsNot(c, run, id, i, o);
    }
  }

  /** Every call ends with a report, and what it reports is so: that this worker has moved the object, or
      that the edge holds the new address; that the object stays, and at points of the call there was
      neither a partly full nor an empty block; or, when the object was not to be moved, that it had not
      been at some point of the call. */
  lemma CallReturns(c: Heap, run: seq<State>, id: int, i: nat, j: nat, mode: Mode, e: Edge, o: Obj)
    requires Run(c, run) && Call(run, id, i, j, mode, e, o)
    ensures Means(c, run, id, i, j, mode, e, o, run[j].workers[id].pc.report)
  {
    hide Run, Means;
    CallComesOn(c, run, id, i, j, j, mode, e, o);
  }

  lemma OneCommit(c: Heap, run: seq<State>, o: Obj, n: nat, n2: nat, id: int, id2: int)
    requires Run(c, run) && n + 1 < |run| && n2 + 1 < |run| && o in c.objs
    requires Commits(run[n], run[n + 1], id, o) && Commits(run[n2], run[n2 + 1], id2, o)
    ensures n == n2 && id == id2
  {
    hide Run, Step;
    if n < n2 { MovedStays(c, run, n + 1, n2, o); }
    if n2 < n { MovedStays(c, run, n2 + 1, n, o); }
    var w := Stepper(c, run, n);
    if id != w { PcStays(c, run[n], run[n + 1], w, id); }
    if id2 != w { PcStays(c, run[n], run[n + 1], w, id2); }
  }

  /** Two calls of a worker that have a step in common are one. */
  lemma SameCall(run: seq<State>, id: int, n: nat, i: nat, j: nat, i2: nat, j2: nat, mode: Mode, mode2: Mode, e: Edge, e2: Edge, o: Obj)
    requires Call(run, id, i, j, mode, e, o) && Call(run, id, i2, j2, mode2, e2, o) && i <= n < j && i2 <= n < j2
    ensures i == i2 && j == j2
  {
  }

  lemma MeansCommitted(c: Heap, run: seq<State>, id: int, i: nat, j: nat, mode: Mode, e: Edge, o: Obj) returns (n: nat)
    requires j < |run| && Means(c, run, id, i, j, mode, e, o, Some(Evacuated))
    ensures i <= n < j && Commits(run[n], run[n + 1], id, o)
  {
    hide Forwarded, Commits;
    n :| i <= n < j && Commits(run[n], run[n + 1], id, o);
  }

  lemma CommittedAt(c: Heap, run: seq<State>, id: int, i: nat, j: nat, mode: Mode, e: Edge, o: Obj) returns (n: nat)
    requires Run(c, run) && Call(run, id, i, j, mode, e, o) && run[j].workers[id].pc.report == Some(Evacuated)
    ensures i <= n < j && Commits(run[n], run[n + 1], id, o)
  {
    hide Run, Commits, Call, Means;
    CallFits(run, id, i, j, mode, e, o);
    CallReturns(c, run, id, i, j, mode, e, o);
    n := MeansCommitted(c, run, id, i, j, mode, e, o);
  }

  /** No two calls report that they have moved the same object. */
  lemma OneEvacuates(c: Heap, run: seq<State>, o: Obj, id: int, i: nat, j: nat, e: Edge, mode: Mode,
                     id2: int, i2: nat, j2: nat, e2: Edge, mode2: Mode)
    requires Run(c, run) && o in c.objs
    requires Call(run, id, i, j, mode, e, o) && run[j].workers[id].pc.report == Some(Evacuated)
    requires Call(run, id2, i2, j2, mode2, e2, o) && run[j2].workers[id2].pc.report == Some(Evacuated)
    ensures id == id2 && i == i2 && j == j2
  {
    var n := CommittedAt(c, run, id, i, j, mode, e, o);
    var n2 := CommittedAt(c, run, id2, i2, j2, mode2, e2, o);
    hide Run, Call, Commits;
    CallFits(run, id, i, j, mode, e, o);
    CallFits(run, id2, i2, j2, mode2, e2, o);
    OneCommit(c, run, o, n, n2, id, id2);
    SameCall(run, id, n, i, j, i2, j2, mode, mode2, e, e2, o);
  }

  lemma CallFits(run: seq<State>, id: int, i: nat, j: nat, mode: Mode, e: Edge, o: Obj)
    requires Call(run, id, i, j, mode, e, o)
    ensures j < |run|
  {
  }

  // ----- every call can end ----------------------------------------------------------------

  ghost function Steps(c: Heap): (State, State) -> bool {
    (s: State, s2: State) => Next(c, s, s2)
  }

  /** A bound on the steps a worker has left to make, unless it waits for another to be done with its object. */
  function Left(c: Heap, p: Space, pc: Pc): int {
    match pc
    case Idle(_) => 0
    case Update(_, _, _, _) => 1
    case Abort(_, _, _) => 1
    case Commit(_, _, _, _) => 2
    case WriteTag(_, _, _, _) => 3
    case Copy(_, o, _, _, i) => Size(c, o) - i + 4
    case FreshBlock(_, o, _) => Size(c, o) + 5
    case TryEmpty(_, o, _) => Size(c, o) + 6
    case TryPartly(_, o, _) => Size(c, o) + 2 * |p.partly| + 7
    case Alloc(_, o, _) => Size(c, o) + 2 * |p.partly| + 8
    case Claim(_, o, _) => Size(c, o) + 2 * |p.partly| + 9
    case _ => Size(c, pc.o) + 2 * |p.partly| + 10
  }

  /** Nobody else is copying the worker's object. */
  ghost predicate Free(s: State, id: int) {
    id in s.workers && !s.workers[id].pc.Idle? &&
    forall i | i in s.workers && i != id :: Owned(s.workers[i].pc) != s.workers[id].pc.o
  }

  lemma TakeCan(c: Heap, s: State, id: int)
    requires id in s.workers && (s.workers[id].pc.Alloc? || s.workers[id].pc.FreshBlock?)
    requires var w := s.workers[id]; w.pc.Alloc? ==> w.m.hp + Rounded(8 * Size(c, w.pc.o)) <= w.m.limit
    ensures var pc := s.workers[id].pc; var s2 := Take(c, s, id, pc.e, pc.o, pc.data);
      id in s2.workers && Allocate(c, s, s2, id) && s2.space == s.space
  {
    hide Rounded, Carved, Size, Bump;
  }

  lemma GoCan(c: Heap, s: State, id: int)
    requires id in s.workers && (s.workers[id].pc.Alloc? || s.workers[id].pc.TryPartly? || s.workers[id].pc.TryEmpty?)
    requires var w := s.workers[id]; w.pc.Alloc? ==> w.m.hp + Rounded(8 * Size(c, w.pc.o)) > w.m.limit && w.m.block == 0
    requires s.workers[id].pc.TryPartly? ==> NoPartly(s.space)
    requires s.workers[id].pc.TryEmpty? ==> NoEmpty(s.space)
    ensures var s2 := Go(s, id, AllocatePc(c, s.workers[id], s.space));
      id in s2.workers && Allocate(c, s, s2, id) && s2.space == s.space
  {
    hide Rounded, Size;
  }

  /** Giving up a block that has no room. */
  lemma ReleaseCan(c: Heap, s: State, id: int) returns (s2: State)
    requires id in s.workers && s.workers[id].pc.Alloc? && s.workers[id].m.block != 0
    requires var w := s.workers[id]; w.m.hp + Rounded(8 * Size(c, w.pc.o)) > w.m.limit
    ensures id in s2.workers && Allocate(c, s, s2, id) && s2.space.partly == s.space.partly
  {
    hide Rounded, Size, Put;
    var Alloc(e, o, data) := s.workers[id].pc;
    var m, y, p := s.workers[id].m, s.layout, s.space;
    s2 := With(s, id, TryPartly(e, o, data), Allocator(0, 0, 0)).(space := p.(full := [m.block] + p.full), layout := Put(y, m.block, Full));
  }

  lemma PartlyCan(c: Heap, s: State, id: int) returns (s2: State)
    requires id in s.workers && s.workers[id].pc.TryPartly? && !NoPartly(s.space)
    ensures id in s2.workers && Allocate(c, s, s2, id) && s2.space.partly == s.space.partly[1..]
  {
    hide Put, Base, UsedIn;
    var TryPartly(e, o, data) := s.workers[id].pc;
    var y, p, b := s.layout, s.space, s.space.partly[0];
    s2 := With(s, id, Alloc(e, o, data), Allocator(b, Base(c, b) + UsedIn(p, b), Base(c, b) + REGION))
      .(space := p.(partly := p.partly[1..]), layout := Put(y, b, Held(id)));
  }

  lemma EmptyCan(c: Heap, s: State, id: int) returns (s2: State)
    requires id in s.workers && s.workers[id].pc.TryEmpty? && !NoEmpty(s.space)
    ensures id in s2.workers && Allocate(c, s, s2, id) && s2.space.partly == s.space.partly
  {
    hide Put, Base, UsedIn;
    var TryEmpty(e, o, data) := s.workers[id].pc;
    var y, p := s.layout, s.space;
    var b := if p.empty != [] then p.empty[0] else p.paged[0];
    var q := (if p.empty != [] then p.(empty := p.empty[1..]) else p.(paged := p.paged[1..])).(used := p.used[b := 0]);
    s2 := With(s, id, FreshBlock(e, o, data), Allocator(b, Base(c, b), Base(c, b) + REGION)).(space := q, layout := Put(y, b, Held(id)));
  }

  /** A worker looking for memory can go on, and comes nearer to its end. */
  lemma AllocateCan(c: Heap, s: State, id: int) returns (s2: State)
    requires id in s.workers
    requires var pc := s.workers[id].pc; pc.Alloc? || pc.TryPartly? || pc.TryEmpty? || pc.FreshBlock?
    ensures id in s2.workers && Allocate(c, s, s2, id)
    ensures Left(c, s2.space, s2.workers[id].pc) < Left(c, s.space, s.workers[id].pc)
  {
    hide Rounded, Take, Go, Allocate;
    var w := s.workers[id];
    if w.pc.FreshBlock? || (w.pc.Alloc? && w.m.hp + Rounded(8 * Size(c, w.pc.o)) <= w.m.limit) {
      TakeCan(c, s, id);
      s2 := Take(c, s, id, w.pc.e, w.pc.o, w.pc.data);
    } else if w.pc.Alloc? && w.m.block != 0 {
      s2 := ReleaseCan(c, s, id);
    } else if w.pc.TryPartly? && !NoPartly(s.space) {
      s2 := PartlyCan(c, s, id);
    } else if w.pc.TryEmpty? && !NoEmpty(s.space) {
      s2 := EmptyCan(c, s, id);
    } else {
      GoCan(c, s, id);
      s2 := Go(s, id, AllocatePc(c, w, s.space));
    }
    AllocateGoes(c, s, s2, id);
  }

  /** With nobody else copying its object a worker does not find it busy. */
  lemma NotBusy(c: Heap, s: State, id: int)
    requires Inv(c, s) && Free(s, id) && Owned(s.workers[id].pc) == 0
    ensures TagOf(c, s, s.workers[id].pc.o) != 0
  {
    hide SpaceOk, ChunksOk, SlotsOk, WholeCopy, Copied, ChunkFor, AllocatorOk, SlotOf;
    assert PcOk(c, s, s.workers[id].pc, s.workers[id].m);
    var o := s.workers[id].pc.o;
    assert ObjOk(c, s, o);
    OddOriginal(c, o);
    var w := OwnerOf(s.workers, s.owner, o);
  }

  lemma OwnerOf(workers: map<int, Worker>, owner: map<Obj, int>, o: Obj) returns (id: int)
    requires OwnersOk(workers, owner)
    ensures o in owner ==> id in workers && Owned(workers[id].pc) == o
  {
    hide Owned;
    id := if o in owner then owner[o] else 0;
  }

  lemma LookCan(c: Heap, s: State, id: int) returns (s2: State)
    requires id in s.workers && (s.workers[id].pc.Look? || s.workers[id].pc.Busy? || s.workers[id].pc.Claim?)
    requires TagOf(c, s, s.workers[id].pc.o) != 0
    ensures id in s2.workers && Forwarding(c, s, s2, id)
    ensures Left(c, s2.space, s2.workers[id].pc) < Left(c, s.space, s.workers[id].pc)
  {
    hide TagOf;
    var pc := s.workers[id].pc;
    var tag := TagOf(c, s, pc.o);
    if !pc.Claim? {
      s2 := Go(s, id, Read(pc.mode, pc.e, pc.o, tag));
    } else if tag == pc.data {
      s2 := Go(s, id, Alloc(pc.e, pc.o, pc.data)).(tags := s.tags[pc.o := 0], owner := s.owner[pc.o := id]);
    } else {
      s2 := Go(s, id, Update(pc.e, pc.o, tag, Updated));
    }
  }

  lemma WriteCan(c: Heap, s: State, id: int) returns (s2: State)
    requires id in s.workers
    requires var pc := s.workers[id].pc; pc.Copy? || pc.WriteTag? || pc.Commit? || pc.Abort? || pc.Update?
    requires s.workers[id].pc.Copy? ==> s.workers[id].pc.i <= Size(c, s.workers[id].pc.o)
    ensures id in s2.workers && Forwarding(c, s, s2, id)
    ensures Left(c, s2.space, s2.workers[id].pc) < Left(c, s.space, s.workers[id].pc)
  {
    hide TagOf, Size, OldWord;
    match s.workers[id].pc
    case Copy(e, o, data, to, i) =>
      if i < Size(c, o) {
        s2 := Go(s, id, Copy(e, o, data, to, i + 1)).(mem := s.mem[to + 8 * i := OldWord(c, s, o, i)]);
      } else {
        s2 := Go(s, id, WriteTag(e, o, data, to));
      }
    case WriteTag(e, o, data, to) => s2 := Go(s, id, Commit(e, o, data, to)).(mem := s.mem[to := data]);
    case Commit(e, o, data, to) =>
      s2 := Go(s, id, Update(e, o, to, Evacuated)).(tags := s.tags[o := to], owner := s.owner - {o},
                                                    evacuated := s.evacuated + multiset{o});
    case Abort(e, o, data) => s2 := Go(s, id, Idle(Some(Failed))).(tags := s.tags[o := data], owner := s.owner - {o});
    case Update(e, o, addr, out) => s2 := Go(s, id, Idle(Some(out))).(slots := s.slots[e := addr]);
  }

  lemma LeftNatural(c: Heap, s: State, id: int)
    requires Inv(c, s) && id in s.workers
    ensures Left(c, s.space, s.workers[id].pc) >= 0
    ensures s.workers[id].pc.Copy? ==> s.workers[id].pc.i <= Size(c, s.workers[id].pc.o)
  {
    hide HeapOk, SpaceOk, ChunksOk, SlotsOk, ObjsOk, OwnersOk, ChunkFor, Copied, WholeCopy, AllocatorOk, TagOf, Original;
    assert PcOk(c, s, s.workers[id].pc, s.workers[id].m);
  }

  /** A worker whose object nobody else is copying can go on, and comes nearer to the end of its call. */
  lemma WorkerCan(c: Heap, s: State, id: int) returns (s2: State)
    requires Inv(c, s) && Free(s, id)
    ensures Step(c, s, s2, id) && 0 <= Left(c, s2.space, s2.workers[id].pc) < Left(c, s.space, s.workers[id].pc)
    ensures Inv(c, s2)
  {
    LeftNatural(c, s, id);
    var pc := s.workers[id].pc;
    if Owned(pc) == 0 { NotBusy(c, s, id); }
    hide Inv, Allocate, Forwarding, Left, Size, TagOf, Start;
    if pc.Alloc? || pc.TryPartly? || pc.TryEmpty? || pc.FreshBlock? {
      s2 := AllocateCan(c, s, id);
    } else if pc.Look? || pc.Busy? || pc.Claim? {
      s2 := LookCan(c, s, id);
    } else {
      s2 := WriteCan(c, s, id);
    }
    StepKeepsInv(c, s, s2, id);
    LeftNatural(c, s2, id);
  }

  /** An idle worker can begin a call, of either kind, for any edge that still holds the old address. */
  lemma CallCanBegin(c: Heap, s: State, id: int, mode: Mode, e: Edge)
    requires id in s.workers && s.workers[id].pc.Idle? && e in c.edges && SlotOf(c, s, e) == c.edges[e]
    ensures exists s2 :: Step(c, s, s2, id) && s2.workers[id].pc == Look(mode, e, c.edges[e])
  {
    var s2 := Go(s, id, Look(mode, e, c.edges[e]));
    hide SlotOf;
    assert Start(c, s, s2, id);
    assert Step(c, s, s2, id);
  }

  /** And it can give the block back that it has, to the partly full ones as far as it is used. */
  lemma CanRelease(c: Heap, s: State, id: int) returns (s2: State)
    requires id in s.workers && s.workers[id].pc.Idle? && s.workers[id].m.block != 0
    ensures Step(c, s, s2, id) && s2.workers == s.workers[id := Worker(s.workers[id].pc, Allocator(0, 0, 0))]
    ensures var m := s.workers[id].m;
      if m.hp % REGION != 0 then s2.space.partly == [m.block] + s.space.partly && UsedIn(s2.space, m.block) == m.hp % REGION
      else s2.space.full == [m.block] + s.space.full
  {
    var m := s.workers[id].m;
    var p, y := s.space, s.layout;
    var used := m.hp % REGION;
    if used != 0 {
      p, y := p.(partly := [m.block] + p.partly, used := p.used[m.block := used]), Put(y, m.block, Partly);
    } else {
      p, y := p.(full := [m.block] + p.full), Put(y, m.block, Full);
    }
    s2 := With(s, id, s.workers[id].pc, Allocator(0, 0, 0)).(space := p, layout := y);
    hide SlotOf, Put;
    assert Start(c, s, s2, id);
  }

  /** A request takes the whole granules it needs and no more. */
  lemma RoundedIs(n: nat)
    ensures n <= Rounded(n) < n + GRANULE && Rounded(n) % GRANULE == 0
  {
  }

  lemma SameObject(c: Heap, s: State, s2: State, id: int)
    requires Inv(c, s) && Step(c, s, s2, id) && !s.workers[id].pc.Idle? && !s2.workers[id].pc.Idle?
    ensures s2.workers[id].pc.o == s.workers[id].pc.o
  {
    hide Inv, Step;
    StepMoves(c, s, s2, id);
    var pc := s.workers[id].pc;
    StepComesOn(c, s, s2, id, if pc.Look? || pc.Busy? then pc.mode else Forward, pc.e, pc.o);
  }

  lemma StillFree(c: Heap, s: State, s2: State, id: int)
    requires Inv(c, s) && Free(s, id) && Step(c, s, s2, id) && !s2.workers[id].pc.Idle?
    ensures Free(s2, id)
  {
    hide Inv, Step, Owned;
    SameObject(c, s, s2, id);
    StepMoves(c, s, s2, id);
  }

  /** Left alone a worker comes to the end of its call. */
  lemma RunsAlone(c: Heap, s: State, id: int) returns (t: State)
    requires Inv(c, s) && Free(s, id)
    ensures CanReach(Steps(c), s, t) && Inv(c, t) && OnlyMoves(s, t, id) && t.workers[id].pc.Idle?
    decreases Left(c, s.space, s.workers[id].pc)
  {
    hide Inv, Step, Left;
    var s2 := WorkerCan(c, s, id);
    StepMoves(c, s, s2, id);
    assert Steps(c)(s, s2);
    if s2.workers[id].pc.Idle? {
      t := s2;
      ReachesStep(Steps(c), s, t);
    } else {
      StillFree(c, s, s2, id);
      t := RunsAlone(c, s2, id);
      ReachesNext(Steps(c), s, s2, t);
    }
  }

  ghost function Going(s: State): set<int> {
    set id | id in s.workers && !s.workers[id].pc.Idle?
  }

  lemma SomeGoing(s: State) returns (id: int)
    requires Going(s) != {}
    ensures id in s.workers && !s.workers[id].pc.Idle?
  {
    id := Pick(Going(s));
  }

  /** Some worker in a call can go on: one that copies an object, or any if none does. */
  lemma SomeFree(c: Heap, s: State) returns (id: int)
    requires Inv(c, s) && Going(s) != {}
    ensures Free(s, id)
  {
    hide HeapOk, SpaceOk, ChunksOk, ObjsOk, SlotsOk, WorkersOk, Owned;
    if w :| w in s.workers && Owned(s.workers[w].pc) != 0 {
      id := w;
      OwnedObject(s.workers[w].pc);
      OwnerIs(s.workers, s.owner, w);
    } else {
      id := SomeGoing(s);
      NoObject(c, s, id);
    }
  }

  lemma OwnedObject(pc: Pc)
    requires Owned(pc) != 0
    ensures !pc.Idle? && Owned(pc) == pc.o
  {
  }

  lemma NoObject(c: Heap, s: State, id: int)
    requires Inv(c, s) && id in s.workers && !s.workers[id].pc.Idle?
    ensures s.workers[id].pc.o != 0
  {
    hide SpaceOk, ChunksOk, ObjsOk, SlotsOk, OwnersOk, AllocatorOk, Owned;
    assert PcOk(c, s, s.workers[id].pc, s.workers[id].m);
  }

  lemma OneLess(s: State, t: State, id: int)
    requires OnlyMoves(s, t, id) && !s.workers[id].pc.Idle? && t.workers[id].pc.Idle?
    ensures |Going(t)| < |Going(s)|
  {
    assert Going(s) == Going(t) + {id};
  }

  /** From every state the workers can come to the end of their calls. */
  lemma AllEnd(c: Heap, s: State) returns (t: State)
    requires Inv(c, s)
    ensures CanReach(Steps(c), s, t) && Inv(c, t) && forall id | id in t.workers :: t.workers[id].pc.Idle?
    decreases |Going(s)|
  {
    hide Inv;
    if Going(s) == {} {
      t := s;
      ReachesSelf(Steps(c), s);
      assert forall id | id in t.workers && !t.workers[id].pc.Idle? :: id in Going(s);
    } else {
      var id := SomeFree(c, s);
      var s2 := RunsAlone(c, s, id);
      OneLess(s, s2, id);
      t := AllEnd(c, s2);
      ReachesTrans(Steps(c), s, s2, t);
    }
  }

  /** Whatever has happened, every worker can still come back from its call. */
  lemma CanAllEnd(c: Heap, run: seq<State>, i: nat) returns (t: State)
    requires Run(c, run) && i < |run|
    ensures CanReach(Steps(c), run[i], t) && forall id | id in t.workers :: t.workers[id].pc.Idle?
  {
    RunKeepsInv(c, run, i);
    t := AllEnd(c, run[i]);
  }
}
