/** The semispace collector: bump allocation, Cheney scanning, ephemerons. */
module Semispace {
  import opened ObjectModel
  import opened SemispaceInvariant
  import opened SemispaceSteps
  import opened SemispaceTrace
  import opened SemispaceResult
  import opened SemispaceFacts

  class Heap {
    const types: seq<TypeInfo>
    const hash: Addr -> int           // which bucket of the pending table a key belongs to
    const nbuckets: int

    var store: map<Addr, Object>
    var roots: seq<int>
    var hp: int
    var limit: int
    var fromBase: int
    var toBase: int
    var active: int                   // bytes in use of each region
    var large: set<Addr>              // live nodes of the large object space
    var marked: set<Addr>
    var buckets: seq<seq<Addr>>       // pending ephemerons, by new address
    var resolved: seq<Addr>
    var checking: bool
    var count: int

    ghost var layout: seq<Addr>       // objects of the current space in address order
    ghost var rank: map<Addr, nat>
    ghost var w: World
    ghost var g: Progress

    ghost function Mem(): Memory
      reads this
    {
      Memory(store, roots, hp, marked, buckets, resolved, checking)
    }

    ghost predicate Agrees()
      reads this
    {
      && WellFormed(w)
      && Described(types, rank, w)
      && w.fromBase == fromBase && w.toBase == toBase && w.active == active
      && w.large == large
      && w.epoch == count
      && w.hash == hash && w.nbuckets == nbuckets
    }

    /** The invariant of a collection in progress. */
    ghost predicate Tracing(busy: Addr)
      reads this
    {
      Agrees() && Inv(w, Mem(), g, busy)
    }

    // ----- ephemeron keys ----------------------------------------------------------------

    /** Reports whether the key of the ephemeron at `a` is live, relocating the key if so. */
    method VisitKey(a: Addr, ghost e: Addr, ghost busy: Addr) returns (live: bool)
      requires Tracing(busy) && Names(g, a, e) && (e, KEY) !in g.done && !Dead(w, e)
      modifies `store
      ensures live <==> Found(g.at, Word(w, e, KEY))
      ensures a in old(store) && |old(store)[a]| == 6
      ensures store == if live then old(store)[a := old(store)[a][KEY := Image(g.at, Word(w, e, KEY))]] else old(store)
    {
      hide Inv, Grows, WellFormed, Described, Complete, Untouched, Begun, MayUpdate, Traced, Needed;
      KeySays(w, Mem(), g, busy, e);
      var key := store[a][KEY];
      if key % 8 != 0 {
        assert store[a][KEY := key] == store[a];
        return true;
      }
      PointerSays(w, key);
      if fromBase <= key < fromBase + active {
        TagSays(types, rank, w, Mem(), g, busy, key);
        var tag := store[key][0];
        if tag % 2 == 1 {
          return false;
        }
        store := store[a := store[a][KEY := tag]];
        return true;
      }
      MarkSays(w, Mem(), g, busy, key);
      live := key in marked;
      assert store[a][KEY := key] == store[a];
    }

    /** PENDING to RESOLVED if the key of the ephemeron at `link` is live. */
    method MaybeResolve(link: Addr, ghost e: Addr, ghost busy: Addr)
      requires Tracing(busy) && Names(g, link, e) && g.status[e].Pending? && Begun(g, e)
      modifies `store, `resolved, `g
      ensures Tracing(busy)
      ensures g == if Word(w, e, KEY) in old(g).at then ResolveProgress(old(g), e) else old(g)
    {
      hide Inv, Grows, WellFormed, Described, Complete, Untouched, Begun, MayUpdate, Traced, Needed;
      ghost var m0 := Mem();
      PendingSays(w, m0, g, busy, e);
      var live := VisitKey(link, e, busy);
      if live {
        ResolveStep(w, m0, g, e, busy);
        if store[link][STATE] == 2 {
          store := store[link := store[link][STATE := 3]];
          resolved := [link] + resolved;
        }
        WriteTwice(m0.store, link, m0.store[link][KEY := Image(g.at, Word(w, e, KEY))], store[link]);
        g := ResolveProgress(g, e);
      }
    }

    /** Resolves every pending ephemeron whose key is `obj`, which has just been found. */
    method ResolvePending(obj: Addr)
      requires Tracing(obj) && obj in g.at
      modifies `store, `resolved, `buckets, `g
      ensures Tracing(0) && g.at == old(g).at && Grows(w, old(g), g, {}, {})
    {
      hide Inv, Grows, WellFormed, Described, Complete, Untouched, Begun, MayUpdate, Traced, Needed;
      var b := hash(obj);
      WaitingStart(w, Mem(), g, obj);
      GrowsSelf(w, g);
      ghost var g0 := g;
      var i := 0;
      while i < |buckets[b]|
        invariant Tracing(obj) && g.at == g0.at && Grows(w, g0, g, {}, {})
        invariant 0 <= b < |buckets| && 0 <= i <= |buckets[b]|
        invariant Waiting(w, g, obj, buckets[b][i..])
        decreases |buckets[b]| - i
      {
        var link := buckets[b][i];
        LinkPublished(w, Mem(), g, obj, b, i);
        ghost var e := LinkNames(w, Mem(), g, obj, link);
        WaitingNext(w, Mem(), g, obj, buckets[b], i, e);
        if store[link][STATE] != 2 {
          ElideStep(w, Mem(), g, obj, b, i);
          buckets := buckets[b := buckets[b][..i] + buckets[b][i + 1..]];
        } else {
          if store[link][KEY] == obj {
            ghost var g1 := g;
            MaybeResolve(link, e, obj);
            ResolveGrows(w, g1, e);
            GrowsThen(w, g0, g1, g);
          }
          i := i + 1;
        }
      }
      WaitingEnd(w, Mem(), g, obj, buckets[b][i..]);
    }

    /** An object has been found: ephemerons waiting for it become resolved, once keys are checked. */
    method ResolveIfChecking(obj: Addr)
      requires Tracing(obj) && obj in g.at
      modifies `store, `resolved, `buckets, `g
      ensures Tracing(0) && g.at == old(g).at && Grows(w, old(g), g, {}, {})
    {
      hide Inv, Grows, WellFormed, Described, Complete, Untouched, Begun, MayUpdate, Traced, Needed;
      if checking {
        ResolvePending(obj);
      } else {
        GrowsSelf(w, g);
        CalmStep(w, Mem(), g, obj);
      }
    }

    // ----- visiting ----------------------------------------------------------------------

    /** Copies a from-space object to the allocation pointer and leaves its new address behind. */
    method Copy(obj: Addr) returns (r: Addr)
      requires Tracing(0) && obj in w.layout && obj !in g.at && Needed(w, g.at.Keys + {obj})
      modifies `store, `hp, `buckets, `resolved, `g
      ensures Tracing(0) && obj in g.at && r == g.at[obj] && Grows(w, old(g), g, {}, {})
    {
      hide Inv, Grows, WellFormed, Described, Complete, Untouched, Begun, MayUpdate, Traced, Needed;
      ghost var g0, m0 := g, Mem();
      CopyStep(w, m0, g0, obj);
      SizeSays(types, rank, w, obj);
      SmallIsNotLarge(w, obj);
      var o := store[obj];
      r := hp;
      store := store[hp := o][obj := o[0 := hp]];
      hp := hp + AlignUp(SizeInBytes(TypeOf(types, o[0]), o));
      g := CopyProgress(g0, obj, r);
      CopyGrows(w, g0, obj, r);
      ghost var g1 := g;
      ResolveIfChecking(obj);
      GrowsThen(w, g0, g1, g);
    }

    method Forward(obj: Addr) returns (r: Addr)
      requires Tracing(0) && obj in w.layout && Needed(w, g.at.Keys + {obj})
      modifies `store, `hp, `buckets, `resolved, `g
      ensures Tracing(0) && obj in g.at && r == g.at[obj] && Grows(w, old(g), g, {}, {})
    {
      hide Inv, Grows, WellFormed, Described, Complete, Untouched, Begun, MayUpdate, Traced, Needed;
      TagSays(types, rank, w, Mem(), g, 0, obj);
      GrowsSelf(w, g);
      var tag := store[obj][0];
      if tag % 2 == 0 {
        r := tag;
      } else {
        r := Copy(obj);
      }
    }

    /** Marks a large object that is not marked yet. */
    method Mark(x: Addr)
      requires Tracing(0) && x in large && x !in g.at && Needed(w, g.at.Keys + {x})
      modifies `store, `marked, `buckets, `resolved, `g
      ensures Tracing(0) && x in g.at && g.at[x] == x && Untouched(g, x) && Begun(g, x) && x !in w.ephemerons
      ensures marked == old(marked) + {x} && Grows(w, MarkProgress(old(g), x), g, {}, {})
    {
      hide Inv, Grows, WellFormed, Described, Complete, Untouched, Begun, MayUpdate, Traced, Needed;
      MarkStep(w, Mem(), g, x);
      LargeUntouched(w, Mem(), g, x);
      ghost var g1 := MarkProgress(g, x);
      MarkUntouched(g, x);
      marked := marked + {x};
      g := g1;
      ResolveIfChecking(x);
      LargeReady(w, Mem(), g1, g, x);
    }

    /** Marks a large object and, the first time, traces it. */
    method VisitLarge(x: Addr)
      requires Tracing(0) && x in large && Needed(w, g.at.Keys + {x})
      modifies `store, `hp, `marked, `buckets, `resolved, `g
      ensures Tracing(0) && x in g.at && g.at[x] == x && Grows(w, old(g), g, {}, {}) && old(marked) <= marked
      decreases |large - marked|, 0
    {
      hide Inv, Grows, WellFormed, Described, Complete, Untouched, Begun, MayUpdate, Traced, Needed;
      MarkSays(w, Mem(), g, 0, x);
      GrowsSelf(w, g);
      if x !in marked {
        ghost var g0 := g;
        Shrinks(large, marked, x);
        Mark(x);
        ghost var g2 := g;
        TraceSlots(x, x);
        LargeGrows(w, g0, x, g2, g);
      }
    }

    /** What an edge holding `ref` holds once it has been visited. */
    method Visit(ref: int) returns (r: int)
      requires Tracing(0) && RefOk(w, ref)
      requires Pointer(ref) ==> Needed(w, g.at.Keys + {ref})
      modifies `store, `hp, `marked, `buckets, `resolved, `g
      ensures Tracing(0) && Found(g.at, ref) && r == Image(g.at, ref)
      ensures Grows(w, old(g), g, {}, {}) && old(marked) <= marked
      decreases |large - marked|, 1
    {
      hide Inv, Grows, WellFormed, Described, Complete, Untouched, Begun, MayUpdate, Traced, Needed;
      GrowsSelf(w, g);
      r := ref;
      if ref == 0 || ref % 8 != 0 {
        return;
      }
      PointerSays(w, ref);
      if fromBase <= ref < fromBase + active {
        r := Forward(ref);
      } else {
        VisitLarge(ref);
      }
    }

    /** Stores the new address of what slot `j` of `x` refers to. */
    method Update(a: Addr, j: int, r: int, ghost x: Addr)
      requires Tracing(0) && x in g.at && g.at[x] == a && Begun(g, x)
      requires Traced(w, x, j) && MayUpdate(w, g, x, j)
      requires Found(g.at, Target(w, x, j)) && r == Image(g.at, Target(w, x, j))
      modifies `store, `g
      ensures Tracing(0) && g == SlotProgress(old(g), x, j)
    {
      hide Inv, Grows, WellFormed, Described, Complete, Untouched, Begun, MayUpdate, Traced, Needed;
      SlotStep(w, Mem(), g, x, j, 0);
      store := store[a := store[a][j := r]];
      g := SlotProgress(g, x, j);
    }

    /** Visits one edge of `x`, whose current version is at `a`. */
    method TraceSlot(a: Addr, j: int, ghost x: Addr)
      requires Tracing(0) && x in g.at && g.at[x] == a && Begun(g, x)
      requires Traced(w, x, j) && (x, j) !in g.done && MayUpdate(w, g, x, j)
      requires x in w.ephemerons ==> j == CHAIN || j == VALUE
      modifies `store, `hp, `marked, `buckets, `resolved, `g
      ensures Tracing(0) && x in g.at && g.at[x] == a && Begun(g, x) && (x, j) in g.done
      ensures Grows(w, old(g), g, {(x, j)}, {}) && old(marked) <= marked
      decreases |large - marked|, 2
    {
      hide Inv, Grows, WellFormed, Described, Complete, Untouched, Begun, MayUpdate, Traced, Needed;
      ghost var g0, m0 := g, Mem();
      SlotSays(w, Mem(), g, x, j);
      var ref := store[a][j];
      if ref != 0 && ref % 2 == 0 {
        if Pointer(ref) { TargetNeeded(w, Mem(), g, x, j); }
        ref := Visit(ref);
      } else {
        NotPointer(ref);
        GrowsSelf(w, g);
      }
      ghost var g1 := g;
      SlotStays(w, m0, g0, Mem(), g1, x, j);
      Update(a, j, ref, x);
      SlotGrows(w, g1, x, j);
      GrowsAlso(w, g0, g1, g, {(x, j)});
    }

    /** Visits every reference slot of `x`, an object other than an ephemeron. */
    method TraceSlots(a: Addr, ghost x: Addr)
      requires Tracing(0) && x in g.at && g.at[x] == a && Begun(g, x) && Untouched(g, x) && x !in w.ephemerons
      modifies `store, `hp, `marked, `buckets, `resolved, `g
      ensures Tracing(0) && x in g.at && g.at[x] == a && Complete(w, g, x)
      ensures Grows(w, old(g), g, SlotSet(w, x), {}) && old(marked) <= marked
      decreases |large - marked|, 3
    {
      hide Inv, Grows, WellFormed, Described, Complete, Untouched, Begun, MayUpdate, Traced, Needed;
      SlotsSay(types, rank, w, Mem(), g, x);
      var slots := RefSlots(TypeOf(types, store[a][0]), store[a]);
      ghost var g0 := g;
      GrowsNone(w, g, SlotSet(w, x));
      var i := 0;
      while i < |slots|
        invariant 0 <= i <= |slots|
        invariant Tracing(0) && x in g.at && g.at[x] == a && Begun(g, x) && x !in g.status
        invariant SlotsDone(g, x, slots, i)
        invariant Grows(w, g0, g, SlotSet(w, x), {}) && old(marked) <= marked
      {
        ghost var g1 := g;
        SlotListed(slots, w.slots[x], i);
        SlotReady(w, g, x, slots, i);
        Fewer(large, old(marked), marked);
        TraceSlot(a, slots[i], x);
        SlotsNext(w, g1, g, x, slots, i);
        GrowsMore(w, g0, g1, g, SlotSet(w, x), {(x, slots[i])});
        i := i + 1;
      }
      PlainComplete(w, g, x, slots);
    }

    // ----- ephemerons --------------------------------------------------------------------

    /** The first ephemeron at or after `head` that is not dead, read off the old copies. */
    method FollowChain(head: Addr) returns (newHead: Addr)
      requires ChainsOk(w.store, w.ephemerons, rank) && OldEphemerons(w, store)
      requires head == 0 || head in w.ephemerons
      ensures newHead == Skip(w.store, w.ephemerons, rank, head)
    {
      newHead := head;
      while newHead != 0 && store[newHead][KEY] == 0
        invariant newHead == 0 || newHead in w.ephemerons
        invariant Skip(w.store, w.ephemerons, rank, newHead) == Skip(w.store, w.ephemerons, rank, head)
        decreases if newHead != 0 && newHead in rank then rank[newHead] else 0, newHead != 0
      {
        newHead := store[newHead][CHAIN];
      }
    }

    /** TRACED to CLAIMED, unless the ephemeron at `a` was already traced in this collection. */
    method Claim(a: Addr, ghost e: Addr) returns (claimed: bool)
      requires Tracing(0) && e in w.ephemerons && e in g.at && g.at[e] == a && Begun(g, e)
      modifies `store, `g
      ensures Tracing(0) && claimed == (e !in old(g).status)
      ensures g == if claimed then StatusProgress(old(g), e, Claimed) else old(g)
      ensures !claimed ==> store == old(store)
    {
      hide Inv, Grows, WellFormed, Described, Complete, Untouched, Begun, MayUpdate, Traced, Needed;
      EphemeronSays(w, Mem(), g, e);
      ChainSays(types, rank, w, e);
      if store[a][STATE] != 0 {
        return false;
      }
      ghost var m0 := Mem();
      store := store[a := store[a][STATE := 1]];
      if store[a][EPOCH] == count {
        store := store[a := store[a][STATE := 0]];
        Undone(m0.store, a);
        return false;
      }
      store := store[a := store[a][EPOCH := count]];
      WriteTwice(m0.store, a, m0.store[a][STATE := 1], store[a]);
      ghost var s1 := store;
      OldKept(w, m0, g, e, store);
      var newHead := FollowChain(store[a][CHAIN]);
      store := store[a := store[a][CHAIN := newHead]];
      WriteTwice(m0.store, a, s1[a], store[a]);
      ClaimStep(w, m0, g, e, 0);
      g := StatusProgress(g, e, Claimed);
      claimed := true;
    }

    /** CLAIMED to TRACED. */
    method Finish(a: Addr, ghost e: Addr)
      requires Tracing(0) && e in w.ephemerons && e in g.at && g.at[e] == a && Begun(g, e)
      requires e in g.status && g.status[e].Claimed? && ReadyToFinish(w, g, e)
      modifies `store, `g
      ensures Tracing(0) && g == StatusProgress(old(g), e, Finished)
    {
      hide Inv, Grows, WellFormed, Described, Complete, Untouched, Begun, MayUpdate, Traced, Needed;
      FinishStep(w, Mem(), g, e, 0);
      store := store[a := store[a][STATE := 0]];
      g := StatusProgress(g, e, Finished);
    }

    /** CLAIMED to PENDING: the key is not known to be live, so the ephemeron waits for it. */
    method AddPending(a: Addr, ghost e: Addr)
      requires Tracing(0) && e in w.ephemerons && e in g.at && g.at[e] == a && Begun(g, e)
      requires e in g.status && g.status[e].Claimed? && (e, CHAIN) in g.done && (e, KEY) !in g.done
      requires !Dead(w, e) && !Found(g.at, Word(w, e, KEY))
      modifies `store, `buckets, `g
      ensures Tracing(0) && g == StatusProgress(old(g), e, Pending)
    {
      hide Inv, Grows, WellFormed, Described, Complete, Untouched, Begun, MayUpdate, Traced, Needed;
      KeySays(w, Mem(), g, 0, e);
      PublishStep(w, Mem(), g, e, 0);
      var b := hash(store[a][KEY]);
      store := store[a := store[a][STATE := 2]];
      buckets := buckets[b := [a] + buckets[b]];
      g := StatusProgress(g, e, Pending);
    }

    /** Traces the ephemeron at `a`.  Tracing it again in the same collection changes nothing. */
    method TraceEphemeron(a: Addr, ghost e: Addr)
      requires Tracing(0) && e in w.ephemerons && e in g.at && g.at[e] == a && Begun(g, e)
      requires e in g.status ==> !g.status[e].Claimed?
      modifies `store, `hp, `marked, `buckets, `resolved, `g
      ensures Tracing(0) && e in g.status && !g.status[e].Claimed? && e in g.at && g.at[e] == a
      ensures e in old(g).status ==> g == old(g) && store == old(store)
      ensures e !in old(g).status ==> !g.status[e].Resolved?
      ensures Grows(w, old(g), g, {}, {e}) && old(marked) <= marked
    {
      hide Inv, Grows, WellFormed, Described, Complete, Untouched, Begun, MayUpdate, Traced, Needed;
      ghost var g0 := g;
      GrowsOver(w, g, e);
      EphemeronSays(w, Mem(), g, e);
      var claimed := Claim(a, e);
      if !claimed {
        return;
      }
      ClaimPartway(g0, e);
      StatusGrows(w, g0, e, Claimed);
      TraceOwnSlot(a, CHAIN, g0, e, {});
      PartwaySays(w, Mem(), g, e, {CHAIN});
      if store[a][KEY] == 0 {
        PartwayReady(w, g, e, {CHAIN});
        GrowsFinish(w, g0, g, e, Finished);
        Finish(a, e);
        return;
      }
      TraceKey(a, g0, e);
    }

    /** The rest of tracing an ephemeron that is not dead. */
    method TraceKey(a: Addr, ghost g0: Progress, ghost e: Addr)
      requires Tracing(0) && e in w.ephemerons && Partway(g, e, {CHAIN}) && e in g.at && g.at[e] == a && Begun(g, e)
      requires !Dead(w, e) && Grows(w, g0, g, {}, {e})
      modifies `store, `hp, `marked, `buckets, `resolved, `g
      ensures Tracing(0) && e in g.status && (g.status[e].Pending? || g.status[e].Finished?) && e in g.at && g.at[e] == a
      ensures Grows(w, g0, g, {}, {e}) && old(marked) <= marked
    {
      hide Inv, Grows, WellFormed, Described, Complete, Untouched, Begun, MayUpdate, Traced, Needed, Partway, ReadyToFinish;
      PartwaySays(w, Mem(), g, e, {CHAIN});
      ghost var m1 := Mem();
      var live := VisitKey(a, e, 0);
      if live {
        KeyPartway(w, m1, g0, g, e);
        g := SlotProgress(g, e, KEY);
        TraceValue(a, g0, e);
      } else {
        assert Mem() == m1;
        GrowsFinish(w, g0, g, e, Pending);
        PartwayPending(w, g, e);
        AddPending(a, e);
        // The key is looked at once more after publication.  With one tracer it cannot have
        // become live meanwhile, so the ephemeron stays pending.
        PendingSays(w, Mem(), g, 0, e);
        live := VisitKey(a, e, 0);
        assert !live;
      }
    }

    /** The key is live: traces the value, and the ephemeron is done with. */
    method TraceValue(a: Addr, ghost g0: Progress, ghost e: Addr)
      requires Tracing(0) && e in w.ephemerons && Partway(g, e, {CHAIN, KEY}) && e in g.at && g.at[e] == a && Begun(g, e)
      requires !Dead(w, e) && Grows(w, g0, g, {}, {e})
      modifies `store, `hp, `marked, `buckets, `resolved, `g
      ensures Tracing(0) && e in g.status && g.status[e].Finished? && e in g.at && g.at[e] == a
      ensures Grows(w, g0, g, {}, {e}) && old(marked) <= marked
    {
      hide Inv, Grows, WellFormed, Described, Complete, Untouched, Begun, MayUpdate, Traced, Needed, Partway, ReadyToFinish;
      TraceOwnSlot(a, VALUE, g0, e, {CHAIN, KEY});
      assert {CHAIN, KEY} + {VALUE} == {CHAIN, KEY, VALUE};
      PartwayReady(w, g, e, {CHAIN, KEY, VALUE});
      GrowsFinish(w, g0, g, e, Finished);
      Finish(a, e);
    }

    /** Visits the chain or value edge of `e`, which this call of the tracer has claimed. */
    method TraceOwnSlot(a: Addr, j: int, ghost g0: Progress, ghost e: Addr, ghost js: set<int>)
      requires Tracing(0) && e in w.ephemerons && Partway(g, e, js) && e in g.at && g.at[e] == a && Begun(g, e)
      requires (j == CHAIN && js == {}) || (j == VALUE && js == {CHAIN, KEY})
      requires Grows(w, g0, g, {}, {e})
      modifies `store, `hp, `marked, `buckets, `resolved, `g
      ensures Tracing(0) && Partway(g, e, js + {j}) && e in g.at && g.at[e] == a && Begun(g, e)
      ensures Grows(w, g0, g, {}, {e}) && old(marked) <= marked
    {
      hide Inv, Grows, WellFormed, Described, Complete, Untouched, Begun, MayUpdate, Traced, Needed, Partway, ReadyToFinish;
      ghost var g1 := g;
      PartwayMayUpdate(w, g, e, j, js);
      TraceSlot(a, j, e);
      PartwayNext(w, g1, g, e, j, js);
      GrowsAbout(w, g0, g1, g, e, j);
    }

    // ----- the grey pointer --------------------------------------------------------------

    /** Traces the copy at the grey pointer and returns the address of the one after it. */
    method Scan(grey: Addr) returns (next: Addr)
      requires Tracing(0) && Settled(w, g) && g.started < |g.copies| && grey == PlaceOf(g.places, hp, g.started)
      modifies `store, `hp, `marked, `buckets, `resolved, `g
      ensures Tracing(0) && Settled(w, g) && g.started == old(g).started + 1 && g.started <= |g.copies|
      ensures next == PlaceOf(g.places, hp, g.started) && next > grey && Extends(old(g), g)
    {
      hide Inv, Grows, WellFormed, Described, Complete, Untouched, Begun, MayUpdate, Traced, Needed, Settled, Extends;
      ghost var g0, m0 := g, Mem();
      ghost var x := g.copies[g.started];
      StartStep(w, Mem(), g);
      FreshCopySays(types, rank, w, Mem(), g);
      g := StartProgress(g);
      ghost var g1 := g;
      var o := store[grey];
      var t := TypeOf(types, o[0]);
      if t.kind.Ephemeron? {
        TraceEphemeron(grey, x);
        EphemeronComplete(w, g, x);
        Scanned(w, m0, g0, Mem(), g, x, {}, {x});
      } else {
        TraceSlots(grey, x);
        PlainNoStatus(w, Mem(), g, x);
        Scanned(w, m0, g0, Mem(), g, x, SlotSet(w, x), {});
      }
      next := grey + AlignUp(SizeInBytes(t, o));
      NextPlace(types, rank, w, Mem(), g, g0.started, x);
    }

    method TraceClosure(grey: Addr) returns (end: Addr)
      requires Tracing(0) && Settled(w, g) && grey == PlaceOf(g.places, hp, g.started)
      modifies `store, `hp, `marked, `buckets, `resolved, `g
      ensures Tracing(0) && Settled(w, g) && g.started == |g.copies| && end == hp && Extends(old(g), g)
    {
      hide Inv, Grows, WellFormed, Described, Complete, Untouched, Begun, MayUpdate, Traced, Needed, Settled, Extends;
      end := grey;
      ExtendsSelf(g);
      HpBelow(w, Mem(), g);
      while end < hp
        invariant Tracing(0) && Settled(w, g) && g.started <= |g.copies|
        invariant end == PlaceOf(g.places, hp, g.started) && Extends(old(g), g)
        invariant hp <= w.toBase + w.active
        decreases w.toBase + w.active - end
      {
        ghost var g1 := g;
        MoreToScan(w, Mem(), g);
        end := Scan(end);
        HpBelow(w, Mem(), g);
        ExtendsTrans(old(g), g1, g);
      }
      NoMoreToScan(w, Mem(), g);
    }

    // ----- resolved ephemerons -----------------------------------------------------------

    /** RESOLVED to TRACED, for the head of the list being traced. */
    method FinishResolved(a: Addr, ghost e: Addr)
      requires Tracing(0) && e in w.ephemerons && e in g.at && g.at[e] == a && Begun(g, e)
      requires e in g.status && g.status[e].Resolved? && (e, VALUE) in g.done
      requires g.work != [] && g.work[0] == a
      modifies `store, `g
      ensures Tracing(0) && g == StatusProgress(old(g), e, Finished).(work := old(g).work[1..])
    {
      hide Inv, Grows, WellFormed, Described, Complete, Untouched, Begun, MayUpdate, Traced, Needed, Settled, SettledUpTo, Extends, FinishedSet, PlaceOf;
      FinishResolvedStep(w, Mem(), g, e);
      store := store[a := store[a][STATE := 0]];
      g := StatusProgress(g, e, Finished).(work := g.work[1..]);
    }

    /** Traces the values of a list of resolved ephemerons. */
    method TraceResolved(resolvedList: seq<Addr>) returns (ghost first: Addr)
      requires Tracing(0) && Settled(w, g) && g.work == resolvedList
      modifies `store, `hp, `marked, `buckets, `resolved, `g
      ensures Tracing(0) && Settled(w, g) && Extends(old(g).(work := []), g) && g.work == []
      ensures g.started == old(g).started && PlaceOf(g.places, hp, g.started) == PlaceOf(old(g).places, old(hp), g.started)
      ensures resolvedList != [] ==> first in w.ephemerons && first in FinishedSet(g) && first !in FinishedSet(old(g))
    {
      hide Inv, Grows, WellFormed, Described, Complete, Untouched, Begun, MayUpdate, Traced, Needed, Settled, SettledUpTo, Extends, FinishedSet, PlaceOf;
      var list := resolvedList;
      ghost var m0 := Mem();
      first := 0;
      ExtendsAs(g, g, list);
      while list != []
        invariant Tracing(0) && Settled(w, g) && g.work == list && |list| <= |resolvedList|
        invariant Extends(old(g).(work := list), g) && g.started == old(g).started
        invariant PlaceOf(g.places, hp, g.started) == PlaceOf(old(g).places, old(hp), g.started)
        invariant |list| < |resolvedList| ==> first in w.ephemerons && first in FinishedSet(g) && first !in FinishedSet(old(g))
        decreases |list|
      {
        ghost var g1, m1 := g, Mem();
        ghost var e := QueueHead(w, m1, g);
        TraceSlot(list[0], VALUE, e);
        StillResolved(w, g1, g, e);
        ghost var g2 := g;
        FinishResolved(list[0], e);
        ResolvedDone(w, m1, g1, g2, Mem(), g, e);
        list := list[1..];
        ExtendsAs(old(g), g1, list);
        ExtendsTrans(old(g).(work := list), g1.(work := list), g);
        NewlyFinished(old(g), g1, g, e);
        first := e;
      }
      assert list == [];
    }

    /** Takes over the resolved list. */
    method PopResolved() returns (list: seq<Addr>)
      requires Tracing(0) && Settled(w, g) && g.work == []
      modifies `resolved, `g
      ensures Tracing(0) && Settled(w, g) && resolved == [] && g == old(g).(work := list) && list == old(resolved)
    {
      hide Inv, Grows, WellFormed, Described, Complete, Untouched, Begun, MayUpdate, Traced, Needed, Settled, SettledUpTo, Extends, FinishedSet, PlaceOf;
      list := resolved;
      resolved := [];
      PopStep(w, Mem(), g, list);
      g := g.(work := list);
    }

    /** Traces the resolved list, then everything that made live, and takes the next list. */
    method ResolveRound(list: seq<Addr>, grey: Addr) returns (next: seq<Addr>, end: Addr)
      requires Tracing(0) && Settled(w, g) && g.started == |g.copies| && grey == hp && g.work == list && list != []
      modifies `store, `hp, `marked, `buckets, `resolved, `g
      ensures Tracing(0) && Settled(w, g) && g.started == |g.copies| && end == hp && resolved == [] && g.work == next
      ensures Extends(old(g).(work := next), g)
      ensures |w.ephemerons - FinishedSet(g)| < |w.ephemerons - FinishedSet(old(g))|
    {
      hide Inv, Grows, WellFormed, Described, Complete, Untouched, Begun, MayUpdate, Traced, Needed, Settled, SettledUpTo, Extends, FinishedSet, PlaceOf;
      ghost var g1 := g;
      StartedFits(w, Mem(), g);
      ghost var first := TraceResolved(list);
      ghost var g2 := g;
      end := TraceClosure(grey);
      MoreFinished(w, g1, g2, g, first);
      ghost var g3 := g;
      SameWork(g2, g3);
      next := PopResolved();
      FinishedSame(g3, g);
      ExtendsSelf(g1);
      ExtendsChain(g1, g1, g2, g3, next);
    }

    /** Traces what resolved ephemerons keep alive until none is left. */
    method ResolveEphemerons(grey: Addr) returns (end: Addr)
      requires Tracing(0) && Settled(w, g) && g.started == |g.copies| && grey == hp && g.work == []
      modifies `store, `hp, `marked, `buckets, `resolved, `g
      ensures Tracing(0) && Settled(w, g) && g.started == |g.copies| && end == hp && resolved == [] && g.work == []
      ensures Extends(old(g), g)
    {
      hide Inv, Grows, WellFormed, Described, Complete, Untouched, Begun, MayUpdate, Traced, Needed, Settled, SettledUpTo, Extends, FinishedSet, PlaceOf;
      end := grey;
      ExtendsSelf(g);
      var list := PopResolved();
      ExtendsAs(old(g), old(g), list);
      while list != []
        invariant Tracing(0) && Settled(w, g) && g.started == |g.copies| && end == hp && resolved == [] && g.work == list
        invariant Extends(old(g).(work := list), g)
        decreases |w.ephemerons - FinishedSet(g)|
      {
        ghost var g1 := g;
        list, end := ResolveRound(list, end);
        ExtendsAs(old(g), g1, list);
        ExtendsTrans(old(g).(work := list), g1.(work := list), g);
      }
      WorkOver(old(g), g);
    }

    // ----- the pending table -------------------------------------------------------------

    /** Resolves the ephemerons of one bucket whose keys turn out to be live. */
    method ScanBucket(b: int)
      requires Tracing(0) && Settled(w, g) && 0 <= b < |buckets| && Overdue(w, g, b, buckets[b])
      modifies `store, `resolved, `buckets, `g
      ensures Tracing(0) && Settled(w, g) && |buckets| == old(|buckets|) && Overdue(w, g, b, [])
      ensures forall c | b < c < |buckets| :: buckets[c] == old(buckets)[c]
      ensures Extends(old(g), g) && g.started == old(g).started && g.places == old(g).places && g.copies == old(g).copies
    {
      hide Inv, Grows, WellFormed, Described, Complete, Untouched, Begun, MayUpdate, Traced, Needed, Settled, SettledUpTo, Extends, FinishedSet, PlaceOf;
      ExtendsSelf(g);
      assert buckets[b][0..] == buckets[b];
      var i := 0;
      while i < |buckets[b]|
        invariant Tracing(0) && Settled(w, g) && |buckets| == old(|buckets|)
        invariant forall c | b < c < |buckets| :: buckets[c] == old(buckets)[c]
        invariant 0 <= i <= |buckets[b]| && Overdue(w, g, b, buckets[b][i..])
        invariant Extends(old(g), g) && g.started == old(g).started && g.places == old(g).places && g.copies == old(g).copies
        decreases |buckets[b]| - i
      {
        var link := buckets[b][i];
        LinkPublished(w, Mem(), g, 0, b, i);
        ghost var e := LinkNames(w, Mem(), g, 0, link);
        OverdueNext(w, Mem(), g, b, buckets[b], i, e);
        if store[link][STATE] != 2 {
          ElideStep(w, Mem(), g, 0, b, i);
          buckets := buckets[b := buckets[b][..i] + buckets[b][i + 1..]];
        } else {
          ghost var g1, m1 := g, Mem();
          MaybeResolve(link, e, 0);
          ResolveSettled(w, m1, g1, g, e);
          ExtendsTrans(old(g), g1, g);
          i := i + 1;
        }
      }
      assert buckets[b][i..] == [];
    }

    /** Scans the whole pending table; afterwards no pending ephemeron has a live key. */
    method ScanPending()
      requires Tracing(0) && Settled(w, g)
      modifies `store, `resolved, `buckets, `g
      ensures Tracing(0) && Settled(w, g) && NoneOverdue(w, g)
      ensures Extends(old(g), g) && g.started == old(g).started && g.places == old(g).places && g.copies == old(g).copies
    {
      hide Inv, Grows, WellFormed, Described, Complete, Untouched, Begun, MayUpdate, Traced, Needed, Settled, SettledUpTo, Extends, FinishedSet, PlaceOf;
      ExtendsSelf(g);
      TableSays(w, Mem(), g);
      var b := 0;
      while b < nbuckets
        invariant 0 <= b <= nbuckets == |buckets|
        invariant Tracing(0) && Settled(w, g) && OverdueFrom(w, g, b)
        invariant Extends(old(g), g) && g.started == old(g).started && g.places == old(g).places && g.copies == old(g).copies
      {
        ghost var g1 := g;
        OverdueHere(w, Mem(), g, b);
        ScanBucket(b);
        OverdueThere(w, g, b);
        ExtendsTrans(old(g), g1, g);
        b := b + 1;
      }
      OverdueNowhere(w, Mem(), g);
    }

    // ----- roots -------------------------------------------------------------------------

    method TraceRoots()
      requires Tracing(0) && Settled(w, g) && g.rootsDone == 0
      modifies `store, `roots, `hp, `marked, `buckets, `resolved, `g
      ensures Tracing(0) && Settled(w, g) && g.started == old(g).started && g.work == old(g).work
      ensures g.rootsDone == |w.roots|
    {
      hide Inv, Grows, WellFormed, Described, Complete, Untouched, Begun, MayUpdate, Traced, Needed, Settled, SettledUpTo, Extends, FinishedSet, PlaceOf;
      RootsSay(w, Mem(), g);
      var i := 0;
      while i < |roots|
        invariant 0 <= i <= |roots| == |w.roots|
        invariant Tracing(0) && Settled(w, g) && g.started == old(g).started && g.work == old(g).work
        invariant g.rootsDone == i
      {
        ghost var g1, m1 := g, Mem();
        RootSays(w, m1, g, i);
        var ref := roots[i];
        if ref != 0 && ref % 2 == 0 {
          if Pointer(ref) { RootNeeded(w, m1, g, i); }
          ref := Visit(ref);
        } else {
          NotPointer(ref);
          GrowsSelf(w, g);
        }
        RootsSame(w, m1, g1, g);
        RootStep(w, Mem(), g, 0);
        RootsSay(w, Mem(), g);
        roots := roots[i := ref];
        g := g.(rootsDone := g.rootsDone + 1);
        i := i + 1;
      }
    }

    // ----- sweeping ----------------------------------------------------------------------

    /** Marks the ephemerons still pending in one bucket as dead. */
    method SweepBucket(b: int, ghost m0: Memory, ghost swept0: set<Addr>) returns (ghost swept: set<Addr>)
      requires WellFormed(w) && Inv(w, m0, g, 0) && 0 <= b < |buckets| == |m0.buckets|
      requires SweptSome(w, store, g, swept0) && buckets[b] == m0.buckets[b] && Unswept(w, g, swept0, b, buckets[b])
      modifies `store, `buckets
      ensures SweptSome(w, store, g, swept) && Unswept(w, g, swept, b, [])
      ensures |buckets| == old(|buckets|) && buckets[b] == []
      ensures forall c | 0 <= c < |buckets| && c != b :: buckets[c] == old(buckets)[c]
    {
      hide Inv, Grows, WellFormed, Described, Complete, Untouched, Begun, MayUpdate, Traced, Needed, Settled, SettledUpTo, Extends, FinishedSet, PlaceOf;
      swept := swept0;
      var i := 0;
      BucketPublished(w, m0, g, b);
      assert buckets[b][0..] == buckets[b];
      while i < |buckets[b]|
        invariant |buckets| == old(|buckets|) && forall c | 0 <= c < |buckets| && c != b :: buckets[c] == old(buckets)[c]
        invariant SweptSome(w, store, g, swept) && 0 <= i <= |buckets[b]|
        invariant forall k | 0 <= k < |buckets[b]| :: Published(g, buckets[b][k])
        invariant Unswept(w, g, swept, b, buckets[b][i..])
        decreases |buckets[b]| - i
      {
        var link := buckets[b][i];
        ghost var e := SweepSays(w, m0, g, store, swept, b, buckets[b], i);
        if store[link][STATE] != 2 {
          buckets := buckets[b := buckets[b][..i] + buckets[b][i + 1..]];
        } else {
          SweepStep(w, m0, g, store, swept, e);
          store := store[link := store[link][KEY := 0][STATE := 0]];
          swept := swept + {e};
          i := i + 1;
        }
      }
      buckets := buckets[b := []];
    }

    /** Every ephemeron still pending dies: its key becomes null and it is traced again. */
    method SweepPending()
      requires WellFormed(w) && Inv(w, Mem(), g, 0) && nbuckets == w.nbuckets
      modifies `store, `buckets
      ensures Swept(w, store, g) && TableEmpty()
    {
      hide Inv, Grows, WellFormed, Described, Complete, Untouched, Begun, MayUpdate, Traced, Needed, Settled, SettledUpTo, Extends, FinishedSet, PlaceOf;
      ghost var m0 := Mem();
      ghost var swept := {};
      TableSays(w, m0, g);
      SweepStart(w, m0, g);
      var b := 0;
      while b < nbuckets
        invariant 0 <= b <= nbuckets == |buckets|
        invariant forall c | b <= c < nbuckets :: buckets[c] == m0.buckets[c]
        invariant forall c | 0 <= c < b :: buckets[c] == []
        invariant SweptSome(w, store, g, swept) && UnsweptFrom(w, g, swept, b)
      {
        UnsweptHere(w, m0, g, swept, b);
        swept := SweepBucket(b, m0, swept);
        UnsweptThere(w, g, swept, b);
        b := b + 1;
      }
      SweepEnd(w, m0, g, store, swept);
    }

    // ----- collection --------------------------------------------------------------------

    ghost predicate TableEmpty()
      reads this
    {
      |buckets| == nbuckets && forall b | 0 <= b < |buckets| :: buckets[b] == []
    }

    /** The heap as a collection starting now would find it. */
    ghost function View(): World
      reads this
    {
      MakeWorld(types, rank, layout, large, store, roots, toBase, hp, fromBase, active, count + 1, hash, nbuckets)
    }

    /** The heap between collections. */
    ghost predicate Valid()
      reads this
    {
      && WellFormed(View())
      && TypesOk(types, rank, View())
      && limit == toBase + active
      && TableEmpty()
      && resolved == []
    }

    /** The spaces trade places. */
    method SwapSpaces()
      modifies `fromBase, `toBase, `hp, `limit, `marked, `count, `checking
      ensures toBase == old(fromBase) && fromBase == old(toBase) && hp == toBase && limit == toBase + active
      ensures marked == {} && count == old(count) + 1 && !checking
    {
      fromBase, toBase := toBase, fromBase;
      hp := toBase;
      limit := hp + active;
      marked := {};
      count := count + 1;
      checking := false;
    }

    /** Starts a collection: the spaces trade places and nothing is known to be live. */
    method Flip()
      requires Valid()
      modifies this
      ensures w == old(View()) && Tracing(0) && Settled(w, g) && g == NOTHING
      ensures hp == toBase && limit == toBase + active && !checking && hp == PlaceOf(g.places, hp, 0)
      ensures toBase == old(fromBase) && fromBase == old(toBase) && count == old(count) + 1
      ensures rank == old(rank) && active == old(active) && large == old(large)
    {
      hide Inv, Grows, WellFormed, Described, Complete, Untouched, Begun, MayUpdate, Traced, Needed, Settled, SettledUpTo, Extends, FinishedSet, PlaceOf, MakeWorld, TypesOk;
      MadeDescribed(types, rank, layout, large, store, roots, toBase, hp, fromBase, active, count + 1, hash, nbuckets);
      w := View();
      g := NOTHING;
      SwapSpaces();
      CollectionStarts(w, Mem());
      NothingSettled(w, Mem());
    }

    /** Traces everything that is live. */
    method TraceHeap()
      requires Tracing(0) && Settled(w, g) && g == NOTHING && hp == toBase && hp == PlaceOf(g.places, hp, 0) && !checking
      modifies `store, `roots, `hp, `marked, `buckets, `resolved, `checking, `g
      ensures Tracing(0) && Exhausted(w, Mem(), g) && resolved == []
    {
      hide Inv, Grows, WellFormed, Described, Complete, Untouched, Begun, MayUpdate, Traced, Needed, Settled, SettledUpTo, Extends, FinishedSet, PlaceOf, TypesOk, MakeWorld, Swept, Exhausted, Outcome, Closed, MovedTo, PlacesOk, ForwardOk, Live, Preserved, SameShape;
      var grey := hp;
      TraceRoots();
      StartPlace(w, Mem(), g);
      ghost var g1 := g;
      grey := TraceClosure(grey);
      SameWork(g1, g);
      ghost var g2 := g;
      ScanPending();
      SameWork(g2, g);
      CheckStep(w, Mem(), g);
      checking := true;
      StartedFits(w, Mem(), g);
      ghost var g3 := g;
      grey := ResolveEphemerons(grey);
      SameWork(g3, g);
      TracingEnds(w, Mem(), g);
    }

    /** Drops the large objects that were not marked and the ephemerons still pending. */
    method FinishCollection()
      requires Tracing(0) && Exhausted(w, Mem(), g) && resolved == [] && limit == toBase + active
      modifies this
      ensures Valid()
      ensures Live(w, g.at.Keys) && Preserved(w, g.at, store, roots) && SameShape(w, g.at, View())
      ensures large == w.large * g.at.Keys
      ensures forall a | a in layout :: exists x :: x in g.at && g.at[x] == a
      ensures w == old(w) && toBase == old(toBase) && fromBase == old(fromBase) && count == old(count)
    {
      hide Inv, Grows, WellFormed, Described, Complete, Untouched, Begun, MayUpdate, Traced, Needed, Settled, SettledUpTo, Extends, FinishedSet, PlaceOf, TypesOk, MakeWorld, Swept, Exhausted, Outcome, Closed, MovedTo, PlacesOk, ForwardOk, Live, Preserved, SameShape;
      ghost var m := Mem();
      large := marked;
      SweepPending();
      CollectionEnds(types, rank, w, m, g, store);
      rank := NewRank(rank, w, m, g);
      layout := g.places;
    }

    /** A whole collection.  `at` says where each live object is afterwards. */
    method Collect() returns (ghost at: map<Addr, Addr>)
      requires Valid()
      modifies this
      ensures Valid()
      ensures Live(old(View()), at.Keys)
      ensures Preserved(old(View()), at, store, roots) && SameShape(old(View()), at, View())
      ensures large == old(large) * at.Keys
      ensures forall a | a in layout :: exists x :: x in at && at[x] == a
      ensures toBase == old(fromBase) && fromBase == old(toBase) && count == old(count) + 1
    {
      hide Inv, Grows, WellFormed, Described, Complete, Untouched, Begun, MayUpdate, Traced, Needed, Settled, SettledUpTo, Extends, FinishedSet, PlaceOf, TypesOk, MakeWorld, Swept, Exhausted, Outcome, Closed, MovedTo, PlacesOk, ForwardOk, Live, Preserved, SameShape;
      Flip();
      TraceHeap();
      FinishCollection();
      at := g.at;
    }
  }
}
