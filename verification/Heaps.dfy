/** The whole allocator as a value: arenas in address order, large mappings, and one
    segment table per arena, with the effect of bmalloc and bfree on it. */
module Heaps {
  import opened Segments

  datatype Heap = Heap(
    arenas: seq<nat>,                       // base addresses of the 64-block arenas
    custom: map<nat, nat>,                  // larger mappings: base address to number of blocks
    tables: map<nat, seq<SegmentInfo>>)     // segment table of each arena

  function Bytes(blocks: int): int { BLOCK_SIZE_MMAP * blocks }

  function Address(arena: int, block: int): int { arena + Bytes(block) }

  function Larger(a: int, b: int): int { if a < b then b else a }

  ghost predicate Apart(p: int, pBlocks: int, q: int, qBlocks: int) {
    p + Bytes(pBlocks) <= q || q + Bytes(qBlocks) <= p
  }

  ghost predicate ArenasOk(arenas: seq<nat>) {
    forall i, j :: 0 <= i < j < |arenas| ==> arenas[i] + ARENA_SIZE <= arenas[j]
  }

  // The arena holds at least one allocation.
  predicate Busy(cells: seq<SegmentInfo>) { Live(cells) != map[] }

  ghost predicate HeapOk(h: Heap) {
    && h.arenas != [] && ArenasOk(h.arenas)
    && (forall a :: a in h.arenas <==> a in h.tables)
    && (forall a :: a in h.tables ==> Wf(h.tables[a]))
    && (forall p :: p in h.custom ==> BLOCKS_IN_ARENA < h.custom[p])
    && (forall p, a :: p in h.custom && a in h.tables ==> Apart(p, h.custom[p], a, BLOCKS_IN_ARENA))
    && (forall p, q :: p in h.custom && q in h.custom && p != q ==> Apart(p, h.custom[p], q, h.custom[q]))
    && (|h.arenas| > 3 ==> forall a {:trigger Busy(h.tables[a])} :: a in h.tables ==> Busy(h.tables[a]))
  }

  ghost predicate AtBlock(h: Heap, p: int, a: int, k: int) {
    a in h.tables && k in Live(h.tables[a]) && p == Address(a, k)
  }

  ghost predicate Placed(h: Heap, p: int) {
    p in h.custom || exists a, k :: AtBlock(h, p, a, k)
  }

  /** live lists exactly the allocations recorded in the tables and in custom, with their sizes. */
  ghost predicate Records(h: Heap, live: map<int, int>) {
    && (forall p, a, k :: AtBlock(h, p, a, k) ==> p in live && live[p] == Live(h.tables[a])[k])
    && (forall p :: p in h.custom ==> p in live && live[p] == h.custom[p])
    && (forall p {:trigger Placed(h, p)} :: p in live ==> Placed(h, p))
  }

  // The kernel's promise about the address mmap returns.
  ghost predicate Unmapped(h: Heap, at: int, blocks: int) {
    && 0 <= at
    && (forall a :: a in h.tables ==> Apart(at, blocks, a, BLOCKS_IN_ARENA))
    && (forall p :: p in h.custom ==> Apart(at, blocks, p, h.custom[p]))
  }

  // ---------------------------------------------------------------- placement

  // The last segment that fits below cell i, or -1.
  function LastFit(cells: seq<SegmentInfo>, num: int, i: int): (k: int)
    requires 0 <= i <= |cells|
    ensures k == -1 || (k < i && Fits(cells, k, num))
    ensures forall h :: k < h < i ==> !Fits(cells, h, num)
    decreases |cells|, i
  {
    if i == 0 then -1
    else if Fits(cells, i - 1, num) then i - 1
    else LastFit(cells, num, i - 1)
  }

  predicate HasFit(h: Heap, i: int, num: int)
    requires 0 <= i < |h.arenas| && h.arenas[i] in h.tables
  {
    var cells := h.tables[h.arenas[i]];
    LastFit(cells, num, |cells|) != -1
  }

  // Index of the lowest arena from index i on that can serve num blocks, or the number of arenas.
  function Serving(h: Heap, num: int, i: int): (r: int)
    requires HeapOk(h) && 0 <= i <= |h.arenas|
    ensures i <= r <= |h.arenas|
    ensures r < |h.arenas| ==> HasFit(h, r, num)
    ensures forall j :: i <= j < r ==> !HasFit(h, j, num)
    decreases |h.arenas| - i
  {
    if i == |h.arenas| || HasFit(h, i, num) then i else Serving(h, num, i + 1)
  }

  function Insert(arenas: seq<nat>, a: nat): seq<nat> {
    if arenas == [] || arenas[0] > a then [a] + arenas else [arenas[0]] + Insert(arenas[1..], a)
  }

  function Remove(arenas: seq<nat>, a: nat): seq<nat> {
    if arenas == [] then []
    else (if arenas[0] == a then [] else [arenas[0]]) + Remove(arenas[1..], a)
  }

  /** bmalloc of num blocks, where at is the address mmap returns if it is asked. */
  function Malloc(h: Heap, num: int, at: int): (r: (Heap, int))
    requires HeapOk(h) && 0 <= num && Unmapped(h, at, Larger(num, BLOCKS_IN_ARENA))
  {
    if num > BLOCKS_IN_ARENA then
      (h.(custom := h.custom[at := num]), at)
    else
      var i := Serving(h, num, 0);
      if i < |h.arenas| then
        var a := h.arenas[i];
        var k := LastFit(h.tables[a], num, |h.tables[a]|);
        (h.(tables := h.tables[a := Carved(h.tables[a], k, num)]), Address(a, k))
      else
        (h.(arenas := Insert(h.arenas, at), tables := h.tables[at := FirstCarved(num)]), at)
  }

  // Index of the highest arena among the first i that does not lie above p, or -1.
  function Owner(arenas: seq<nat>, p: int, i: int): (r: int)
    requires 0 <= i <= |arenas|
    ensures -1 <= r < i
    ensures r != -1 ==> arenas[r] <= p
    ensures forall j :: r < j < i ==> p < arenas[j]
    decreases i
  {
    if i == 0 then -1 else if p >= arenas[i - 1] then i - 1 else Owner(arenas, p, i - 1)
  }

  // Returns block k of arena a, and unmaps the arena if it is now entirely free and not needed.
  function FreeBlock(h: Heap, a: nat, k: int): (r: Heap)
    requires a in h.tables && Wf(h.tables[a]) && k in Live(h.tables[a])
  {
    var cells := Released(h.tables[a], k);
    if !cells[0].occupied && cells[0].length == BLOCKS_IN_ARENA && |h.arenas| > 3 then
      h.(arenas := Remove(h.arenas, a), tables := h.tables - {a})
    else
      h.(tables := h.tables[a := cells])
  }

  // p starts a large mapping, or a block of the arena that is found for it.
  ghost predicate CanFree(h: Heap, p: int) {
    p in h.custom
    || var i := Owner(h.arenas, p, |h.arenas|);
       && i != -1 && h.arenas[i] in h.tables
       && var a := h.arenas[i];
          Wf(h.tables[a]) && (p - a) / BLOCK_SIZE_MMAP in Live(h.tables[a])
  }

  function FreeAt(h: Heap, p: int): (r: Heap)
    requires CanFree(h, p)
  {
    if p in h.custom then
      h.(arenas := Remove(h.arenas, p), custom := h.custom - {p})
    else
      var a := h.arenas[Owner(h.arenas, p, |h.arenas|)];
      FreeBlock(h, a, (p - a) / BLOCK_SIZE_MMAP)
  }

  /** bfree of an allocation. */
  function Free(h: Heap, live: map<int, int>, p: int): (r: Heap)
    requires HeapOk(h) && Records(h, live) && p in live
  {
    LiveCanFree(h, live, p);
    FreeAt(h, p)
  }

  lemma BlockInside(h: Heap, p: int, a: int, k: int)
    requires HeapOk(h) && AtBlock(h, p, a, k)
    ensures 0 <= k && a <= p && p + Bytes(Live(h.tables[a])[k]) <= a + ARENA_SIZE
    ensures (p - a) / BLOCK_SIZE_MMAP == k && 1 <= Live(h.tables[a])[k]
  {
    assert HeadOk(h.tables[a], k);
  }

  lemma OwnerIs(arenas: seq<nat>, p: int, a: nat)
    requires ArenasOk(arenas) && a in arenas && a <= p < a + ARENA_SIZE
    ensures Owner(arenas, p, |arenas|) != -1 && arenas[Owner(arenas, p, |arenas|)] == a
  {
    var j :| 0 <= j < |arenas| && arenas[j] == a;
    var i := Owner(arenas, p, |arenas|);
    assert j <= i;
  }

  /** The reverse search by address recovers the arena and head block of a live small pointer. */
  lemma OwnerFinds(h: Heap, live: map<int, int>, p: int)
    requires HeapOk(h) && Records(h, live) && p in live && p !in h.custom
    ensures var i := Owner(h.arenas, p, |h.arenas|);
            && 0 <= i < |h.arenas| && h.arenas[i] in h.tables
            && var a := h.arenas[i]; AtBlock(h, p, a, (p - a) / BLOCK_SIZE_MMAP)
  {
    assert Placed(h, p);
    var a, k :| AtBlock(h, p, a, k);
    BlockInside(h, p, a, k);
    OwnerIs(h.arenas, p, a);
  }

  lemma LiveCanFree(h: Heap, live: map<int, int>, p: int)
    requires HeapOk(h) && Records(h, live) && p in live
    ensures CanFree(h, p)
  {
    if p !in h.custom {
      OwnerFinds(h, live, p);
    }
  }

  // ---------------------------------------------------------------- the arena list

  lemma ConsOk(a: nat, arenas: seq<nat>)
    requires ArenasOk(arenas) && forall b :: b in arenas ==> a + ARENA_SIZE <= b
    ensures ArenasOk([a] + arenas)
  {
    var r := [a] + arenas;
    forall i, j | 0 <= i < j < |r| ensures r[i] + ARENA_SIZE <= r[j] {
      assert r[j] == arenas[j - 1] && arenas[j - 1] in arenas;
      assert i > 0 ==> r[i] == arenas[i - 1];
    }
  }

  lemma UnconsOk(arenas: seq<nat>)
    requires ArenasOk(arenas) && arenas != []
    ensures ArenasOk(arenas[1..]) && arenas == [arenas[0]] + arenas[1..]
    ensures forall b :: b in arenas[1..] ==> arenas[0] + ARENA_SIZE <= b
  {
  }

  lemma TailApart(arenas: seq<nat>, a: nat)
    requires arenas != [] && arenas[0] <= a
    requires forall b :: b in arenas ==> a + ARENA_SIZE <= b || b + ARENA_SIZE <= a
    ensures arenas[0] + ARENA_SIZE <= a
    ensures forall b :: b in arenas[1..] ==> a + ARENA_SIZE <= b || b + ARENA_SIZE <= a
  {
    assert arenas[0] in arenas;
    assert forall b :: b in arenas[1..] ==> b in arenas;
  }

  lemma {:induction false} InsertOk(arenas: seq<nat>, a: nat)
    requires ArenasOk(arenas)
    requires forall b :: b in arenas ==> a + ARENA_SIZE <= b || b + ARENA_SIZE <= a
    ensures ArenasOk(Insert(arenas, a))
    ensures |Insert(arenas, a)| == |arenas| + 1
    ensures forall b :: b in Insert(arenas, a) <==> b == a || b in arenas
  {
    if arenas == [] {
    } else if arenas[0] > a {
      UnconsOk(arenas);
      assert arenas[0] in arenas;
      ConsOk(a, arenas);
    } else {
      UnconsOk(arenas);
      TailApart(arenas, a);
      InsertOk(arenas[1..], a);
      ConsOk(arenas[0], Insert(arenas[1..], a));
    }
  }

  lemma {:induction false} RemoveOk(arenas: seq<nat>, a: nat)
    requires ArenasOk(arenas)
    ensures ArenasOk(Remove(arenas, a))
    ensures |Remove(arenas, a)| == if a in arenas then |arenas| - 1 else |arenas|
    ensures a !in arenas ==> Remove(arenas, a) == arenas
    ensures forall b :: b in Remove(arenas, a) <==> b != a && b in arenas
  {
    if arenas != [] {
      UnconsOk(arenas);
      RemoveOk(arenas[1..], a);
      ConsOk(arenas[0], Remove(arenas[1..], a));
    }
  }
}
