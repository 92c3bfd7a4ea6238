/** What every bmalloc and bfree keeps, and what follows for every run of them. */
module HeapLaws {
  import opened Segments
  import opened Heaps

  // ---------------------------------------------------------------- bmalloc

  lemma UnmappedNotLive(h: Heap, live: map<int, int>, at: int, blocks: int)
    requires HeapOk(h) && Records(h, live) && 1 <= blocks && Unmapped(h, at, blocks)
    ensures at !in live
  {
    forall p | p in live ensures p != at {
      assert Placed(h, p);
      if p !in h.custom {
        var a, k :| AtBlock(h, p, a, k);
        BlockInside(h, p, a, k);
      }
    }
  }

  lemma LargeMallocOk(h: Heap, live: map<int, int>, num: int, at: int)
    requires HeapOk(h) && Records(h, live)
    requires BLOCKS_IN_ARENA < num && Unmapped(h, at, num)
    ensures at !in live
    ensures HeapOk(h.(custom := h.custom[at := num])) && Records(h.(custom := h.custom[at := num]), live[at := num])
  {
    var g := h.(custom := h.custom[at := num]);
    UnmappedNotLive(h, live, at, num);
    AddCustomRecords(h, live, num, at, g);
  }

  lemma AddCustomRecords(h: Heap, live: map<int, int>, num: int, at: int, g: Heap)
    requires Records(h, live) && at !in live && 0 <= at && 0 <= num
    requires g.tables == h.tables && g.custom == h.custom[at := num]
    ensures Records(g, live[at := num])
  {
    forall p, a, k | AtBlock(g, p, a, k) ensures p in live && p != at && live[p] == Live(g.tables[a])[k] {
      assert AtBlock(h, p, a, k);
    }
    forall p | p in live ensures Placed(g, p) {
      assert Placed(h, p);
      if p !in h.custom {
        var a, k :| AtBlock(h, p, a, k);
        assert AtBlock(g, p, a, k);
      }
    }
    assert Placed(g, at);
  }

  // A table may be replaced by any other, except by an idle one when there are spare arenas.
  lemma ReplaceTableOk(h: Heap, a: nat, cells: seq<SegmentInfo>)
    requires HeapOk(h) && a in h.tables && Wf(cells) && (|h.arenas| > 3 ==> Busy(cells))
    ensures HeapOk(h.(tables := h.tables[a := cells]))
  {
  }

  lemma DropArenaOk(h: Heap, a: nat)
    requires HeapOk(h) && a in h.tables && |h.arenas| > 3
    ensures HeapOk(h.(arenas := Remove(h.arenas, a), tables := h.tables - {a}))
  {
    assert a in h.arenas;
    RemoveOk(h.arenas, a);
  }

  // Replacing the table of arena a so that block k becomes an allocation of num blocks.
  lemma CarveRecords(h: Heap, live: map<int, int>, a: nat, k: int, num: int)
    requires HeapOk(h) && Records(h, live) && a in h.tables
    requires 1 <= num && Fits(h.tables[a], k, num)
    ensures var g := h.(tables := h.tables[a := Carved(h.tables[a], k, num)]);
            && Address(a, k) !in live
            && HeapOk(g) && Records(g, live[Address(a, k) := num])
  {
    var g := h.(tables := h.tables[a := Carved(h.tables[a], k, num)]);
    CarvedOk(h.tables[a], k, num);
    assert HeadOk(h.tables[a], k);
    assert k in Live(g.tables[a]);
    ReplaceTableOk(h, a, g.tables[a]);
    if Address(a, k) in live {
      NotPlacedTwice(h, live, Address(a, k), a, k);
    }
    AddBlockRecords(h, live, a, k, num, g);
  }

  lemma AddBlockRecords(h: Heap, live: map<int, int>, a: nat, k: int, num: int, g: Heap)
    requires Records(h, live) && a in h.tables && Address(a, k) !in live && k !in Live(h.tables[a])
    requires g.custom == h.custom && g.tables.Keys == h.tables.Keys
    requires forall b :: b in h.tables && b != a ==> g.tables[b] == h.tables[b]
    requires Live(g.tables[a]) == Live(h.tables[a])[k := num]
    ensures Records(g, live[Address(a, k) := num])
  {
    var p := Address(a, k);
    forall q, b, l | AtBlock(g, q, b, l) ensures q in live[p := num] && live[p := num][q] == Live(g.tables[b])[l] {
      if b != a || l != k {
        assert AtBlock(h, q, b, l);
      }
    }
    forall q | q in live[p := num] ensures Placed(g, q) {
      if q == p {
        assert AtBlock(g, p, a, k);
      } else {
        assert Placed(h, q);
        if q !in h.custom {
          var b, l :| AtBlock(h, q, b, l);
          assert AtBlock(g, q, b, l);
        }
      }
    }
  }

  // The address of a block that is not a live head is not a live pointer.
  lemma NotPlacedTwice(h: Heap, live: map<int, int>, p: int, a: nat, k: int)
    requires HeapOk(h) && Records(h, live) && a in h.tables
    requires 0 <= k < BLOCKS_IN_ARENA && k !in Live(h.tables[a]) && p == Address(a, k)
    ensures p !in live
  {
    if p in live {
      assert Placed(h, p);
      if p !in h.custom {
        var b, l :| AtBlock(h, p, b, l);
        BlockInside(h, p, b, l);
        SameArena(h.arenas, a, b, p);
      }
      assert false;
    }
  }

  lemma SameArena(arenas: seq<nat>, a: nat, b: nat, p: int)
    requires ArenasOk(arenas) && a in arenas && b in arenas
    requires a <= p < a + ARENA_SIZE && b <= p < b + ARENA_SIZE
    ensures a == b
  {
    OwnerIs(arenas, p, a);
    OwnerIs(arenas, p, b);
  }

  function WithArena(h: Heap, at: nat, num: int): Heap
    requires 0 <= num <= BLOCKS_IN_ARENA
  {
    h.(arenas := Insert(h.arenas, at), tables := h.tables[at := FirstCarved(num)])
  }

  lemma ApartFromArenas(h: Heap, at: nat)
    requires HeapOk(h) && Unmapped(h, at, BLOCKS_IN_ARENA)
    ensures forall b :: b in h.arenas ==> at + ARENA_SIZE <= b || b + ARENA_SIZE <= at
    ensures at !in h.arenas && at !in h.tables
  {
    forall b | b in h.arenas ensures at + ARENA_SIZE <= b || b + ARENA_SIZE <= at {
      assert b in h.tables && Apart(at, BLOCKS_IN_ARENA, b, BLOCKS_IN_ARENA);
    }
  }

  // Entering a busy table for a region that nothing is mapped in.
  lemma NewTableHeapOk(h: Heap, at: nat, cells: seq<SegmentInfo>)
    requires HeapOk(h) && Wf(cells) && Busy(cells) && Unmapped(h, at, BLOCKS_IN_ARENA)
    requires forall a {:trigger Busy(h.tables[a])} :: a in h.tables ==> Busy(h.tables[a])
    ensures HeapOk(h.(arenas := Insert(h.arenas, at), tables := h.tables[at := cells])) && at !in h.tables
  {
    ApartFromArenas(h, at);
    InsertOk(h.arenas, at);
  }

  lemma NewArenaHeapOk(h: Heap, num: int, at: nat)
    requires HeapOk(h)
    requires 1 <= num <= BLOCKS_IN_ARENA && Unmapped(h, at, BLOCKS_IN_ARENA)
    requires forall a :: a in h.tables ==> Busy(h.tables[a])
    ensures HeapOk(WithArena(h, at, num)) && at !in h.tables
    ensures Live(FirstCarved(num)) == map[0 := num]
  {
    FreshOk();
    FirstCarvedIs(num);
    CarvedOk(Fresh(), 0, num);
    var cells := FirstCarved(num);
    assert Live(cells) == map[0 := num];
    assert 0 in Live(cells);
    NewTableHeapOk(h, at, cells);
  }

  lemma NewTableRecords(h: Heap, live: map<int, int>, num: int, at: nat, g: Heap)
    requires Records(h, live) && at !in h.tables && at !in live
    requires g.custom == h.custom && g.tables.Keys == h.tables.Keys + {at}
    requires forall a :: a in h.tables ==> g.tables[a] == h.tables[a]
    requires Live(g.tables[at]) == map[0 := num]
    ensures Records(g, live[at := num])
  {
    forall q, b, l | AtBlock(g, q, b, l) ensures q in live[at := num] && live[at := num][q] == Live(g.tables[b])[l] {
      if b != at {
        assert AtBlock(h, q, b, l);
      }
    }
    forall q | q in live[at := num] ensures Placed(g, q) {
      if q == at {
        assert AtBlock(g, at, at, 0);
      } else {
        assert Placed(h, q);
        if q !in h.custom {
          var b, l :| AtBlock(h, q, b, l);
          assert AtBlock(g, q, b, l);
        }
      }
    }
  }

  lemma NewArenaRecords(h: Heap, live: map<int, int>, num: int, at: nat)
    requires HeapOk(h) && Records(h, live)
    requires 1 <= num <= BLOCKS_IN_ARENA && Unmapped(h, at, BLOCKS_IN_ARENA)
    requires forall a :: a in h.tables ==> Busy(h.tables[a])
    ensures at !in live && Records(WithArena(h, at, num), live[at := num])
  {
    NewArenaHeapOk(h, num, at);
    UnmappedNotLive(h, live, at, BLOCKS_IN_ARENA);
    NewTableRecords(h, live, num, at, WithArena(h, at, num));
  }

  // An arena that cannot serve a request it could serve when entirely free is not entirely free.
  lemma NoFitNotFree(cells: seq<SegmentInfo>, num: int)
    requires Wf(cells) && num <= BLOCKS_IN_ARENA && !Fits(cells, 0, num)
    ensures Busy(cells)
  {
    AllFreeWalk(cells);
  }

  // Both at once: the heap is in order and live lists its allocations.
  ghost predicate InOrder(h: Heap, live: map<int, int>) { HeapOk(h) && Records(h, live) }

  /** bmalloc returns an address that was not live and records exactly it as live. */
  lemma MallocOk(h: Heap, live: map<int, int>, num: int, at: int)
    requires HeapOk(h) && Records(h, live)
    requires 1 <= num && Unmapped(h, at, Larger(num, BLOCKS_IN_ARENA))
    ensures var (g, p) := Malloc(h, num, at);
            p !in live && HeapOk(g) && Records(g, live[p := num])
  {
    if num > BLOCKS_IN_ARENA {
      LargeMallocOk(h, live, num, at);
    } else {
      var i := Serving(h, num, 0);
      if i < |h.arenas| {
        var a := h.arenas[i];
        CarveRecords(h, live, a, LastFit(h.tables[a], num, |h.tables[a]|), num);
      } else {
        forall a | a in h.tables ensures Busy(h.tables[a]) {
          assert a in h.arenas;
          var j :| 0 <= j < |h.arenas| && h.arenas[j] == a;
          assert !HasFit(h, j, num);
          NoFitNotFree(h.tables[a], num);
        }
        NewArenaHeapOk(h, num, at);
        NewArenaRecords(h, live, num, at);
      }
    }
  }

  // A request for no block that an arena serves leaves a head that the scan cannot leave.
  lemma NothingServed(h: Heap, at: int)
    requires HeapOk(h) && Unmapped(h, at, BLOCKS_IN_ARENA) && Serving(h, 0, 0) < |h.arenas|
    ensures !HeapOk(Malloc(h, 0, at).0)
  {
    var a := h.arenas[Serving(h, 0, 0)];
    var k := LastFit(h.tables[a], 0, |h.tables[a]|);
    CarvedWfIffPositive(h.tables[a], k, 0);
    assert a in Malloc(h, 0, at).0.tables && !Wf(Malloc(h, 0, at).0.tables[a]);
  }

  // A request for no block that no arena serves hands out an arena that nothing records.
  lemma NothingMapped(h: Heap, live: map<int, int>, at: nat)
    requires HeapOk(h) && Records(h, live) && Unmapped(h, at, BLOCKS_IN_ARENA) && Serving(h, 0, 0) == |h.arenas|
    ensures Malloc(h, 0, at) == (WithArena(h, at, 0), at) && !Placed(WithArena(h, at, 0), at)
  {
    var g := WithArena(h, at, 0);
    FirstCarvedIs(0);
    FreshOk();
    forall p | p in h.custom ensures p != at {
      assert Apart(at, BLOCKS_IN_ARENA, p, h.custom[p]);
    }
    forall a, k ensures !AtBlock(g, at, a, k) {
      if a in h.tables {
        assert Apart(at, BLOCKS_IN_ARENA, a, BLOCKS_IN_ARENA);
        if AtBlock(h, at, a, k) {
          BlockInside(h, at, a, k);
        }
      }
    }
  }

  lemma NothingRecorded(h: Heap, live: map<int, int>, num: int, at: int)
    requires HeapOk(h) && Records(h, live) && num == 0 && Unmapped(h, at, BLOCKS_IN_ARENA)
    ensures var (g, p) := Malloc(h, num, at); !InOrder(g, live[p := num])
  {
    if Serving(h, 0, 0) < |h.arenas| {
      NothingServed(h, at);
    } else {
      NothingMapped(h, live, at);
      assert at in live[at := 0];
    }
  }

  /** Whatever the heap, bmalloc keeps it in order and records what it hands out exactly when it
      is asked for at least one block. A request for none breaks the table of the arena that
      serves it, or hands out a new arena unrecorded. */
  lemma {:induction false} MallocOkIff(h: Heap, live: map<int, int>, num: int, at: int)
    requires HeapOk(h) && Records(h, live) && 0 <= num && Unmapped(h, at, Larger(num, BLOCKS_IN_ARENA))
    ensures var (g, p) := Malloc(h, num, at); InOrder(g, live[p := num]) <==> 1 <= num
  {
    if num >= 1 {
      MallocOk(h, live, num, at);
    } else {
      NothingRecorded(h, live, num, at);
    }
  }

  /** Completeness: a small request maps a new arena exactly when no existing arena has that
      many consecutive blocks outside every allocation. */
  lemma MapsIffNoFreeRun(h: Heap, num: int, at: int)
    requires HeapOk(h) && 1 <= num <= BLOCKS_IN_ARENA && Unmapped(h, at, BLOCKS_IN_ARENA)
    ensures |Malloc(h, num, at).0.arenas| == |h.arenas| + 1 <==>
            !exists a, s :: a in h.tables && FreeRun(Live(h.tables[a]), s, num)
    ensures |Malloc(h, num, at).0.arenas| != |h.arenas| + 1 ==> Malloc(h, num, at).0.arenas == h.arenas
  {
    var i := Serving(h, num, 0);
    if i < |h.arenas| {
      var a := h.arenas[i];
      FitIsFreeRun(h.tables[a], LastFit(h.tables[a], num, |h.tables[a]|), num);
    } else {
      forall a, s | a in h.tables && FreeRun(Live(h.tables[a]), s, num) ensures false {
        assert a in h.arenas;
        var j :| 0 <= j < |h.arenas| && h.arenas[j] == a;
        assert !HasFit(h, j, num);
        FreeRunFits(h.tables[a], s, num);
      }
      ApartFromArenas(h, at);
      InsertOk(h.arenas, at);
    }
  }

  // a lies below b in the arena list
  ghost predicate Below(h: Heap, a: nat, b: nat) { a in h.tables && a < b }

  /** Placement: a small request takes the last maximal free stretch that is long enough, in the
      lowest arena that has one. */
  lemma MallocPlacement(h: Heap, num: int, at: int) returns (a: nat, k: int)
    requires HeapOk(h) && 1 <= num <= BLOCKS_IN_ARENA && Unmapped(h, at, BLOCKS_IN_ARENA)
    requires Malloc(h, num, at).0.arenas == h.arenas
    ensures a in h.tables && Malloc(h, num, at).1 == Address(a, k)
    ensures RunStart(Live(h.tables[a]), k, num)
    ensures forall s :: k < s ==> !RunStart(Live(h.tables[a]), s, num)
    ensures forall b, s :: Below(h, b, a) ==> !FreeRun(Live(h.tables[b]), s, num)
  {
    a, k := MallocServes(h, num, at);
    var i := Serving(h, num, 0);
    FitIffRunStart(h.tables[a], k, num);
    forall s | k < s ensures !RunStart(Live(h.tables[a]), s, num) {
      FitIffRunStart(h.tables[a], s, num);
    }
    forall b, s | Below(h, b, a) ensures !FreeRun(Live(h.tables[b]), s, num) {
      assert b in h.arenas;
      var j :| 0 <= j < |h.arenas| && h.arenas[j] == b;
      assert j < i;
      assert !HasFit(h, j, num);
      if FreeRun(Live(h.tables[b]), s, num) {
        FreeRunFits(h.tables[b], s, num);
      }
    }
  }

  // ---------------------------------------------------------------- bfree

  lemma BlockNotCustom(h: Heap, p: int, a: int, k: int)
    requires HeapOk(h) && AtBlock(h, p, a, k)
    ensures p !in h.custom
  {
    BlockInside(h, p, a, k);
    forall c | c in h.custom ensures c != p {
      assert Apart(c, h.custom[c], a, BLOCKS_IN_ARENA);
    }
  }

  lemma FreeIsFreeBlock(h: Heap, live: map<int, int>, p: int, a: nat, k: int)
    requires HeapOk(h) && Records(h, live) && p in live && AtBlock(h, p, a, k)
    ensures Free(h, live, p) == FreeBlock(h, a, k)
  {
    BlockNotCustom(h, p, a, k);
    BlockInside(h, p, a, k);
    assert a in h.arenas;
    OwnerIs(h.arenas, p, a);
  }

  lemma DropCustomRecords(h: Heap, live: map<int, int>, p: int, g: Heap)
    requires HeapOk(h) && Records(h, live) && p in h.custom
    requires g.tables == h.tables && g.custom == h.custom - {p}
    ensures Records(g, live - {p})
  {
    forall q, b, l | AtBlock(g, q, b, l) ensures q != p && q in live && live[q] == Live(g.tables[b])[l] {
      assert AtBlock(h, q, b, l);
      BlockNotCustom(h, q, b, l);
    }
    forall q | q in live - {p} ensures Placed(g, q) {
      assert Placed(h, q);
      if q !in h.custom {
        var b, l :| AtBlock(h, q, b, l);
        assert AtBlock(g, q, b, l);
      }
    }
  }

  lemma FreeLargeOk(h: Heap, live: map<int, int>, p: int)
    requires HeapOk(h) && Records(h, live) && p in live && p in h.custom
    ensures Remove(h.arenas, p) == h.arenas
    ensures HeapOk(Free(h, live, p)) && Records(Free(h, live, p), live - {p})
  {
    forall a | a in h.arenas ensures a != p {
      assert a in h.tables && Apart(p, h.custom[p], a, BLOCKS_IN_ARENA);
    }
    RemoveOk(h.arenas, p);
    DropCustomRecords(h, live, p, Free(h, live, p));
  }

  // What the tables record after block k of arena a is returned, whether or not a stays mapped.
  lemma FreeBlockRecords(h: Heap, live: map<int, int>, p: int, a: nat, k: int, g: Heap)
    requires HeapOk(h) && Records(h, live) && AtBlock(h, p, a, k) && p !in h.custom
    requires g.custom == h.custom
    requires forall b :: b in g.tables ==> b in h.tables
    requires forall b :: b in h.tables && b != a ==> b in g.tables && g.tables[b] == h.tables[b]
    requires if a in g.tables then Live(g.tables[a]) == Live(h.tables[a]) - {k}
             else Live(h.tables[a]) - {k} == map[]
    ensures Records(g, live - {p})
  {
    forall q, b, l | AtBlock(g, q, b, l) ensures q != p && q in live && live[q] == Live(g.tables[b])[l] {
      assert AtBlock(h, q, b, l);
      if q == p {
        BlockInside(h, p, a, k);
        BlockInside(h, p, b, l);
        SameArena(h.arenas, a, b, p);
      }
    }
    forall q | q in live - {p} ensures Placed(g, q) {
      assert Placed(h, q);
      if q !in h.custom {
        var b, l :| AtBlock(h, q, b, l);
        assert b == a ==> l in Live(h.tables[a]) - {k};
        assert AtBlock(g, q, b, l);
      }
    }
  }

  lemma FreeBlockOk(h: Heap, live: map<int, int>, p: int, a: nat, k: int)
    requires HeapOk(h) && Records(h, live) && AtBlock(h, p, a, k) && p !in h.custom
    ensures HeapOk(FreeBlock(h, a, k)) && Records(FreeBlock(h, a, k), live - {p})
    ensures a !in FreeBlock(h, a, k).tables <==> |h.arenas| > 3 && Live(h.tables[a]) - {k} == map[]
    ensures a in FreeBlock(h, a, k).tables ==> FreeBlock(h, a, k).arenas == h.arenas
    ensures FreeBlock(h, a, k).custom == h.custom
  {
    var cells := Released(h.tables[a], k);
    ReleasedOk(h.tables[a], k);
    AllFreeWalk(cells);
    if |h.arenas| > 3 && !Busy(cells) {
      DropArenaOk(h, a);
    } else {
      ReplaceTableOk(h, a, cells);
    }
    FreeBlockRecords(h, live, p, a, k, FreeBlock(h, a, k));
  }

  /** bfree removes exactly the given allocation. */
  lemma FreeOk(h: Heap, live: map<int, int>, p: int)
    requires HeapOk(h) && Records(h, live) && p in live
    ensures HeapOk(Free(h, live, p)) && Records(Free(h, live, p), live - {p})
  {
    if p in h.custom {
      FreeLargeOk(h, live, p);
    } else {
      assert Placed(h, p);
      var a, k :| AtBlock(h, p, a, k);
      FreeBlockOk(h, live, p, a, k);
      FreeIsFreeBlock(h, live, p, a, k);
    }
  }

  // ---------------------------------------------------------------- what every state guarantees

  // The mapping that contains the allocation at p: an arena, or a large mapping that starts at p.
  ghost predicate InMapping(h: Heap, p: int, blocks: int) {
    || (p in h.custom && h.custom[p] == blocks)
    || (exists a :: a in h.tables && a <= p && p + Bytes(blocks) <= a + ARENA_SIZE)
  }

  /** Every allocation lies inside one mapping. */
  lemma LiveInsideMapping(h: Heap, live: map<int, int>, p: int)
    requires HeapOk(h) && Records(h, live) && p in live
    ensures 1 <= live[p] && InMapping(h, p, live[p])
  {
    assert Placed(h, p);
    if p !in h.custom {
      var a, k :| AtBlock(h, p, a, k);
      BlockInside(h, p, a, k);
    }
  }

  /** Any two allocations, small or large, occupy disjoint memory. */
  lemma LiveApart(h: Heap, live: map<int, int>, p: int, q: int)
    requires HeapOk(h) && Records(h, live) && p in live && q in live && p != q
    ensures Apart(p, live[p], q, live[q])
  {
    assert Placed(h, p) && Placed(h, q);
    if p in h.custom {
      if q !in h.custom {
        var b, l :| AtBlock(h, q, b, l);
        BlockInside(h, q, b, l);
        assert Apart(p, h.custom[p], b, BLOCKS_IN_ARENA);
      }
    } else {
      var a, k :| AtBlock(h, p, a, k);
      BlockInside(h, p, a, k);
      if q in h.custom {
        assert Apart(q, h.custom[q], a, BLOCKS_IN_ARENA);
      } else {
        var b, l :| AtBlock(h, q, b, l);
        BlockInside(h, q, b, l);
        BlocksApart(h, p, a, k, q, b, l);
      }
    }
  }

  lemma BlocksApart(h: Heap, p: int, a: nat, k: int, q: int, b: nat, l: int)
    requires HeapOk(h) && AtBlock(h, p, a, k) && AtBlock(h, q, b, l) && p != q
    ensures Apart(p, Live(h.tables[a])[k], q, Live(h.tables[b])[l])
  {
    BlockInside(h, p, a, k);
    BlockInside(h, q, b, l);
    if a == b {
      if k < l { HeadsApart(h.tables[a], k, l); } else { HeadsApart(h.tables[a], l, k); }
    } else {
      assert a in h.arenas && b in h.arenas;
      var i :| 0 <= i < |h.arenas| && h.arenas[i] == a;
      var j :| 0 <= j < |h.arenas| && h.arenas[j] == b;
      assert i != j;
    }
  }

  // One live pointer from each of the first n arenas.
  lemma {:induction false} ArenaPointers(h: Heap, live: map<int, int>, n: nat) returns (ps: set<int>)
    requires HeapOk(h) && Records(h, live) && n <= |h.arenas|
    requires forall a :: a in h.tables ==> Busy(h.tables[a])
    ensures |ps| == n && ps <= live.Keys && ps !! h.custom.Keys
    ensures forall p :: p in ps ==> n > 0 && p < h.arenas[n - 1] + ARENA_SIZE
  {
    ps := {};
    if n > 0 {
      var qs := ArenaPointers(h, live, n - 1);
      var a := h.arenas[n - 1];
      assert a in h.arenas && a in h.tables;
      var k :| k in Live(h.tables[a]);
      var p := Address(a, k);
      assert AtBlock(h, p, a, k);
      BlockInside(h, p, a, k);
      forall q | q in qs ensures q < a {
        assert h.arenas[n - 2] + ARENA_SIZE <= a;
      }
      BlockNotCustom(h, p, a, k);
      ps := qs + {p};
    }
  }

  lemma SubsetSize(a: set<int>, b: set<int>)
    requires a <= b
    ensures |a| <= |b|
  {
    assert b == a + (b - a);
  }

  /** No more than three arenas, or as many as there are small allocations, stay mapped. */
  lemma ArenaBound(h: Heap, live: map<int, int>)
    requires HeapOk(h) && Records(h, live)
    ensures |h.arenas| <= Larger(3, |live.Keys - h.custom.Keys|)
  {
    if |h.arenas| > 3 {
      var ps := ArenaPointers(h, live, |h.arenas|);
      SubsetSize(ps, live.Keys - h.custom.Keys);
    }
  }

  /** Once every small allocation is returned, at most three arenas remain and each of them is
      one free segment of 64 blocks. */
  lemma AllReturned(h: Heap, live: map<int, int>)
    requires HeapOk(h) && Records(h, live) && live.Keys <= h.custom.Keys
    ensures |h.arenas| <= 3
    ensures forall a :: a in h.tables ==> Walk(h.tables[a], 0) == [Segment(0, BLOCKS_IN_ARENA, false)]
  {
    forall a | a in h.tables ensures Live(h.tables[a]) == map[] {
      forall k ensures k !in Live(h.tables[a]) {
        if AtBlock(h, Address(a, k), a, k) {
          BlockNotCustom(h, Address(a, k), a, k);
        }
      }
    }
    forall a | a in h.tables ensures Walk(h.tables[a], 0) == [Segment(0, BLOCKS_IN_ARENA, false)] {
      AllFreeWalk(h.tables[a]);
    }
    assert !Busy(h.tables[h.arenas[0]]);
  }

  // ---------------------------------------------------------------- what bfree undoes

  // The same arenas and large mappings, with the same segments in every arena.
  ghost predicate SameSegments(g: Heap, h: Heap)
    requires HeapOk(g) && HeapOk(h)
  {
    && g.arenas == h.arenas && g.custom == h.custom
    && (forall a :: a in h.tables ==> Walk(g.tables[a], 0) == Walk(h.tables[a], 0))
  }

  lemma FreeCarved(h: Heap, live: map<int, int>, a: nat, k: int, num: int, g: Heap)
    requires HeapOk(h) && Records(h, live) && a in h.tables
    requires 1 <= num && Fits(h.tables[a], k, num)
    requires g == h.(tables := h.tables[a := Carved(h.tables[a], k, num)])
    requires HeapOk(g) && Records(g, live[Address(a, k) := num])
    ensures AtBlock(g, Address(a, k), a, k)
    ensures HeapOk(FreeBlock(g, a, k)) && SameSegments(FreeBlock(g, a, k), h)
  {
    var p := Address(a, k);
    CarvedOk(h.tables[a], k, num);
    assert AtBlock(g, p, a, k);
    BlockNotCustom(g, p, a, k);
    FreeBlockOk(g, live[p := num], p, a, k);
    CarvedFreeStays(h, a, k, num, g);
    FreeKeepsTable(g, a, k);
    ReleaseUndoesCarve(h.tables[a], k, num);
  }

  // An arena that serves a request was not spare and idle, so it is not unmapped when the
  // request is returned.
  lemma CarvedFreeStays(h: Heap, a: nat, k: int, num: int, g: Heap)
    requires HeapOk(h) && a in h.tables && 1 <= num && Fits(h.tables[a], k, num)
    requires g == h.(tables := h.tables[a := Carved(h.tables[a], k, num)])
    ensures Live(g.tables[a]) - {k} == Live(h.tables[a])
    ensures !(|g.arenas| > 3 && Live(g.tables[a]) - {k} == map[])
  {
    CarvedOk(h.tables[a], k, num);
    assert |h.arenas| > 3 ==> Busy(h.tables[a]);
  }

  lemma FreeKeepsTable(g: Heap, a: nat, k: int)
    requires a in g.tables && Wf(g.tables[a]) && k in Live(g.tables[a]) && a in FreeBlock(g, a, k).tables
    ensures FreeBlock(g, a, k) == g.(tables := g.tables[a := Released(g.tables[a], k)])
  {
  }

  // Serving from an existing arena is carving its last fitting segment.
  lemma MallocServes(h: Heap, num: int, at: int) returns (a: nat, k: int)
    requires HeapOk(h) && 1 <= num <= BLOCKS_IN_ARENA && Unmapped(h, at, BLOCKS_IN_ARENA)
    requires Malloc(h, num, at).0.arenas == h.arenas
    ensures a in h.tables && Fits(h.tables[a], k, num)
    ensures Serving(h, num, 0) < |h.arenas| && a == h.arenas[Serving(h, num, 0)]
    ensures k == LastFit(h.tables[a], num, |h.tables[a]|)
    ensures Malloc(h, num, at) == (h.(tables := h.tables[a := Carved(h.tables[a], k, num)]), Address(a, k))
  {
    var i := Serving(h, num, 0);
    if i == |h.arenas| {
      ApartFromArenas(h, at);
      InsertOk(h.arenas, at);
      assert false;
    }
    a := h.arenas[i];
    k := LastFit(h.tables[a], num, |h.tables[a]|);
  }

  /** Returning an allocation right after it was served from an existing arena restores every
      arena to the segments it had. */
  lemma FreeUndoesMalloc(h: Heap, live: map<int, int>, num: int, at: int)
    requires HeapOk(h) && Records(h, live)
    requires 1 <= num <= BLOCKS_IN_ARENA && Unmapped(h, at, BLOCKS_IN_ARENA)
    requires Malloc(h, num, at).0.arenas == h.arenas
    ensures var (g, p) := Malloc(h, num, at);
            && HeapOk(g) && Records(g, live[p := num])
            && HeapOk(Free(g, live[p := num], p))
            && SameSegments(Free(g, live[p := num], p), h)
  {
    MallocOk(h, live, num, at);
    var a, k := MallocServes(h, num, at);
    var (g, p) := Malloc(h, num, at);
    FreeCarved(h, live, a, k, num, g);
    FreeIsFreeBlock(g, live[p := num], p, a, k);
  }

  // ---------------------------------------------------------------- runs

  // One call on the allocator; at is the address mmap would return during it.
  datatype Call = Alloc(num: int, at: int) | Return(p: int)

  ghost predicate CanCall(h: Heap, live: map<int, int>, c: Call) {
    match c
    case Alloc(num, at) => 1 <= num && Unmapped(h, at, Larger(num, BLOCKS_IN_ARENA))
    case Return(p) => p in live
  }

  ghost function Perform(h: Heap, live: map<int, int>, c: Call): (r: (Heap, map<int, int>))
    requires HeapOk(h) && Records(h, live) && CanCall(h, live, c)
    ensures HeapOk(r.0) && Records(r.0, r.1)
  {
    match c
    case Alloc(num, at) =>
      MallocOk(h, live, num, at);
      var (g, p) := Malloc(h, num, at);
      (g, live[p := num])
    case Return(p) =>
      FreeOk(h, live, p);
      (Free(h, live, p), live - {p})
  }

  // The heap and the live allocations that a sequence of calls leads to.
  ghost predicate Reaches(h: Heap, live: map<int, int>, calls: seq<Call>, g: Heap, after: map<int, int>)
    requires HeapOk(h) && Records(h, live)
    decreases |calls|
  {
    if calls == [] then g == h && after == live
    else
      && CanCall(h, live, calls[0])
      && var next := Perform(h, live, calls[0]);
         Reaches(next.0, next.1, calls[1..], g, after)
  }

  function Initial(at: nat): Heap { Heap([at], map[], map[at := Fresh()]) }

  lemma InitialOk(at: nat)
    ensures HeapOk(Initial(at)) && Records(Initial(at), map[])
  {
    FreshOk();
  }

  /** Every run of bmalloc and bfree from an orderly heap leads to an orderly heap that records
      exactly the live allocations. */
  lemma {:induction false} RunOk(h: Heap, live: map<int, int>, calls: seq<Call>, g: Heap, after: map<int, int>)
    requires HeapOk(h) && Records(h, live) && Reaches(h, live, calls, g, after)
    ensures HeapOk(g) && Records(g, after)
    decreases |calls|
  {
    if calls != [] {
      var next := Perform(h, live, calls[0]);
      RunOk(next.0, next.1, calls[1..], g, after);
    }
  }

  ghost predicate ArenasBounded(h: Heap, live: map<int, int>) {
    |h.arenas| <= Larger(3, |live.Keys - h.custom.Keys|)
  }

  ghost predicate AllApart(live: map<int, int>) {
    forall p, q :: p in live && q in live && p != q ==> Apart(p, live[p], q, live[q])
  }

  /** Wherever a run of bmalloc and bfree leads from an orderly heap, such as the constructor's,
      allocations are disjoint and at most three arenas, or as many as there are small allocations,
      are mapped. */
  lemma EveryRun(h: Heap, live: map<int, int>, calls: seq<Call>, g: Heap, after: map<int, int>)
    requires HeapOk(h) && Records(h, live) && Reaches(h, live, calls, g, after)
    ensures AllApart(after) && ArenasBounded(g, after)
  {
    RunOk(h, live, calls, g, after);
    forall p, q | p in after && q in after && p != q ensures Apart(p, after[p], q, after[q]) {
      LiveApart(g, after, p, q);
    }
    ArenaBound(g, after);
  }

  // ---------------------------------------------------------------- what mmap returned

  // mmap returned a region of so many blocks at a: for the constructor, or during a call.
  ghost predicate Mapped(first: nat, calls: seq<Call>, a: int, blocks: int) {
    || (a == first && blocks == BLOCKS_IN_ARENA)
    || exists c :: c in calls && c.Alloc? && c.at == a && blocks == Larger(c.num, BLOCKS_IN_ARENA)
  }

  // Every arena and every large mapping is a region that mmap returned, of that size.
  ghost predicate FromKernel(h: Heap, first: nat, calls: seq<Call>) {
    && (forall a :: a in h.tables ==> Mapped(first, calls, a, BLOCKS_IN_ARENA))
    && (forall p :: p in h.custom ==> Mapped(first, calls, p, h.custom[p]))
  }

  lemma MappedMore(first: nat, calls: seq<Call>, c: Call, a: int, blocks: int)
    requires Mapped(first, calls, a, blocks)
    ensures Mapped(first, calls + [c], a, blocks)
  {
    if !(a == first && blocks == BLOCKS_IN_ARENA) {
      var b :| b in calls && b.Alloc? && b.at == a && blocks == Larger(b.num, BLOCKS_IN_ARENA);
      assert b in calls + [c];
    }
  }

  // A call maps nothing but the region that mmap returns during it.
  lemma MallocMapsAt(h: Heap, num: int, at: int)
    requires HeapOk(h) && 1 <= num && Unmapped(h, at, Larger(num, BLOCKS_IN_ARENA))
    ensures var g := Malloc(h, num, at).0;
            && (forall a :: a in g.tables ==> a in h.tables || (a == at && num <= BLOCKS_IN_ARENA))
            && (forall p :: p in g.custom ==>
                  (p in h.custom && g.custom[p] == h.custom[p]) || (p == at && g.custom[p] == num && num > BLOCKS_IN_ARENA))
  {
  }

  lemma FreeMapsNothing(h: Heap, live: map<int, int>, p: int)
    requires HeapOk(h) && Records(h, live) && p in live
    ensures var g := Free(h, live, p);
            && (forall a :: a in g.tables ==> a in h.tables)
            && (forall q :: q in g.custom ==> q in h.custom && g.custom[q] == h.custom[q])
  {
    LiveCanFree(h, live, p);
  }

  lemma CallFromKernel(h: Heap, live: map<int, int>, c: Call, first: nat, calls: seq<Call>)
    requires HeapOk(h) && Records(h, live) && CanCall(h, live, c) && FromKernel(h, first, calls)
    ensures FromKernel(Perform(h, live, c).0, first, calls + [c])
  {
    var g := Perform(h, live, c).0;
    match c {
      case Alloc(num, at) => MallocMapsAt(h, num, at);
      case Return(p) => FreeMapsNothing(h, live, p);
    }
    assert c in calls + [c];
    forall a | a in g.tables ensures Mapped(first, calls + [c], a, BLOCKS_IN_ARENA) {
      if a in h.tables { MappedMore(first, calls, c, a, BLOCKS_IN_ARENA); }
    }
    forall p | p in g.custom ensures Mapped(first, calls + [c], p, g.custom[p]) {
      if p in h.custom && g.custom[p] == h.custom[p] { MappedMore(first, calls, c, p, h.custom[p]); }
    }
  }

  lemma {:induction false} RunFromKernel(h: Heap, live: map<int, int>, calls: seq<Call>, g: Heap, after: map<int, int>,
                                         first: nat, done: seq<Call>)
    requires HeapOk(h) && Records(h, live) && Reaches(h, live, calls, g, after) && FromKernel(h, first, done)
    ensures FromKernel(g, first, done + calls)
    decreases |calls|
  {
    if calls == [] {
      assert done + calls == done;
    } else {
      CallFromKernel(h, live, calls[0], first, done);
      var next := Perform(h, live, calls[0]);
      RunFromKernel(next.0, next.1, calls[1..], g, after, first, done + [calls[0]]);
      assert done + calls == done + [calls[0]] + calls[1..];
    }
  }

  // The blocks at p lie inside a region that mmap returned.
  ghost predicate InRegion(first: nat, calls: seq<Call>, p: int, blocks: int) {
    exists a, size :: Mapped(first, calls, a, size) && a <= p && p + Bytes(blocks) <= a + Bytes(size)
  }

  // A run of a new allocator, whose first arena mmap put at first.
  ghost predicate ReachesFrom(first: nat, calls: seq<Call>, g: Heap, after: map<int, int>) {
    InitialOk(first);
    Reaches(Initial(first), map[], calls, g, after)
  }

  /** Wherever a run leads from the constructor, whose arena mmap put at first, every arena and large
      mapping is a region that mmap returned, at that address and of that size, and every
      allocation lies inside one. */
  lemma MappedByKernel(first: nat, calls: seq<Call>, g: Heap, after: map<int, int>)
    requires ReachesFrom(first, calls, g, after)
    ensures FromKernel(g, first, calls)
    ensures forall p :: p in after ==> InRegion(first, calls, p, after[p])
  {
    InitialOk(first);
    assert FromKernel(Initial(first), first, []);
    RunFromKernel(Initial(first), map[], calls, g, after, first, []);
    assert [] + calls == calls;
    RunOk(Initial(first), map[], calls, g, after);
    forall p | p in after ensures InRegion(first, calls, p, after[p]) {
      LiveInRegion(g, after, first, calls, p);
    }
  }

  lemma LiveInRegion(h: Heap, live: map<int, int>, first: nat, calls: seq<Call>, p: int)
    requires HeapOk(h) && Records(h, live) && FromKernel(h, first, calls) && p in live
    ensures InRegion(first, calls, p, live[p])
  {
    LiveInsideMapping(h, live, p);
    if p in h.custom && h.custom[p] == live[p] {
      assert Mapped(first, calls, p, live[p]);
    } else {
      var a :| a in h.tables && a <= p && p + Bytes(live[p]) <= a + ARENA_SIZE;
      assert Mapped(first, calls, a, BLOCKS_IN_ARENA);
    }
  }
}
