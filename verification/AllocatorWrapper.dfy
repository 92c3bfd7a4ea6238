/** The allocator itself: the segment tables are arrays updated in place. */
module AllocatorWrapper {
  import opened Segments
  import opened Heaps
  import opened HeapLaws

  // ---------------------------------------------------------------- one arena's table

  /** The scan of bmalloc over the segments of one arena. */
  method FindFit(arr: array<SegmentInfo>, num: int) returns (found: int)
    requires Wf(arr[..])
    ensures found == -1 || Fits(arr[..], found, num)
    ensures forall h :: found < h ==> !Fits(arr[..], h, num)
  {
    ghost var cells := arr[..];
    found := -1;
    var i := 0;
    while i < arr.Length
      invariant 0 <= i <= arr.Length
      invariant i < arr.Length ==> IsHead(cells, i)
      invariant found < i && (found == -1 || Fits(cells, found, num))
      invariant forall h :: found < h < i ==> !Fits(cells, h, num)
    {
      assert HeadOk(cells, i);
      if !(arr[i].interior || arr[i].occupied) && arr[i].length >= num {
        found := i;
      }
      i := i + arr[i].length;
    }
  }

  /** Marks the first num blocks of a free segment as allocated, splitting off the rest. */
  method Carve(arr: array<SegmentInfo>, found: int, num: int)
    requires Wf(arr[..]) && 0 <= num && Fits(arr[..], found, num)
    modifies arr
    ensures arr[..] == Carved(old(arr[..]), found, num)
  {
    ghost var cells := arr[..];
    assert HeadOk(cells, found);
    var segment := arr[found];
    if segment.length == num && found + segment.length < arr.Length {
      arr[found + segment.length] := arr[found + segment.length].(back := found);
    } else if segment.length > num {
      arr[found + num] := SegmentInfo(segment.length - num, found, false, false);
      if found + segment.length < arr.Length {
        arr[found + segment.length] := arr[found + segment.length].(back := found + num);
      }
    }
    arr[found] := arr[found].(length := num, occupied := true);
  }

  /** The first allocation of a freshly mapped arena. */
  method CarveFirst(arr: array<SegmentInfo>, num: int)
    requires arr[..] == Fresh() && 0 <= num <= BLOCKS_IN_ARENA
    modifies arr
    ensures arr[..] == FirstCarved(num)
  {
    arr[0] := arr[0].(occupied := true, length := num);
    if num < BLOCKS_IN_ARENA {
      arr[num] := arr[num].(occupied := false, interior := false, back := 0, length := BLOCKS_IN_ARENA - num);
    }
  }

  // First step of freeing a segment: absorb the next one if it is free.
  method ReleaseForward(arr: array<SegmentInfo>, position: int)
    requires arr.Length == BLOCKS_IN_ARENA && 0 <= position < arr.Length
    requires var forward := End(arr[..], position);
             position < forward <= arr.Length && (forward < arr.Length ==> End(arr[..], forward) <= arr.Length)
    modifies arr
    ensures arr[..] == MergeNext(old(arr[..]), position)
  {
    var forward := position + arr[position].length;
    if forward < arr.Length && !arr[forward].occupied {
      arr[position] := arr[position].(length := arr[position].length + arr[forward].length);
      arr[forward] := arr[forward].(interior := true);
    }
  }

  // Second step: join the segment before it if that is free, or else mark it free itself.
  method ReleaseBackward(arr: array<SegmentInfo>, position: int)
    requires arr.Length == BLOCKS_IN_ARENA && 0 <= position < arr.Length
    requires position < End(arr[..], position) <= arr.Length
    requires var back := arr[position].back; position != 0 ==> back < position && End(arr[..], back) == position
    modifies arr
    ensures arr[..] == MergeBack(old(arr[..]), position)
  {
    var back := arr[position].back;
    if position != 0 && !arr[back].occupied {
      arr[back] := arr[back].(length := arr[back].length + arr[position].length);
      arr[position] := arr[position].(interior := true);
      var next := back + arr[back].length;
      if next < arr.Length {
        arr[next] := arr[next].(back := back);
      }
    } else {
      arr[position] := arr[position].(occupied := false);
      var next := position + arr[position].length;
      if next < arr.Length {
        arr[next] := arr[next].(back := position);
      }
    }
  }

  /** Frees the segment at position, joining it with free neighbours. */
  method Release(arr: array<SegmentInfo>, position: int)
    requires Wf(arr[..]) && position in Live(arr[..])
    modifies arr
    ensures arr[..] == Released(old(arr[..]), position)
  {
    Neighbours(arr[..], position);
    ReleaseForward(arr, position);
    ReleaseBackward(arr, position);
  }

  /** The table of a freshly mapped arena: one free segment. */
  method NewTable() returns (arr: array<SegmentInfo>)
    ensures fresh(arr) && arr[..] == Fresh()
  {
    arr := new SegmentInfo[BLOCKS_IN_ARENA](_ => UNUSED);
    arr[0] := SegmentInfo(BLOCKS_IN_ARENA, 0, false, false);
  }

  // ---------------------------------------------------------------- the allocator

  class AllocatorWrapper {
    var arenas: seq<nat>
    var customArenas: map<nat, nat>
    var segmentInfo: map<nat, array<SegmentInfo>>
    ghost var home: map<array<SegmentInfo>, nat> // the arena that a table was made for
    ghost var live: map<int, int>  // allocations handed out and not returned: address to blocks

    ghost function View(): Heap
      reads `arenas, `customArenas, `segmentInfo, segmentInfo.Values
    {
      Heap(arenas, customArenas, map a | a in segmentInfo :: segmentInfo[a][..])
    }

    ghost predicate Valid()
      reads this, segmentInfo.Values
    {
      && HeapOk(View()) && Records(View(), live)
      && Distinct()
    }

    /** at is the address that mmap returns for the first arena. */
    constructor (at: nat)
      ensures Valid() && fresh(segmentInfo.Values)
      ensures View() == Initial(at) && live == map[]
    {
      arenas, customArenas, segmentInfo := [], map[], map[];
      live, home := map[], map[];
      new;
      var arr := NewTable();
      arenas, segmentInfo, home := [at], map[at := arr], map[arr := at];
      InitialOk(at);
      assert View() == Initial(at);
    }

    // Every table belongs to one arena.
    ghost predicate Distinct()
      reads `segmentInfo, `home
    {
      forall a {:trigger segmentInfo[a]} :: a in segmentInfo ==> segmentInfo[a] in home && home[segmentInfo[a]] == a
    }

    /** Maps an arena, all of it one free segment, and enters it in address order. */
    method AddArena(at: nat)
      requires Distinct() && at !in segmentInfo
      modifies this
      ensures Distinct() && customArenas == old(customArenas) && live == old(live)
      ensures at in segmentInfo && fresh(segmentInfo[at]) && segmentInfo == old(segmentInfo)[at := segmentInfo[at]]
      ensures segmentInfo[at][..] == Fresh()
      ensures View() == Heap(Insert(old(arenas), at), customArenas, old(View()).tables[at := Fresh()])
    {
      var arr := NewTable();
      EnterArena(at, arr);
    }

    // Enters a table that belongs to no arena yet.
    method EnterArena(at: nat, arr: array<SegmentInfo>)
      requires Distinct() && at !in segmentInfo && arr !in segmentInfo.Values
      modifies `arenas, `segmentInfo, `home
      ensures Distinct() && segmentInfo == old(segmentInfo)[at := arr]
      ensures View() == Heap(Insert(old(arenas), at), customArenas, old(View()).tables[at := arr[..]])
    {
      arenas := Insert(arenas, at);
      segmentInfo, home := segmentInfo[at := arr], home[arr := at];
    }

    // Carves an allocation out of one arena; the other tables stay as they are.
    method CarveIn(a: nat, found: int, num: int)
      requires Distinct() && a in segmentInfo
      requires Wf(segmentInfo[a][..]) && 0 <= num && Fits(segmentInfo[a][..], found, num)
      modifies segmentInfo[a]
      ensures View() == old(View()).(tables := old(View()).tables[a := Carved(old(segmentInfo[a][..]), found, num)])
    {
      Carve(segmentInfo[a], found, num);
    }

    // Carves the first allocation out of a new arena.
    method CarveFresh(a: nat, num: int)
      requires Distinct() && a in segmentInfo && segmentInfo[a][..] == Fresh() && 0 <= num <= BLOCKS_IN_ARENA
      modifies segmentInfo[a]
      ensures View() == old(View()).(tables := old(View()).tables[a := FirstCarved(num)])
    {
      CarveFirst(segmentInfo[a], num);
    }

    // Serves num blocks from a freshly mapped arena.
    method CarveNew(at: nat, num: int)
      requires Distinct() && at !in segmentInfo && 0 <= num <= BLOCKS_IN_ARENA
      modifies this
      ensures Distinct() && customArenas == old(customArenas) && live == old(live)
      ensures at in segmentInfo && fresh(segmentInfo[at]) && segmentInfo == old(segmentInfo)[at := segmentInfo[at]]
      ensures fresh(segmentInfo.Values - old(segmentInfo.Values))
      ensures View() == WithArena(old(View()), at, num)
    {
      ghost var tables: map<nat, seq<SegmentInfo>> := View().tables;
      AddArena(at);
      CarveFresh(at, num);
      assert View().tables == tables[at := FirstCarved(num)];
    }

    // Tries the arenas in address order.
    method FindServing(num: int) returns (i: int, found: int)
      requires HeapOk(View()) && 0 <= num <= BLOCKS_IN_ARENA
      ensures i == Serving(View(), num, 0)
      ensures i < |arenas| ==>
                arenas[i] in segmentInfo && found == LastFit(segmentInfo[arenas[i]][..], num, BLOCKS_IN_ARENA)
    {
      ghost var h, goal := View(), Serving(View(), num, 0);
      i, found := 0, -1;
      while i < |arenas|
        invariant 0 <= i <= |arenas| && goal == Serving(h, num, i)
      {
        ServingStep(h, num, i);
        if arenas[i] !in customArenas {
          found := FindFit(segmentInfo[arenas[i]], num);
          LastFitIs(segmentInfo[arenas[i]][..], num, found);
          if found != -1 {
            return;
          }
        }
        i := i + 1;
      }
    }

    // A mapping of its own for a request larger than an arena.
    method MapLarge(num: int, at: nat)
      requires 0 <= num
      modifies `customArenas
      ensures View() == old(View()).(custom := old(customArenas)[at := num])
    {
      customArenas := customArenas[at := num];
      assert View().tables == old(View().tables);
    }

    // bmalloc, but for keeping the record of live allocations
    method Place(num: int, at: nat) returns (p: int)
      requires HeapOk(View()) && Distinct()
      requires 0 <= num && Unmapped(View(), at, Larger(num, BLOCKS_IN_ARENA))
      modifies this, segmentInfo.Values
      ensures Distinct() && live == old(live) && fresh(segmentInfo.Values - old(segmentInfo.Values))
      ensures (View(), p) == Malloc(old(View()), num, at)
    {
      if num > BLOCKS_IN_ARENA {
        MapLarge(num, at);
        p := at;
      } else {
        p := PlaceSmall(num, at);
      }
    }

    // Serves at most 64 blocks from an arena.
    method PlaceSmall(num: int, at: nat) returns (p: int)
      requires HeapOk(View()) && Distinct()
      requires 0 <= num <= BLOCKS_IN_ARENA && Unmapped(View(), at, BLOCKS_IN_ARENA)
      modifies this, segmentInfo.Values
      ensures Distinct() && live == old(live) && fresh(segmentInfo.Values - old(segmentInfo.Values))
      ensures (View(), p) == Malloc(old(View()), num, at)
    {
      ghost var h := View();
      var i, found := FindServing(num);
      assert View() == h;
      if i < |arenas| {
        p := ServeExisting(num, at, i, found);
      } else {
        p := ServeNew(num, at);
      }
    }

    method ServeExisting(num: int, at: nat, i: int, found: int) returns (p: int)
      requires HeapOk(View()) && Distinct()
      requires 0 <= num <= BLOCKS_IN_ARENA && Unmapped(View(), at, BLOCKS_IN_ARENA)
      requires i == Serving(View(), num, 0) && i < |arenas| && arenas[i] in segmentInfo
      requires found == LastFit(segmentInfo[arenas[i]][..], num, |segmentInfo[arenas[i]][..]|)
      modifies segmentInfo[arenas[i]]
      ensures (View(), p) == Malloc(old(View()), num, at)
    {
      ghost var h, cells := View(), segmentInfo[arenas[i]][..];
      assert h.tables[arenas[i]] == cells;
      MallocServed(h, num, at, arenas[i], cells, found);
      CarveIn(arenas[i], found, num);
      p := arenas[i] + found * BLOCK_SIZE_MMAP;
    }

    method ServeNew(num: int, at: nat) returns (p: int)
      requires HeapOk(View()) && Distinct()
      requires 0 <= num <= BLOCKS_IN_ARENA && Unmapped(View(), at, BLOCKS_IN_ARENA)
      requires Serving(View(), num, 0) == |arenas|
      modifies this
      ensures Distinct() && live == old(live) && fresh(segmentInfo.Values - old(segmentInfo.Values))
      ensures (View(), p) == Malloc(old(View()), num, at)
    {
      NotMapped(View(), at, num);
      MallocMaps(View(), num, at);
      CarveNew(at, num);
      p := at;
    }

    /** Allocates num consecutive blocks; at is the address mmap returns if it is called. The
        allocator stays in order exactly when at least one block is asked for. */
    method Bmalloc(num: int, at: nat) returns (p: int)
      requires Valid() && 0 <= num && Unmapped(View(), at, Larger(num, BLOCKS_IN_ARENA))
      modifies this, segmentInfo.Values
      ensures Valid() <==> 1 <= num
      ensures fresh(segmentInfo.Values - old(segmentInfo.Values))
      ensures (View(), p) == Malloc(old(View()), num, at)
      ensures live == old(live)[p := num] && (1 <= num ==> p !in old(live))
    {
      ghost var h := View();
      MallocOkIff(h, live, num, at);
      if num >= 1 {
        MallocOk(h, live, num, at);
      }
      p := Place(num, at);
      ghost var g := View();
      live := live[p := num];
      assert View() == g;
    }

    // Frees one block of an arena.
    method ReleaseBlock(a: nat, position: int)
      requires Distinct() && a in segmentInfo
      requires Wf(segmentInfo[a][..]) && position in Live(segmentInfo[a][..])
      modifies segmentInfo[a]
      ensures segmentInfo[a][..] == Released(old(segmentInfo[a][..]), position)
      ensures View() == old(View()).(tables := old(View()).tables[a := segmentInfo[a][..]])
    {
      Release(segmentInfo[a], position);
    }

    method UnmapArena(a: nat)
      requires Distinct() && a in segmentInfo
      modifies `arenas, `segmentInfo
      ensures Distinct() && segmentInfo == old(segmentInfo) - {a}
      ensures View() == old(View()).(arenas := Remove(old(arenas), a), tables := old(View()).tables - {a})
    {
      arenas := Remove(arenas, a);
      segmentInfo := segmentInfo - {a};
    }

    // Frees one block of an arena and unmaps the arena if it is idle and spare.
    method ReleaseIn(a: nat, position: int)
      requires Distinct() && a in segmentInfo
      requires Wf(segmentInfo[a][..]) && position in Live(segmentInfo[a][..])
      modifies `arenas, `segmentInfo, segmentInfo[a]
      ensures Distinct() && (segmentInfo == old(segmentInfo) || segmentInfo == old(segmentInfo) - {a})
      ensures View() == FreeBlock(old(View()), a, position)
    {
      ghost var h := View();
      ReleaseBlock(a, position);
      ghost var g := View();
      var head := segmentInfo[a][0];
      if !head.occupied && head.length == BLOCKS_IN_ARENA && |arenas| > 3 {
        UnmapArena(a);
        assert g.tables - {a} == h.tables - {a};
      }
    }

    // Searches the arenas from the highest address down.
    method FindOwner(p: int) returns (i: int)
      ensures i == Owner(arenas, p, |arenas|)
    {
      i := |arenas| - 1;
      while i >= 0 && !(p >= arenas[i])
        invariant -1 <= i < |arenas|
        invariant Owner(arenas, p, |arenas|) == Owner(arenas, p, i + 1)
      {
        i := i - 1;
      }
    }

    // Drops a mapping larger than an arena.
    method UnmapLarge(p: int)
      requires p in customArenas
      modifies `arenas, `customArenas
      ensures View() == FreeAt(old(View()), p)
    {
      arenas := Remove(arenas, p);
      customArenas := customArenas - {p};
      assert View().tables == old(View().tables);
    }

    // Frees the block at an address in the arena found for it.
    method UnplaceSmall(p: int)
      requires Distinct() && CanFree(View(), p) && p !in customArenas
      modifies `arenas, `segmentInfo, segmentInfo.Values
      ensures Distinct() && segmentInfo.Values <= old(segmentInfo.Values)
      ensures View() == FreeAt(old(View()), p)
    {
      ghost var h := View();
      var found := FindOwner(p);
      var a := arenas[found];
      assert FreeAt(h, p) == FreeBlock(h, a, (p - a) / BLOCK_SIZE_MMAP);
      ReleaseIn(a, (p - a) / BLOCK_SIZE_MMAP);
    }

    // bfree, but for keeping the record of live allocations
    method Unplace(p: int)
      requires Distinct() && CanFree(View(), p)
      modifies `arenas, `customArenas, `segmentInfo, segmentInfo.Values
      ensures Distinct() && segmentInfo.Values <= old(segmentInfo.Values)
      ensures View() == FreeAt(old(View()), p)
    {
      if p in customArenas {
        UnmapLarge(p);
      } else {
        UnplaceSmall(p);
      }
    }

    /** Returns an allocation. */
    method Bfree(p: int)
      requires Valid() && p in live
      modifies this, segmentInfo.Values
      ensures Valid() && segmentInfo.Values <= old(segmentInfo.Values)
      ensures View() == Free(old(View()), old(live), p)
      ensures live == old(live) - {p}
    {
      FreeOk(View(), live, p);
      LiveCanFree(View(), live, p);
      Unplace(p);
      live := live - {p};
    }
  }

  lemma MallocServed(h: Heap, num: int, at: int, a: nat, cells: seq<SegmentInfo>, k: int)
    requires HeapOk(h) && 0 <= num <= BLOCKS_IN_ARENA && Unmapped(h, at, BLOCKS_IN_ARENA)
    requires Serving(h, num, 0) < |h.arenas| && a == h.arenas[Serving(h, num, 0)]
    requires a in h.tables && cells == h.tables[a] && k == LastFit(cells, num, |cells|)
    ensures Wf(cells) && Fits(cells, k, num)
    ensures Malloc(h, num, at) == (h.(tables := h.tables[a := Carved(cells, k, num)]), Address(a, k))
  {
  }

  lemma MallocMaps(h: Heap, num: int, at: int)
    requires HeapOk(h) && 0 <= num <= BLOCKS_IN_ARENA && Unmapped(h, at, BLOCKS_IN_ARENA)
    requires Serving(h, num, 0) == |h.arenas|
    ensures Malloc(h, num, at) == (WithArena(h, at, num), at)
  {
  }

  lemma ServingStep(h: Heap, num: int, i: int)
    requires HeapOk(h) && 0 <= i < |h.arenas|
    ensures h.arenas[i] in h.tables && h.arenas[i] !in h.custom && |h.tables[h.arenas[i]]| == BLOCKS_IN_ARENA
    ensures Serving(h, num, i) ==
            if LastFit(h.tables[h.arenas[i]], num, BLOCKS_IN_ARENA) != -1 then i else Serving(h, num, i + 1)
  {
    var a := h.arenas[i];
    assert a in h.arenas;
    forall p | p in h.custom ensures p != a {
      assert Apart(p, h.custom[p], a, BLOCKS_IN_ARENA);
    }
  }

  lemma LastFitIs(cells: seq<SegmentInfo>, num: int, k: int)
    requires k == -1 || Fits(cells, k, num)
    requires forall h :: k < h ==> !Fits(cells, h, num)
    ensures LastFit(cells, num, |cells|) == k
  {
    var l := LastFit(cells, num, |cells|);
    assert k < l ==> !Fits(cells, l, num);
  }

  lemma NotMapped(h: Heap, at: int, num: int)
    requires HeapOk(h) && Unmapped(h, at, BLOCKS_IN_ARENA)
    ensures at !in h.tables
  {
    forall a | a in h.tables ensures a != at {
      assert Apart(at, BLOCKS_IN_ARENA, a, BLOCKS_IN_ARENA);
    }
  }
}
