/** The segment table of one arena: a boundary-tag description of its blocks,
    kept in an array of cells, and the laws every table operation keeps. */
module Segments {

  const BLOCKS_IN_ARENA := 64
  const BLOCK_SIZE_MMAP := 16384  // 16 * 1024 bytes
  const ARENA_SIZE := 1048576     // BLOCK_SIZE_MMAP * BLOCKS_IN_ARENA bytes

  // The bit-field width of length and back.
  type Bits7 = x: int | 0 <= x < 128

  // Cells that are not the head of a segment keep stale length, back and occupied values.
  datatype SegmentInfo = SegmentInfo(length: Bits7, back: Bits7, occupied: bool, interior: bool)

  const UNUSED := SegmentInfo(0, 0, false, true)

  predicate IsHead(cells: seq<SegmentInfo>, k: int) {
    0 <= k < |cells| && !cells[k].interior
  }

  function End(cells: seq<SegmentInfo>, h: int): int
    requires 0 <= h < |cells|
  {
    h + cells[h].length
  }

  /** The segment at head h is non-empty, has no other head inside it, ends where the next
      segment starts, is named by that segment's back link, and is not free next to a free one. */
  ghost predicate HeadOk(cells: seq<SegmentInfo>, h: int)
    requires IsHead(cells, h)
  {
    && h < End(cells, h) <= |cells|
    && (forall k :: h < k < End(cells, h) ==> cells[k].interior)
    && (End(cells, h) < |cells| ==>
          && IsHead(cells, End(cells, h))
          && cells[End(cells, h)].back == h
          && (cells[h].occupied || cells[End(cells, h)].occupied))
  }

  ghost predicate Wf(cells: seq<SegmentInfo>) {
    && |cells| == BLOCKS_IN_ARENA
    && IsHead(cells, 0)
    && (forall h {:trigger HeadOk(cells, h)} :: IsHead(cells, h) ==> HeadOk(cells, h))
  }

  // The allocations of the arena: head block to number of blocks.
  function Live(cells: seq<SegmentInfo>): map<int, int> {
    map h | 0 <= h < |cells| && !cells[h].interior && cells[h].occupied :: cells[h].length
  }

  ghost predicate Covered(live: map<int, int>, b: int) {
    exists h :: h in live && h <= b < h + live[h]
  }

  // num consecutive blocks from s that no allocation covers
  ghost predicate FreeRun(live: map<int, int>, s: int, num: int) {
    0 <= s && s + num <= BLOCKS_IN_ARENA && forall b :: s <= b < s + num ==> !Covered(live, b)
  }

  predicate Fits(cells: seq<SegmentInfo>, h: int, num: int) {
    IsHead(cells, h) && !cells[h].occupied && num <= cells[h].length
  }

  // ---------------------------------------------------------------- the walk

  datatype Segment = Segment(start: int, length: int, occupied: bool)

  /** The segments met by stepping from head i by each head's length. */
  function Walk(cells: seq<SegmentInfo>, i: int): (w: seq<Segment>)
    requires Wf(cells) && (i == |cells| || IsHead(cells, i))
    decreases |cells| - i
  {
    if i == |cells| then []
    else
      assert HeadOk(cells, i);
      [Segment(i, cells[i].length, cells[i].occupied)] + Walk(cells, End(cells, i))
  }

  function Blocks(w: seq<Segment>, occupied: bool): int {
    if w == [] then 0
    else (if w[0].occupied == occupied then w[0].length else 0) + Blocks(w[1..], occupied)
  }

  /** The walk from block 0 accounts for every block of the arena. */
  lemma {:induction false} WalkConserves(cells: seq<SegmentInfo>, i: int)
    requires Wf(cells) && (i == |cells| || IsHead(cells, i))
    ensures Blocks(Walk(cells, i), true) + Blocks(Walk(cells, i), false) == |cells| - i
    decreases |cells| - i
  {
    if i < |cells| {
      assert HeadOk(cells, i);
      WalkConserves(cells, End(cells, i));
      assert Walk(cells, i)[1..] == Walk(cells, End(cells, i));
    }
  }

  // The head of the segment that block b lies in.
  function HeadOf(cells: seq<SegmentInfo>, b: int): (h: int)
    requires Wf(cells) && 0 <= b < |cells|
    ensures IsHead(cells, h) && h <= b
    ensures forall k :: h < k <= b ==> cells[k].interior
    decreases b
  {
    if IsHead(cells, b) then b else HeadOf(cells, b - 1)
  }

  lemma HeadOfCovers(cells: seq<SegmentInfo>, b: int)
    requires Wf(cells) && 0 <= b < |cells|
    ensures HeadOf(cells, b) <= b < End(cells, HeadOf(cells, b))
  {
    assert HeadOk(cells, HeadOf(cells, b));
  }

  lemma HeadsApart(cells: seq<SegmentInfo>, g: int, h: int)
    requires Wf(cells) && IsHead(cells, g) && IsHead(cells, h) && g < h
    ensures End(cells, g) <= h
  {
    assert HeadOk(cells, g);
  }

  // The back link of every head but the first names the segment that ends there.
  lemma BackLink(cells: seq<SegmentInfo>, h: int)
    requires Wf(cells) && IsHead(cells, h) && h != 0
    ensures var b := cells[h].back; IsHead(cells, b) && b < h && End(cells, b) == h
  {
    var b := HeadOf(cells, h - 1);
    HeadOfCovers(cells, h - 1);
    assert HeadOk(cells, b);
  }

  /** An arena has num consecutive uncovered blocks exactly when one free segment is that
      long: the scan over segments is complete because free segments are coalesced. */
  lemma FitIffFreeRun(cells: seq<SegmentInfo>, num: int)
    requires Wf(cells) && 1 <= num
    ensures (exists h :: Fits(cells, h, num)) <==> (exists s :: FreeRun(Live(cells), s, num))
  {
    if h :| Fits(cells, h, num) {
      FitIsFreeRun(cells, h, num);
    }
    if s :| FreeRun(Live(cells), s, num) {
      FreeRunFits(cells, s, num);
    }
  }

  lemma FitIsFreeRun(cells: seq<SegmentInfo>, h: int, num: int)
    requires Wf(cells) && 1 <= num && Fits(cells, h, num)
    ensures FreeRun(Live(cells), h, num)
  {
    var live := Live(cells);
    assert HeadOk(cells, h);
    forall b | h <= b < h + num ensures !Covered(live, b) {
      if Covered(live, b) {
        var g :| g in live && g <= b < g + live[g];
        if g < h { HeadsApart(cells, g, h); } else { HeadsApart(cells, h, g); }
      }
    }
  }

  lemma FreeRunFits(cells: seq<SegmentInfo>, s: int, num: int)
    requires Wf(cells) && 1 <= num && FreeRun(Live(cells), s, num)
    ensures Fits(cells, HeadOf(cells, s), num)
  {
    var live := Live(cells);
    var h := HeadOf(cells, s);
    HeadOfCovers(cells, s);
    assert HeadOk(cells, h);
    assert !Covered(live, s);
    assert h !in live;
    if End(cells, h) < s + num {
      var e := End(cells, h);
      assert HeadOk(cells, e);
      assert e in live && live[e] == cells[e].length;
      assert Covered(live, e);
    }
  }

  // A stretch of uncovered blocks that cannot be extended downwards and is at least num long
  ghost predicate RunStart(live: map<int, int>, s: int, num: int) {
    FreeRun(live, s, num) && (s == 0 || Covered(live, s - 1))
  }

  /** The segments that fit a request are the starts of the maximal free stretches that do. */
  lemma FitIffRunStart(cells: seq<SegmentInfo>, h: int, num: int)
    requires Wf(cells) && 1 <= num
    ensures Fits(cells, h, num) <==> RunStart(Live(cells), h, num)
  {
    var live := Live(cells);
    if Fits(cells, h, num) {
      FitIsFreeRun(cells, h, num);
      if h != 0 {
        BackLink(cells, h);
        var b := cells[h].back;
        assert HeadOk(cells, b);
        assert b in live && b <= h - 1 < b + live[b];
      }
    }
    if RunStart(live, h, num) {
      FreeRunFits(cells, h, num);
      var g := HeadOf(cells, h);
      if h != 0 {
        var b :| b in live && b <= h - 1 < b + live[b];
        assert HeadOk(cells, g);
        if b < g { HeadsApart(cells, b, g); }
        if g < b { HeadsApart(cells, g, b); }
      }
    }
  }

  // ---------------------------------------------------------------- canonical form

  // A segment that starts at the same block in both tables is the same in both.
  lemma SameSegment(c: seq<SegmentInfo>, d: seq<SegmentInfo>, i: int)
    requires Wf(c) && Wf(d) && Live(c) == Live(d) && IsHead(c, i) && IsHead(d, i)
    ensures c[i].occupied == d[i].occupied && c[i].length == d[i].length
  {
    assert i in Live(c) <==> c[i].occupied;
    assert i in Live(d) <==> d[i].occupied;
    if c[i].occupied {
      assert Live(c)[i] == c[i].length && Live(d)[i] == d[i].length;
    } else {
      FreeNotLonger(c, d, i);
      FreeNotLonger(d, c, i);
    }
  }

  /** Canonical form: two tables with the same allocations have the same walk. */
  lemma {:induction false} WalkDeterminedByLive(c: seq<SegmentInfo>, d: seq<SegmentInfo>, i: int)
    requires Wf(c) && Wf(d) && Live(c) == Live(d)
    requires i == BLOCKS_IN_ARENA || (IsHead(c, i) && IsHead(d, i))
    ensures Walk(c, i) == Walk(d, i)
    decreases BLOCKS_IN_ARENA - i
  {
    if i < BLOCKS_IN_ARENA {
      assert HeadOk(c, i) && HeadOk(d, i);
      SameSegment(c, d, i);
      WalkDeterminedByLive(c, d, End(c, i));
    }
  }

  lemma FreeNotLonger(c: seq<SegmentInfo>, d: seq<SegmentInfo>, i: int)
    requires Wf(c) && Wf(d) && Live(c) == Live(d)
    requires IsHead(c, i) && IsHead(d, i) && !c[i].occupied && !d[i].occupied
    ensures End(c, i) >= End(d, i)
  {
    assert HeadOk(c, i) && HeadOk(d, i);
    var e := End(c, i);
    if e < BLOCKS_IN_ARENA {
      assert e in Live(c);
      assert e in Live(d);
    }
  }

  /** An arena without allocations is one free segment of all its blocks. */
  lemma AllFreeWalk(cells: seq<SegmentInfo>)
    requires Wf(cells)
    ensures Live(cells) == map[] <==> !cells[0].occupied && cells[0].length == BLOCKS_IN_ARENA
    ensures Live(cells) == map[] ==> Walk(cells, 0) == [Segment(0, BLOCKS_IN_ARENA, false)]
  {
    assert HeadOk(cells, 0);
    if Live(cells) == map[] {
      assert 0 !in Live(cells);
      var e := End(cells, 0);
      assert e < BLOCKS_IN_ARENA ==> e in Live(cells);
      assert Walk(cells, e) == [];
    }
    if !cells[0].occupied && cells[0].length == BLOCKS_IN_ARENA {
      assert forall h :: h in Live(cells) ==> IsHead(cells, h) && h != 0;
      assert Live(cells).Keys == {};
    }
  }

  // ---------------------------------------------------------------- the three table operations

  function Fresh(): seq<SegmentInfo> {
    seq(BLOCKS_IN_ARENA, _ => UNUSED)[0 := SegmentInfo(BLOCKS_IN_ARENA, 0, false, false)]
  }

  lemma FreshOk()
    ensures Wf(Fresh()) && Live(Fresh()) == map[]
  {
    var cells := Fresh();
    assert forall k :: 1 <= k < |cells| ==> cells[k].interior;
    assert HeadOk(cells, 0);
  }

  /** Hands out the first num blocks of the free segment at block at. */
  function Carved(cells: seq<SegmentInfo>, at: int, num: int): (r: seq<SegmentInfo>)
    requires Wf(cells) && 0 <= num && Fits(cells, at, num)
  {
    assert HeadOk(cells, at);
    var length := cells[at].length;
    var end := at + length;
    var c :=
      if length == num && end < |cells| then
        cells[end := cells[end].(back := at)]
      else if length > num then
        var split := cells[at + num := SegmentInfo(length - num, at, false, false)];
        if end < |cells| then split[end := split[end].(back := at + num)] else split
      else
        cells;
    c[at := c[at].(length := num, occupied := true)]
  }

  // What Carved leaves in every cell.
  ghost predicate CarvedShape(cells: seq<SegmentInfo>, c: seq<SegmentInfo>, at: int, num: int)
    requires Wf(cells) && 1 <= num && Fits(cells, at, num)
  {
    assert HeadOk(cells, at);
    var end := End(cells, at);
    && |c| == |cells|
    && c[at] == SegmentInfo(num, cells[at].back, true, false)
    && (at + num < end ==> c[at + num] == SegmentInfo(end - at - num, at, false, false))
    && (end < |cells| ==> c[end] == cells[end].(back := if at + num < end then at + num else at))
    && (forall k :: 0 <= k < |c| && k != at && k != end && k != at + num ==> c[k] == cells[k])
  }

  lemma CarvedCells(cells: seq<SegmentInfo>, at: int, num: int)
    requires Wf(cells) && 1 <= num && Fits(cells, at, num)
    ensures CarvedShape(cells, Carved(cells, at, num), at, num)
  {
    assert HeadOk(cells, at);
  }

  lemma ShapeWf(cells: seq<SegmentInfo>, c: seq<SegmentInfo>, at: int, num: int)
    requires Wf(cells) && 1 <= num && Fits(cells, at, num) && CarvedShape(cells, c, at, num)
    ensures Wf(c)
  {
    assert HeadOk(cells, at);
    forall h | IsHead(c, h) ensures HeadOk(c, h) {
      if h != at && !(h == at + num && h < End(cells, at)) {
        assert HeadOk(cells, h);
        if h < at { HeadsApart(cells, h, at); } else { HeadsApart(cells, at, h); }
      }
    }
  }

  lemma ShapeLive(cells: seq<SegmentInfo>, c: seq<SegmentInfo>, at: int, num: int)
    requires Wf(cells) && 1 <= num && Fits(cells, at, num) && CarvedShape(cells, c, at, num)
    ensures Live(c) == Live(cells)[at := num]
  {
    assert HeadOk(cells, at);
    var after := Live(cells)[at := num];
    forall k ensures k in Live(c) <==> k in after {
      if 0 <= k < |cells| && k != at && k != at + num && k != End(cells, at) {
        assert c[k] == cells[k];
      }
    }
  }

  lemma CarvedOk(cells: seq<SegmentInfo>, at: int, num: int)
    requires Wf(cells) && 1 <= num && Fits(cells, at, num)
    ensures Wf(Carved(cells, at, num))
    ensures at !in Live(cells)
    ensures Live(Carved(cells, at, num)) == Live(cells)[at := num]
  {
    CarvedCells(cells, at, num);
    ShapeWf(cells, Carved(cells, at, num), at, num);
    ShapeLive(cells, Carved(cells, at, num), at, num);
  }

  /** The table of a new arena once its first num blocks are handed out. */
  function FirstCarved(num: int): (r: seq<SegmentInfo>)
    requires 0 <= num <= BLOCKS_IN_ARENA
  {
    var c := Fresh()[0 := Fresh()[0].(occupied := true, length := num)];
    if num < BLOCKS_IN_ARENA then
      c[num := c[num].(occupied := false, interior := false, back := 0, length := BLOCKS_IN_ARENA - num)]
    else
      c
  }

  /** That is carving a fresh table, except that handing out no block leaves the table fresh. */
  lemma FirstCarvedIs(num: int)
    requires 0 <= num <= BLOCKS_IN_ARENA
    ensures Wf(Fresh()) && Fits(Fresh(), 0, num)
    ensures FirstCarved(num) == if num == 0 then Fresh() else Carved(Fresh(), 0, num)
  {
    FreshOk();
  }

  // Absorbs the segment after pos if it is free.
  function MergeNext(cells: seq<SegmentInfo>, pos: int): (r: seq<SegmentInfo>)
    requires |cells| == BLOCKS_IN_ARENA && 0 <= pos < |cells|
    requires var forward := End(cells, pos);
             pos < forward <= |cells| && (forward < |cells| ==> End(cells, forward) <= |cells|)
  {
    var forward := pos + cells[pos].length;
    if forward < |cells| && !cells[forward].occupied then
      cells[pos := cells[pos].(length := cells[pos].length + cells[forward].length)]
           [forward := cells[forward].(interior := true)]
    else
      cells
  }

  // Joins pos to the segment before it if that is free, or else frees pos itself.
  function MergeBack(cells: seq<SegmentInfo>, pos: int): (r: seq<SegmentInfo>)
    requires |cells| == BLOCKS_IN_ARENA && 0 <= pos < |cells| && pos < End(cells, pos) <= |cells|
    requires var back := cells[pos].back; pos != 0 ==> back < pos && End(cells, back) == pos
  {
    var back := cells[pos].back;
    if pos != 0 && !cells[back].occupied then
      var c := cells[back := cells[back].(length := cells[back].length + cells[pos].length)]
                    [pos := cells[pos].(interior := true)];
      var next := back + c[back].length;
      if next < |c| then c[next := c[next].(back := back)] else c
    else
      var c := cells[pos := cells[pos].(occupied := false)];
      var next := pos + c[pos].length;
      if next < |c| then c[next := c[next].(back := pos)] else c
  }

  lemma Neighbours(cells: seq<SegmentInfo>, pos: int)
    requires Wf(cells) && IsHead(cells, pos)
    ensures pos < End(cells, pos) <= |cells|
    ensures End(cells, pos) < |cells| ==>
              && IsHead(cells, End(cells, pos))
              && End(cells, pos) < End(cells, End(cells, pos)) <= |cells|
    ensures var back := cells[pos].back; pos != 0 ==> back < pos && End(cells, back) == pos
  {
    assert HeadOk(cells, pos);
    if End(cells, pos) < |cells| { assert HeadOk(cells, End(cells, pos)); }
    if pos != 0 { BackLink(cells, pos); }
  }

  /** Returns the allocation at block pos, merging it with a free neighbour on either side. */
  function Released(cells: seq<SegmentInfo>, pos: int): (r: seq<SegmentInfo>)
    requires Wf(cells) && pos in Live(cells)
    ensures |r| == |cells|
  {
    Neighbours(cells, pos);
    MergeBack(MergeNext(cells, pos), pos)
  }

  /** Carving keeps a table well formed exactly when at least one block is asked for: a request
      for none leaves a head of length 0, at which the scan would stand still. */
  lemma CarvedWfIffPositive(cells: seq<SegmentInfo>, at: int, num: int)
    requires Wf(cells) && 0 <= num && Fits(cells, at, num)
    ensures Wf(Carved(cells, at, num)) <==> 1 <= num
    ensures num == 0 ==> IsHead(Carved(cells, at, num), at) && End(Carved(cells, at, num), at) == at
  {
    var c := Carved(cells, at, num);
    assert HeadOk(cells, at);
    if num == 0 {
      assert !HeadOk(c, at);
    } else {
      CarvedOk(cells, at, num);
    }
  }

  // The first and one-past-last block of the free segment that releasing pos creates.
  function MergedFrom(cells: seq<SegmentInfo>, pos: int): int
    requires Wf(cells) && pos in Live(cells)
  {
    if pos != 0 && (BackLink(cells, pos); !cells[cells[pos].back].occupied) then cells[pos].back else pos
  }

  function MergedTo(cells: seq<SegmentInfo>, pos: int): int
    requires Wf(cells) && pos in Live(cells)
  {
    assert HeadOk(cells, pos);
    var forward := End(cells, pos);
    if forward < |cells| && !cells[forward].occupied then End(cells, forward) else forward
  }

  // What Released leaves in every cell.
  ghost predicate ReleasedShape(cells: seq<SegmentInfo>, c: seq<SegmentInfo>, pos: int, f: int, t: int)
    requires Wf(cells) && pos in Live(cells)
  {
    && |c| == |cells| && 0 <= f <= pos < t <= |cells|
    && IsHead(cells, f) && (f < pos ==> !cells[f].occupied)
    && (t < |cells| ==> IsHead(cells, t) && cells[t].occupied)
    && (f == pos && pos != 0 ==> cells[HeadOf(cells, pos - 1)].occupied)
    && IsHead(c, f) && !c[f].occupied && End(c, f) == t && c[f].back == cells[f].back
    && (forall k :: f < k < t ==> c[k].interior)
    && (forall k :: f < k < t && k != pos ==> cells[k].interior || !cells[k].occupied)
    && (t < |cells| ==> c[t] == cells[t].(back := f))
    && (forall k :: 0 <= k < f || t < k < |cells| ==> c[k] == cells[k])
  }

  // What MergeNext leaves in every cell.
  ghost predicate NextShape(cells: seq<SegmentInfo>, c: seq<SegmentInfo>, pos: int, t: int)
    requires Wf(cells) && pos in Live(cells)
  {
    && |c| == |cells| && pos < t <= |cells|
    && c[pos] == cells[pos].(length := t - pos)
    && (t < |cells| ==> IsHead(cells, t) && cells[t].occupied)
    && (forall k :: pos < k < t ==> c[k].interior && (cells[k].interior || !cells[k].occupied))
    && (forall k :: 0 <= k < pos || t <= k < |cells| ==> c[k] == cells[k])
  }

  lemma NextCells(cells: seq<SegmentInfo>, pos: int)
    requires Wf(cells) && pos in Live(cells)
    ensures (Neighbours(cells, pos); NextShape(cells, MergeNext(cells, pos), pos, MergedTo(cells, pos)))
  {
    Neighbours(cells, pos);
    assert HeadOk(cells, pos);
    var forward := End(cells, pos);
    if forward < |cells| {
      assert HeadOk(cells, forward);
    }
  }

  lemma BackCells(cells: seq<SegmentInfo>, c: seq<SegmentInfo>, pos: int, t: int)
    requires Wf(cells) && pos in Live(cells) && NextShape(cells, c, pos, t)
    requires var back := c[pos].back; pos != 0 ==> back < pos && End(c, back) == pos
    ensures ReleasedShape(cells, MergeBack(c, pos), pos, MergedFrom(cells, pos), t)
  {
    if pos != 0 {
      BackLink(cells, pos);
      var back := cells[pos].back;
      assert HeadOk(cells, back);
      assert HeadOf(cells, pos - 1) == back;
    }
  }

  lemma ReleasedCells(cells: seq<SegmentInfo>, pos: int)
    requires Wf(cells) && pos in Live(cells)
    ensures ReleasedShape(cells, Released(cells, pos), pos, MergedFrom(cells, pos), MergedTo(cells, pos))
  {
    Neighbours(cells, pos);
    NextCells(cells, pos);
    BackCells(cells, MergeNext(cells, pos), pos, MergedTo(cells, pos));
  }

  lemma MergedWf(cells: seq<SegmentInfo>, c: seq<SegmentInfo>, pos: int, f: int, t: int)
    requires Wf(cells) && pos in Live(cells) && ReleasedShape(cells, c, pos, f, t)
    ensures Wf(c)
  {
    forall h | IsHead(c, h) ensures HeadOk(c, h) {
      if h < f {
        assert HeadOk(cells, h);
        HeadsApart(cells, h, f);
        if End(cells, h) == f {
          if f < pos { assert HeadOk(cells, f); } else { HeadOfCovers(cells, pos - 1); }
        }
      } else if h >= t {
        assert HeadOk(cells, h);
      }
    }
  }

  lemma MergedLive(cells: seq<SegmentInfo>, c: seq<SegmentInfo>, pos: int, f: int, t: int)
    requires Wf(cells) && pos in Live(cells) && ReleasedShape(cells, c, pos, f, t)
    ensures Live(c) == Live(cells) - {pos}
  {
    var after := Live(cells) - {pos};
    forall k ensures k in Live(c) <==> k in after {
      if 0 <= k < f || t < k < |cells| {
        assert c[k] == cells[k];
      }
    }
  }

  lemma ReleasedOk(cells: seq<SegmentInfo>, pos: int)
    requires Wf(cells) && pos in Live(cells)
    ensures Wf(Released(cells, pos))
    ensures Live(Released(cells, pos)) == Live(cells) - {pos}
  {
    ReleasedCells(cells, pos);
    MergedWf(cells, Released(cells, pos), pos, MergedFrom(cells, pos), MergedTo(cells, pos));
    MergedLive(cells, Released(cells, pos), pos, MergedFrom(cells, pos), MergedTo(cells, pos));
  }

  // ---------------------------------------------------------------- what the operations undo

  /** Two allocations of one arena can be returned in either order. */
  lemma ReleaseCommutes(cells: seq<SegmentInfo>, p: int, q: int)
    requires Wf(cells) && p in Live(cells) && q in Live(cells) && p != q
    ensures Wf(Released(cells, p)) && Wf(Released(cells, q))
    ensures q in Live(Released(cells, p)) && p in Live(Released(cells, q))
    ensures Wf(Released(Released(cells, p), q)) && Wf(Released(Released(cells, q), p))
    ensures Walk(Released(Released(cells, p), q), 0) == Walk(Released(Released(cells, q), p), 0)
  {
    ReleasedOk(cells, p);
    ReleasedOk(cells, q);
    ReleasedOk(Released(cells, p), q);
    ReleasedOk(Released(cells, q), p);
    assert Live(cells) - {p} - {q} == Live(cells) - {q} - {p};
    WalkDeterminedByLive(Released(Released(cells, p), q), Released(Released(cells, q), p), 0);
  }

  /** Returning what was just handed out restores the segments of the arena. */
  lemma ReleaseUndoesCarve(cells: seq<SegmentInfo>, at: int, num: int)
    requires Wf(cells) && 1 <= num && Fits(cells, at, num)
    ensures Wf(Carved(cells, at, num)) && at in Live(Carved(cells, at, num))
    ensures Wf(Released(Carved(cells, at, num), at))
    ensures Walk(Released(Carved(cells, at, num), at), 0) == Walk(cells, 0)
  {
    CarvedOk(cells, at, num);
    ReleasedOk(Carved(cells, at, num), at);
    assert Live(cells)[at := num] - {at} == Live(cells);
    WalkDeterminedByLive(Released(Carved(cells, at, num), at), cells, 0);
  }
}
