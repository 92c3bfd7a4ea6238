/** Identifiers drawn in blocks of 1000 from one shared atomic counter. Every thread, and the
    handler that starts root events, holds a cursor into the block it fetched last. */
module Ids {

  const BLOCK := 1000

  datatype Cursor = Cursor(init: bool, base: nat, curr: nat)

  const UNSET := Cursor(false, 0, 0)

  // One counter, the cursors of those who draw from it, and every id handed out, in order.
  datatype Source = Source(block: nat, cursors: map<nat, Cursor>, issued: seq<nat>)

  predicate Exhausted(c: Cursor) { !c.init || c.curr == c.base + BLOCK }

  // The two moves a drawer makes: the atomic fetch of a block, and the local issue of an id.
  datatype Move = Fetch(drawer: nat) | Issue(drawer: nat)

  predicate Enabled(s: Source, m: Move) {
    && m.drawer in s.cursors
    && match m { case Fetch(k) => Exhausted(s.cursors[k]) case Issue(k) => !Exhausted(s.cursors[k]) }
  }

  function Apply(s: Source, m: Move): Source
    requires Enabled(s, m)
  {
    match m
    case Fetch(k) =>
      s.(block := s.block + 1, cursors := s.cursors[k := Cursor(true, BLOCK * s.block, BLOCK * s.block)])
    case Issue(k) =>
      var c := s.cursors[k];
      s.(cursors := s.cursors[k := c.(curr := c.curr + 1)], issued := s.issued + [c.curr])
  }

  /** get_proc_id, get_obj_id or get_tim_id by one drawer, undisturbed. */
  function Draw(s: Source, k: nat): (r: (Source, nat))
    requires k in s.cursors
  {
    var fetched := if Exhausted(s.cursors[k]) then Apply(s, Fetch(k)) else s;
    var c := fetched.cursors[k];
    (fetched.(cursors := fetched.cursors[k := c.(curr := c.curr + 1)], issued := fetched.issued + [c.curr]), c.curr)
  }

  ghost predicate CursorOk(s: Source, c: Cursor) {
    c.init ==>
      && c.base % BLOCK == 0 && c.base < BLOCK * s.block
      && c.base <= c.curr <= c.base + BLOCK
      && (forall id :: id in s.issued ==> !(c.curr <= id < c.base + BLOCK))
  }

  ghost predicate SourceOk(s: Source) {
    && (forall i, j :: 0 <= i < j < |s.issued| ==> s.issued[i] != s.issued[j])
    && (forall id :: id in s.issued ==> id < BLOCK * s.block)
    && (forall k :: k in s.cursors ==> CursorOk(s, s.cursors[k]))
    && (forall k, l :: k in s.cursors && l in s.cursors && k != l && s.cursors[k].init && s.cursors[l].init ==>
          s.cursors[k].base != s.cursors[l].base)
  }

  function Start(drawers: set<nat>): Source {
    Source(0, map k | k in drawers :: UNSET, [])
  }

  lemma StartOk(drawers: set<nat>)
    ensures SourceOk(Start(drawers))
  {
  }

  // Blocks of different cursors do not overlap.
  lemma BlocksApart(x: nat, y: nat)
    requires x % BLOCK == 0 && y % BLOCK == 0 && x != y
    ensures x + BLOCK <= y || y + BLOCK <= x
  {
  }

  lemma IssueOk(s: Source, k: nat)
    requires SourceOk(s) && Enabled(s, Issue(k))
    ensures SourceOk(Apply(s, Issue(k)))
    ensures s.cursors[k].curr !in s.issued
  {
    var t := Apply(s, Issue(k));
    var c := s.cursors[k];
    assert CursorOk(s, c);
    assert c.curr !in s.issued;
    forall i, j | 0 <= i < j < |t.issued| ensures t.issued[i] != t.issued[j] {
      assert s.issued[i] in s.issued;
    }
    forall l | l in t.cursors ensures CursorOk(t, t.cursors[l]) {
      assert CursorOk(s, s.cursors[l]);
      if l != k && s.cursors[l].init {
        BlocksApart(s.cursors[l].base, c.base);
      }
    }
  }

  lemma FetchOk(s: Source, k: nat)
    requires SourceOk(s) && Enabled(s, Fetch(k))
    ensures SourceOk(Apply(s, Fetch(k)))
  {
    var t := Apply(s, Fetch(k));
    forall l | l in t.cursors ensures CursorOk(t, t.cursors[l]) {
      if l != k {
        assert CursorOk(s, s.cursors[l]);
      }
    }
  }

  /** A draw never returns an id that was returned before, to anyone. */
  lemma DrawFresh(s: Source, k: nat)
    requires SourceOk(s) && k in s.cursors
    ensures var (t, id) := Draw(s, k);
            && SourceOk(t) && t.cursors.Keys == s.cursors.Keys
            && id !in s.issued && t.issued == s.issued + [id]
  {
    var fetched := if Exhausted(s.cursors[k]) then Apply(s, Fetch(k)) else s;
    if Exhausted(s.cursors[k]) {
      FetchOk(s, k);
    }
    IssueOk(fetched, k);
    assert Draw(s, k) == (Apply(fetched, Issue(k)), fetched.cursors[k].curr);
  }

  /** A drawer uses up its block before it fetches another: the id it draws next is the one after
      its last, and after the last of a block it is the first of a block that nobody had. */
  lemma NextDraw(s: Source, k: nat)
    requires SourceOk(s) && k in s.cursors
    ensures var (t, a) := Draw(s, k);
            && (Draw(t, k).1 == if a % 1000 < 999 then a + 1 else 1000 * t.block)
            && (!s.cursors[k].init ==> a == 1000 * s.block)
  {
    var (t, a) := Draw(s, k);
    var c := t.cursors[k];
    assert CursorOk(s, s.cursors[k]);
    assert c.base <= a < c.base + BLOCK && c.curr == a + 1 && c.base % BLOCK == 0;
    InBlock(a, c.base);
  }

  lemma InBlock(a: nat, base: nat)
    requires base <= a < base + BLOCK && base % BLOCK == 0
    ensures a % BLOCK == a - base
  {
  }

  // The states that a sequence of moves, interleaved in any way, passes through.
  ghost predicate Interleaves(s: Source, moves: seq<Move>, t: Source)
    decreases |moves|
  {
    if moves == [] then s == t
    else Enabled(s, moves[0]) && Interleaves(Apply(s, moves[0]), moves[1..], t)
  }

  /** Under any interleaving of the drawers' fetches and issues no id is issued twice. */
  lemma {:induction false} NeverTwice(s: Source, moves: seq<Move>, t: Source)
    requires SourceOk(s) && Interleaves(s, moves, t)
    ensures SourceOk(t)
    ensures forall i, j :: 0 <= i < j < |t.issued| ==> t.issued[i] != t.issued[j]
    decreases |moves|
  {
    if moves != [] {
      match moves[0] {
        case Fetch(k) => FetchOk(s, k);
        case Issue(k) => IssueOk(s, k);
      }
      NeverTwice(Apply(s, moves[0]), moves[1..], t);
    }
  }

  // ---------------------------------------------------------------- the 64-bit width

  const WORD := 0x1_0000_0000_0000_0000
  const NONE := 0xFFFF_FFFF_FFFF_FFFF  // the id that stands for nobody

  // Id o of block b as 64-bit arithmetic computes it.
  function WordId(b: nat, o: nat): nat { (BLOCK * b % WORD + o) % WORD }

  const LAST_BLOCK := 18446744073709550  // the last block whose ids all fit 64 bits

  /** The 64-bit ids of a block agree with the unbounded ones, and none of them is the id that
      stands for nobody, exactly up to block 18446744073709550. */
  lemma BlockFitsIff(b: nat)
    ensures (forall o :: 0 <= o < BLOCK ==> WordId(b, o) == BLOCK * b + o && WordId(b, o) != NONE)
            <==> b <= LAST_BLOCK
  {
    if b <= LAST_BLOCK {
      assert BLOCK * b % WORD == BLOCK * b;
      assert BLOCK * b + BLOCK - 1 < NONE;
    } else {
      assert WordId(b, BLOCK - 1) < WORD <= BLOCK * b + BLOCK - 1;
    }
  }
}
