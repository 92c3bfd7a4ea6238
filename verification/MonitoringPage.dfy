/** The browser's end of the bandwidth monitor: what each binary message does to the page. */
module MonitoringPage {
  import opened Bytes
  import opened LogRecords

  datatype Row = Row(ts: nat, tx: nat, rx: nat, hour: nat)
  datatype Point = Point(ts: nat, tx: nat, rx: nat)

  // Newest history row first; live points oldest first.
  datatype Page = Page(isLive: bool, history: seq<Row>, points: seq<Point>)

  function GetBigUint64(data: seq<Byte>, offset: nat): nat
    requires offset + 8 <= |data|
  {
    FromLittleEndian(data[offset..offset + 8])
  }

  function GetUint32(data: seq<Byte>, offset: nat): nat
    requires offset + 4 <= |data|
  {
    FromLittleEndian(data[offset..offset + 4])
  }

  function RowAt(data: seq<Byte>, offset: nat): Row
    requires offset + 28 <= |data|
  {
    Row(GetBigUint64(data, offset), GetBigUint64(data, offset + 8), GetBigUint64(data, offset + 16),
        GetUint32(data, offset + 24))
  }

  // The rows of a message, in its order.
  function RowsIn(data: seq<Byte>): seq<Row> {
    if |data| < 28 then [] else RowsIn(data[..|data| - 28]) + [RowAt(data, |data| - 28)]
  }

  function Reverse<T>(s: seq<T>): (r: seq<T>)
    ensures |r| == |s|
  {
    if s == [] then [] else [s[|s| - 1]] + Reverse(s[..|s| - 1])
  }

  predicate IsMarker(data: seq<Byte>) { |data| == 24 && GetBigUint64(data, 0) == 0xFFFF_FFFF_FFFF_FFFF }

  /** The effect of one message. */
  function OnMessage(p: Page, data: seq<Byte>): Page {
    if !p.isLive then
      if IsMarker(data) then p.(isLive := true)
      else if |data| % 28 == 0 then p.(history := Reverse(RowsIn(data)) + p.history)
      else p
    else if |data| == 28 then
      p.(points := p.points + [Point(GetBigUint64(data, 0), GetBigUint64(data, 8), GetBigUint64(data, 16))])
    else p
  }

  function OnMessages(p: Page, ds: seq<seq<Byte>>): Page
    decreases |ds|
  {
    if ds == [] then p else OnMessages(OnMessage(p, ds[0]), ds[1..])
  }

  class MonitoringPage {
    var isLive: bool
    var history: seq<Row>
    var points: seq<Point>

    ghost function View(): Page
      reads this
    {
      Page(isLive, history, points)
    }

    // A fresh connection.
    constructor ()
      ensures View() == Page(false, [], [])
    {
      isLive, history, points := false, [], [];
    }

    method AddHistoryRow(row: Row)
      modifies `history
      ensures history == [row] + old(history)
    {
      history := [row] + history;
    }

    // The rows of n packed records, one after another.
    method ReceiveHistory(data: seq<Byte>, ghost n: nat)
      requires |data| == 28 * n
      modifies `history
      ensures history == Reverse(RowsIn(data[..28 * n])) + old(history)
    {
      var offset := 0;
      ghost var k, rows := 0, Reverse(RowsIn(data[..0]));
      while offset < |data|
        invariant offset == 28 * k && k <= n
        invariant rows == Reverse(RowsIn(data[..offset])) && history == rows + old(history)
      {
        AddHistoryRow(RowAt(data, offset));
        NextRow(data, offset);
        rows := [RowAt(data, offset)] + rows;
        offset, k := offset + 28, k + 1;
      }
    }

    method Receive(data: seq<Byte>)
      modifies this
      ensures View() == OnMessage(old(View()), data)
    {
      if !isLive {
        if |data| == 24 {
          var v1 := GetBigUint64(data, 0);
          if v1 == 0xFFFF_FFFF_FFFF_FFFF {
            isLive := true;
            return;
          }
        }
        if |data| % 28 == 0 {
          ReceiveHistory(data, |data| / 28);
          assert data[..28 * (|data| / 28)] == data;
        }
      } else if |data| == 28 {
        points := points + [Point(GetBigUint64(data, 0), GetBigUint64(data, 8), GetBigUint64(data, 16))];
      }
    }
  }

  lemma NextRow(data: seq<Byte>, offset: nat)
    requires offset + 28 <= |data|
    ensures RowsIn(data[..offset + 28]) == RowsIn(data[..offset]) + [RowAt(data, offset)]
    ensures Reverse(RowsIn(data[..offset + 28])) == [RowAt(data, offset)] + Reverse(RowsIn(data[..offset]))
  {
    var d := data[..offset + 28];
    assert d[..|d| - 28] == data[..offset];
    assert d[offset..offset + 8] == data[offset..offset + 8];
    assert d[offset + 8..offset + 16] == data[offset + 8..offset + 16];
    assert d[offset + 16..offset + 24] == data[offset + 16..offset + 24];
    assert d[offset + 24..offset + 28] == data[offset + 24..offset + 28];
    var rs := RowsIn(data[..offset]);
    assert (rs + [RowAt(data, offset)])[..|rs|] == rs;
  }

  // ---------------------------------------------------------------- packed records

  function RowOf(r: LogRecord): Row { Row(r.timestamp, r.txBytes, r.rxBytes, r.hour) }

  function Rows(rs: seq<LogRecord>): (r: seq<Row>)
    ensures |r| == |rs|
  {
    if rs == [] then [] else Rows(rs[..|rs| - 1]) + [RowOf(rs[|rs| - 1])]
  }

  /** The page reads back the records that were packed. */
  lemma {:induction false} RowsOfPacked(rs: seq<LogRecord>)
    ensures RowsIn(PackAll(rs)) == Rows(rs)
  {
    if rs != [] {
      var init, last := rs[..|rs| - 1], rs[|rs| - 1];
      RowsOfPacked(init);
      RowOfPacked(PackAll(init), last);
      assert PackAll(rs)[..|PackAll(rs)| - 28] == PackAll(init);
    }
  }

  lemma RowOfPacked(before: seq<Byte>, r: LogRecord)
    ensures RowAt(before + Pack(r), |before|) == RowOf(r)
  {
    PackedFields(r);
    var n, p := |before|, Pack(r);
    Window(before, p, 0, 8);
    Window(before, p, 8, 16);
    Window(before, p, 16, 24);
    Window(before, p, 24, 28);
  }

  lemma Window<T>(a: seq<T>, b: seq<T>, i: nat, j: nat)
    requires i <= j <= |b|
    ensures (a + b)[|a| + i..|a| + j] == b[i..j]
  {
  }

  // ---------------------------------------------------------------- what a message is taken for

  lemma {:induction false} AllOnes(s: seq<Byte>)
    ensures FromLittleEndian(s) < Range(|s|)
    ensures FromLittleEndian(s) == Range(|s|) - 1 <==> forall k :: 0 <= k < |s| ==> s[k] == 255
  {
    if s != [] {
      AllOnes(s[1..]);
      assert forall k :: 0 < k < |s| ==> s[k] == s[1..][k - 1];
      assert (forall k :: 0 <= k < |s| ==> s[k] == 255) <==>
             s[0] == 255 && forall k :: 0 <= k < |s[1..]| ==> s[1..][k] == 255;
    }
  }

  /** A message makes the page live if and only if it has 24 bytes and the first eight are all ones;
      a page once live stays so. */
  lemma LiveIff(p: Page, data: seq<Byte>)
    ensures OnMessage(p, data).isLive <==> p.isLive || (|data| == 24 && forall k :: 0 <= k < 8 ==> data[k] == 255)
  {
    Ranges();
    if |data| == 24 {
      AllOnes(data[0..8]);
      assert forall k :: 0 <= k < 8 ==> data[0..8][k] == data[k];
    }
  }

  /** A message is ignored if and only if it is not for the page's stage: before the marker, one that
      is neither the marker nor records and something; after it, one that is not a single record. */
  lemma IgnoredIff(p: Page, data: seq<Byte>)
    ensures OnMessage(p, data) == p <==>
            if p.isLive then |data| != 28 else !OnMessage(p, data).isLive && (|data| % 28 != 0 || data == [])
  {
    if !p.isLive && |data| % 28 == 0 {
      RowsCount(data, |data| / 28);
      assert OnMessage(p, data).history == Reverse(RowsIn(data)) + p.history;
    }
  }

  // As many rows as records.
  lemma {:induction false} RowsCount(data: seq<Byte>, n: nat)
    requires |data| == 28 * n
    ensures |RowsIn(data)| == n
  {
    if n > 0 {
      RowsCount(data[..|data| - 28], n - 1);
    }
  }
}
