/** The whole way of the usage log: from the entries logged, through the server's frames and the
    bytes of the connection, to what the page shows. */
module Replay {
  import opened Wrappers
  import opened Bytes
  import opened Streams
  import opened Frames
  import opened LogText
  import opened LogRecords
  import opened MonitoringServer
  import opened MonitoringRuns
  import opened MonitoringPage
  import opened WebsocketSocket
  import IO = ReadWriteBytes

  const FRESH := Page(false, [], [])

  function Ones(n: nat): (s: seq<Byte>)
    ensures |s| == n
  {
    if n == 0 then [] else [255] + Ones(n - 1)
  }

  // The bytes that write_frame is pointed to.
  function PayloadBytes(p: Payload): seq<Byte> {
    match p
    case Chunk(bytes) => bytes
    case Marker => Ones(24)    // three times the largest 64-bit number
    case Live(rec) => Pack(rec)
  }

  function Messages(ps: seq<Payload>): (r: seq<seq<Byte>>)
    ensures |r| == |ps|
  {
    if ps == [] then [] else [PayloadBytes(ps[0])] + Messages(ps[1..])
  }

  function Points(ps: seq<Payload>): seq<Point> {
    if ps == [] then []
    else (if ps[0].Live? then [Point(ps[0].rec.timestamp, ps[0].rec.txBytes, ps[0].rec.rxBytes)] else []) + Points(ps[1..])
  }

  // ---------------------------------------------------------------- one message

  lemma {:induction false} OnesValue(n: nat)
    ensures FromLittleEndian(Ones(n)) == Range(n) - 1
  {
    if n > 0 {
      OnesValue(n - 1);
    }
  }

  lemma {:induction false} OnesPrefix(n: nat, k: nat)
    requires k <= n
    ensures Ones(n)[..k] == Ones(k)
  {
    if k > 0 {
      OnesPrefix(n - 1, k - 1);
      assert Ones(n)[..k] == [255] + Ones(n - 1)[..k - 1];
    }
  }

  /** The marker makes the page live. */
  lemma MarkerShown(p: Page)
    requires !p.isLive
    ensures OnMessage(p, PayloadBytes(Marker)) == p.(isLive := true)
  {
    OnesPrefix(24, 8);
    OnesValue(8);
    Ranges();
    assert PayloadBytes(Marker)[0..8] == PayloadBytes(Marker)[..8];
  }

  /** No chunk is taken for the marker: its records join the history, newest first. */
  lemma ChunkShown(p: Page, rs: seq<LogRecord>)
    requires !p.isLive
    ensures OnMessage(p, PackAll(rs)) == p.(history := Reverse(Rows(rs)) + p.history)
  {
    RowsOfPacked(rs);
    PackedLength(|rs|);
  }

  // No number of records packs into as many bytes as the marker has.
  lemma PackedLength(n: nat)
    ensures 28 * n % 28 == 0 && 28 * n != 24
  {
  }

  lemma LiveShown(p: Page, r: LogRecord)
    requires p.isLive
    ensures OnMessage(p, Pack(r)) == p.(points := p.points + [Point(r.timestamp, r.txBytes, r.rxBytes)])
  {
    PackedFields(r);
  }

  // ---------------------------------------------------------------- all messages

  lemma {:induction false} OnMessagesSplit(p: Page, a: seq<seq<Byte>>, b: seq<seq<Byte>>)
    ensures OnMessages(p, a + b) == OnMessages(OnMessages(p, a), b)
    decreases |a|
  {
    if a == [] {
      assert a + b == b;
    } else {
      OnMessagesSplit(OnMessage(p, a[0]), a[1..], b);
      assert (a + b)[1..] == a[1..] + b;
    }
  }

  lemma {:induction false} MessagesSplit(a: seq<Payload>, b: seq<Payload>)
    ensures Messages(a + b) == Messages(a) + Messages(b)
  {
    if a == [] {
      assert a + b == b;
    } else {
      MessagesSplit(a[1..], b);
      assert (a + b)[0] == a[0] && (a + b)[1..] == a[1..] + b;
      Assoc([PayloadBytes(a[0])], Messages(a[1..]), Messages(b));
    }
  }

  lemma {:induction false} RowsSplit(a: seq<LogRecord>, b: seq<LogRecord>)
    ensures Rows(a + b) == Rows(a) + Rows(b)
    decreases |b|
  {
    if b == [] {
      assert a + b == a;
    } else {
      var n := |b| - 1;
      assert (a + b)[..|a + b| - 1] == a + b[..n];
      RowsSplit(a, b[..n]);
    }
  }

  lemma {:induction false} ReverseSplit<T>(a: seq<T>, b: seq<T>)
    ensures Reverse(a + b) == Reverse(b) + Reverse(a)
    decreases |b|
  {
    if b == [] {
      assert a + b == a;
    } else {
      var n := |b| - 1;
      assert (a + b)[..|a + b| - 1] == a + b[..n];
      ReverseSplit(a, b[..n]);
    }
  }

  // Chunks are shown as the history of all their records.
  lemma {:induction false} ChunksShown(p: Page, cs: seq<seq<LogRecord>>)
    requires !p.isLive
    ensures OnMessages(p, Messages(ChunksOf(cs))) == p.(history := Reverse(Rows(Flatten(cs))) + p.history)
    decreases |cs|
  {
    if cs == [] {
      assert Messages(ChunksOf(cs)) == [] && Reverse(Rows(Flatten(cs))) + p.history == p.history;
    } else {
      ChunkShown(p, cs[0]);
      var q := p.(history := Reverse(Rows(cs[0])) + p.history);
      ChunksShown(q, cs[1..]);
      assert ChunksOf(cs)[1..] == ChunksOf(cs[1..]);
      RowsSplit(cs[0], Flatten(cs[1..]));
      ReverseSplit(Rows(cs[0]), Rows(Flatten(cs[1..])));
      Assoc(Reverse(Rows(Flatten(cs[1..]))), Reverse(Rows(cs[0])), p.history);
    }
  }

  lemma {:induction false} LivesShown(p: Page, ps: seq<Payload>)
    requires p.isLive && AllLive(ps)
    ensures OnMessages(p, Messages(ps)) == p.(points := p.points + Points(ps))
    decreases |ps|
  {
    if ps == [] {
      assert p.points + [] == p.points;
    } else {
      var q := OnMessage(p, PayloadBytes(ps[0]));
      LiveShown(p, ps[0].rec);
      LivesShown(q, ps[1..]);
      Assoc(p.points, [Point(ps[0].rec.timestamp, ps[0].rec.txBytes, ps[0].rec.rxBytes)], Points(ps[1..]));
    }
  }

  // Everything the server sends for a log file.
  function Sent(read: Reading, text: string, lives: seq<Payload>): seq<Payload> {
    History(read, text) + [Marker] + lives
  }

  /** What a new server has sent wherever any run leads, also one with failures: nothing before the
      replay, some of the history frames during it, and once it is live all of them, the marker and
      live records. */
  lemma SentSoFar(read: Reading, rec0: LogRecord, inputs: seq<Input>)
    requires AnyRun(read, Started(rec0), inputs)
    ensures var y := After(read, Started(rec0), inputs);
            match y.server.currentOp
            case WebsocketLogs => y.server.frames <= History(read, y.text)
            case WebsocketLive => IsSent(read, y.text, y.server.frames)
            case _ => y.server.frames == []
  {
    EveryRun(read, rec0, inputs);
    var y := After(read, Started(rec0), inputs);
    if y.server.currentOp == WebsocketLive {
      SequelIsSent(read, y.text, y.server.frames);
    }
  }

  ghost predicate IsSent(read: Reading, text: string, ps: seq<Payload>) {
    var n := |History(read, text)| + 1;
    n <= |ps| && AllLive(ps[n..]) && ps == Sent(read, text, ps[n..])
  }

  lemma SequelIsSent(read: Reading, text: string, ps: seq<Payload>)
    requires Sequel(History(read, text) + [Marker], ps)
    ensures IsSent(read, text, ps)
  {
    var n := |History(read, text)| + 1;
    assert ps[..n] == History(read, text) + [Marker];
  }

  /** Whatever the log file holds, the page shows exactly the records read from its lines, in order
      with the newest first, and then goes live and shows every live record. */
  lemma AllShown(read: Reading, text: string, lives: seq<Payload>)
    requires AllLive(lives)
    ensures OnMessages(FRESH, Messages(Sent(read, text, lives)))
            == Page(true, Reverse(Rows(RecordsOf(read, text))), Points(lives))
  {
    var cs := Chunks(read, text);
    ChunksOk(read, text);
    ChunksShown(FRESH, cs);
    var p := Page(false, Reverse(Rows(RecordsOf(read, text))), []);
    assert Reverse(Rows(Flatten(cs))) + FRESH.history == p.history;
    MarkerShown(p);
    var q := p.(isLive := true);
    LivesShown(q, lives);
    assert q.points + Points(lives) == Points(lives);
    HistoryThenLive(FRESH, ChunksOf(cs), p, q, lives);
  }

  lemma HistoryThenLive(start: Page, hs: seq<Payload>, p: Page, q: Page, lives: seq<Payload>)
    requires OnMessages(start, Messages(hs)) == p && OnMessage(p, PayloadBytes(Marker)) == q
    ensures OnMessages(start, Messages(hs + [Marker] + lives)) == OnMessages(q, Messages(lives))
  {
    MessagesSplit(hs + [Marker], lives);
    MessagesSplit(hs, [Marker]);
    assert Messages([Marker]) == [PayloadBytes(Marker)];
    OnMessagesSplit(start, Messages(hs) + [PayloadBytes(Marker)], Messages(lives));
    OnMessagesSplit(start, Messages(hs), [PayloadBytes(Marker)]);
    assert OnMessages(p, [PayloadBytes(Marker)]) == q;
  }

  // ---------------------------------------------------------------- the connection

  // The bytes that the socket writes for a list of payloads.
  function Wire(ps: seq<Payload>): seq<Byte> {
    if ps == [] then [] else Written(PayloadBytes(ps[0])) + Wire(ps[1..])
  }

  function FramesOf(ps: seq<Payload>): (r: seq<Frame>)
    ensures |r| == |ps|
  {
    if ps == [] then [] else [BinaryFrame(PayloadBytes(ps[0]))] + FramesOf(ps[1..])
  }

  function PayloadsOf(fs: seq<Frame>): (r: seq<seq<Byte>>) {
    if fs == [] then [] else [fs[0].payload] + PayloadsOf(fs[1..])
  }

  // What the page shows once these bytes have arrived.
  function Shown(bytes: seq<Byte>): Page { OnMessages(FRESH, PayloadsOf(Receive(Parse, bytes).0)) }

  ghost predicate AllShort(ps: seq<Payload>) { forall i :: 0 <= i < |ps| ==> |PayloadBytes(ps[i])| < 0x1_0000_0000 }

  lemma {:induction false} WireIsStream(ps: seq<Payload>)
    requires AllShort(ps)
    ensures Wire(ps) == Stream(FrameBytes, FramesOf(ps)) && AllOk(FramesOf(ps))
  {
    if ps != [] {
      WrittenIsFrame(PayloadBytes(ps[0]));
      WireIsStream(ps[1..]);
    }
  }

  lemma {:induction false} FramesOfPrefix(ps: seq<Payload>, n: nat)
    requires n <= |ps|
    ensures PayloadsOf(FramesOf(ps)[..n]) == Messages(ps[..n])
  {
    if n > 0 {
      FramesOfPrefix(ps[1..], n - 1);
      assert FramesOf(ps)[..n][1..] == FramesOf(ps[1..])[..n - 1] && ps[..n][1..] == ps[1..][..n - 1];
    }
  }

  /** At every moment the page shows exactly the payloads that have arrived whole, however the
      connection cuts the bytes up. */
  lemma ShownSoFar(ps: seq<Payload>, k: nat)
    requires AllShort(ps) && k <= |Wire(ps)|
    ensures Shown(Wire(ps)[..k]) == OnMessages(FRESH, Messages(ps[..Whole(FrameBytes, FramesOf(ps), k)]))
    ensures k == |Wire(ps)| ==> Shown(Wire(ps)[..k]) == OnMessages(FRESH, Messages(ps))
  {
    WireIsStream(ps);
    var fs := FramesOf(ps);
    FramesReceived(fs, k);
    FramesOfPrefix(ps, Whole(FrameBytes, fs, k));
    FramesOfPrefix(ps, |ps|);
    assert fs[..|ps|] == fs && ps[..|ps|] == ps;
  }

  lemma {:induction false} ChunksShort(cs: seq<seq<LogRecord>>)
    requires forall i :: 0 <= i < |cs| ==> |cs[i]| <= 15
    ensures AllShort(ChunksOf(cs))
  {
    if cs != [] {
      ChunksShort(cs[1..]);
    }
  }

  lemma SentShort(read: Reading, text: string, lives: seq<Payload>)
    requires AllLive(lives)
    ensures AllShort(Sent(read, text, lives))
  {
    ChunksOk(read, text);
    ChunksShort(Chunks(read, text));
    forall i | 0 <= i < |lives| ensures |PayloadBytes(lives[i])| < 0x1_0000_0000 {
      assert lives[i] in lives;
    }
  }

  // What the kernel sends of a buffer when it completes the write in these pieces.
  function Transmit(buf: seq<Byte>, rs: seq<nat>): seq<Byte>
    requires IO.Completions(IO.Transfer(0, |buf|), rs)
  {
    IO.RequestsServe(IO.ID_WRITE, IO.Transfer(0, |buf|), rs);
    IO.Sent(buf, IO.Requests(IO.ID_WRITE, IO.Transfer(0, |buf|), rs), rs)
  }

  // The pieces make up the whole frame of the payload.
  predicate Splits(p: Payload, rs: seq<nat>) {
    && IO.Completions(IO.Transfer(0, |Written(PayloadBytes(p))|), rs)
    && IO.Sum(rs) == |Written(PayloadBytes(p))|
  }

  ghost predicate AllSplit(ps: seq<Payload>, splits: seq<seq<nat>>) {
    |splits| == |ps| && forall i :: 0 <= i < |ps| ==> Splits(ps[i], splits[i])
  }

  function Transmitted(ps: seq<Payload>, splits: seq<seq<nat>>): seq<Byte>
    requires AllSplit(ps, splits)
  {
    if ps == [] then []
    else
      assert Splits(ps[0], splits[0]);
      Transmit(Written(PayloadBytes(ps[0])), splits[0]) + Transmitted(ps[1..], splits[1..])
  }

  // However each write is split, the frames go out whole and in order.
  lemma {:induction false} TransmittedIsWire(ps: seq<Payload>, splits: seq<seq<nat>>)
    requires AllSplit(ps, splits)
    ensures Transmitted(ps, splits) == Wire(ps)
  {
    if ps != [] {
      var buf := Written(PayloadBytes(ps[0]));
      assert Splits(ps[0], splits[0]);
      IO.WriteRun(buf, IO.Transfer(0, |buf|), splits[0]);
      assert buf[..IO.Sum(splits[0])] == buf;
      TransmittedIsWire(ps[1..], splits[1..]);
    }
  }

  // However the writes of these payloads are split, a client that has received all of them shows
  // exactly the entries of the log, and then the live records.
  ghost predicate ShowsTheLog(es: seq<LogEntry>, ps: seq<Payload>, lives: seq<Payload>) {
    forall splits :: AllSplit(ps, splits) ==>
      Shown(Transmitted(ps, splits)) == Page(true, Reverse(Rows(RecordsFor(es))), Points(lives))
  }

  /** The whole way of a complete replay, for any reading that gets printed lines right. */
  lemma {:induction false} LogShown(read: Reading, es: seq<LogEntry>, lives: seq<Payload>)
    requires ReadsLog(read) && AllLive(lives)
    ensures ShowsTheLog(es, Sent(read, LogOf(es), lives), lives)
  {
    var ps := Sent(read, LogOf(es), lives);
    SentShort(read, LogOf(es), lives);
    ShownSoFar(ps, |Wire(ps)|);
    assert Wire(ps)[..|Wire(ps)|] == Wire(ps);
    AllShown(read, LogOf(es), lives);
    RecordsOfLog(read, es);
    forall splits | AllSplit(ps, splits)
      ensures Shown(Transmitted(ps, splits)) == Page(true, Reverse(Rows(RecordsFor(es))), Points(lives))
    {
      TransmittedIsWire(ps, splits);
    }
  }

  lemma HistoryLength(read: Reading, es: seq<LogEntry>)
    requires ReadsLog(read)
    ensures |History(read, LogOf(es))| == (|es| + 14) / 15
  {
    RecordsOfLog(read, es);
    ChunkCount(read, LogOf(es));
  }

  /** And the server gets there: for a log of es entries, one call more than a fifteenth of them,
      rounded up, completes, and the page shows exactly those entries and is live. */
  lemma {:induction false} RunShows(read: Reading, es: seq<LogEntry>, x: Session, inputs: seq<Input>)
    requires ReadsLog(read) && Upgrading(read, x) && GoodRun(read, x, inputs) && LogIs(inputs, LogOf(es))
    requires Completed(inputs) > (|es| + 14) / 15
    ensures var n, ps := (|es| + 14) / 15 + 1, After(read, x, inputs).server.frames;
            n <= |ps| && ShowsTheLog(es, ps, ps[n..])
  {
    RunSends(read, x, inputs, LogOf(es));
    HistoryLength(read, es);
    var ps := After(read, x, inputs).server.frames;
    SequelIsSent(read, LogOf(es), ps);
    LogShown(read, es, ps[|History(read, LogOf(es))| + 1..]);
  }

  /** From the entries logged to the page, by the source's own reading of the log. */
  lemma {:induction false} EndToEnd(es: seq<LogEntry>, x: Session, inputs: seq<Input>)
    requires Upgrading(ReadLine, x) && GoodRun(ReadLine, x, inputs) && LogIs(inputs, LogOf(es))
    requires Completed(inputs) > (|es| + 14) / 15
    ensures var n, ps := (|es| + 14) / 15 + 1, After(ReadLine, x, inputs).server.frames;
            n <= |ps| && ShowsTheLog(es, ps, ps[n..])
  {
    ReadLineReads();
    RunShows(ReadLine, es, x, inputs);
  }
}
