/** The packed records that the usage log is replayed in, and their grouping into chunks. */
module LogRecords {
  import opened Wrappers
  import opened Bytes
  import opened LogText

  type Word64 = n: int | 0 <= n < 0x1_0000_0000_0000_0000
  type Word32 = n: int | 0 <= n < 0x1_0000_0000

  datatype LogRecord = LogRecord(timestamp: Word64, txBytes: Word64, rxBytes: Word64, hour: Word32)

  // The casts to uint64_t and uint32_t.
  function RecordOf(e: LogEntry): LogRecord {
    LogRecord(e.ts % 0x1_0000_0000_0000_0000, e.tx % 0x1_0000_0000_0000_0000, e.rx % 0x1_0000_0000_0000_0000,
              e.h % 0x1_0000_0000)
  }

  // ---------------------------------------------------------------- bytes

  // The memory of a packed record on a little-endian machine.
  function Pack(r: LogRecord): (s: seq<Byte>)
    ensures |s| == 28
  {
    LittleEndian(r.timestamp, 8) + LittleEndian(r.txBytes, 8) + LittleEndian(r.rxBytes, 8) + LittleEndian(r.hour, 4)
  }

  lemma Pieces<T>(a: seq<T>, b: seq<T>, c: seq<T>, d: seq<T>)
    requires |a| == |b| == |c| == 8 && |d| == 4
    ensures (a + b + c + d)[0..8] == a && (a + b + c + d)[8..16] == b
    ensures (a + b + c + d)[16..24] == c && (a + b + c + d)[24..28] == d
  {
  }

  /** Each field reads back from its place in the packed record. */
  lemma PackedFields(r: LogRecord)
    ensures FromLittleEndian(Pack(r)[0..8]) == r.timestamp
    ensures FromLittleEndian(Pack(r)[8..16]) == r.txBytes
    ensures FromLittleEndian(Pack(r)[16..24]) == r.rxBytes
    ensures FromLittleEndian(Pack(r)[24..28]) == r.hour
  {
    Ranges();
    Pieces(LittleEndian(r.timestamp, 8), LittleEndian(r.txBytes, 8), LittleEndian(r.rxBytes, 8), LittleEndian(r.hour, 4));
    Fits(r.timestamp, 8);
    Fits(r.txBytes, 8);
    Fits(r.rxBytes, 8);
    Fits(r.hour, 4);
  }

  function PackAll(rs: seq<LogRecord>): (s: seq<Byte>)
    ensures |s| == 28 * |rs|
  {
    if rs == [] then [] else PackAll(rs[..|rs| - 1]) + Pack(rs[|rs| - 1])
  }

  // ---------------------------------------------------------------- the log as records

  // What one line of a text contributes, and the text after it; nothing at the end of the text.
  // Most of what follows holds of any such reading.
  type Reading = string -> Option<(Option<LogRecord>, string)>

  function LineRecord(line: string): Option<LogRecord> {
    var e :- ScanLine(line);
    Some(RecordOf(e))
  }

  function ReadLine(text: string): Option<(Option<LogRecord>, string)> {
    var (line, rest) :- GetLine(text);
    Some((LineRecord(line), rest))
  }

  /** The records of a log text: those of the lines that scan, in order. */
  function RecordsOf(read: Reading, text: string): seq<LogRecord>
    decreases |text|
  {
    match read(text)
    case None => []
    case Some((r, rest)) =>
      if |rest| >= |text| then []
      else (if r.Some? then [r.value] else []) + RecordsOf(read, rest)
  }

  function RecordsFor(es: seq<LogEntry>): (rs: seq<LogRecord>)
    ensures |rs| == |es|
  {
    if es == [] then [] else [RecordOf(es[0])] + RecordsFor(es[1..])
  }

  lemma ReadLineOf(e: LogEntry, rest: string)
    ensures ReadLine(Line(e) + "\n" + rest) == Some((Some(RecordOf(e)), rest))
  {
    LineOneLine(e);
    GetLineOf(Line(e), rest);
    ScanLineOf(e);
  }

  // The reading gets every printed line right.
  ghost predicate ReadsLog(read: Reading) {
    forall e, rest :: read(Line(e) + "\n" + rest) == Some((Some(RecordOf(e)), rest))
  }

  /** getline and sscanf get every line right that log_entry prints. */
  lemma ReadLineReads()
    ensures ReadsLog(ReadLine)
  {
    forall e, rest ensures ReadLine(Line(e) + "\n" + rest) == Some((Some(RecordOf(e)), rest)) {
      ReadLineOf(e, rest);
    }
  }

  lemma RecordsStep(read: Reading, text: string, r: LogRecord, rest: string)
    requires read(text) == Some((Some(r), rest)) && |rest| < |text|
    ensures RecordsOf(read, text) == [r] + RecordsOf(read, rest)
  {
  }

  /** A log that log_entry wrote holds one record for each entry, in order. */
  lemma {:induction false} RecordsOfLog(read: Reading, es: seq<LogEntry>)
    requires ReadsLog(read)
    ensures RecordsOf(read, LogOf(es)) == RecordsFor(es)
  {
    if es != [] {
      RecordsStep(read, LogOf(es), RecordOf(es[0]), LogOf(es[1..]));
      RecordsOfLog(read, es[1..]);
    }
  }

  // ---------------------------------------------------------------- chunks

  // Up to n records off the front of a text, and the text left.
  function Take(read: Reading, text: string, n: nat): (r: (seq<LogRecord>, string))
    ensures |r.0| <= n && |r.1| <= |text| && (r.0 != [] ==> |r.1| < |text|)
    decreases |text|
  {
    if n == 0 then ([], text)
    else
      match read(text)
      case None => ([], text)
      case Some((r, rest)) =>
        if |rest| >= |text| then ([], text)
        else if r.None? then Take(read, rest, n)
        else var (rs, left) := Take(read, rest, n - 1); ([r.value] + rs, left)
  }

  lemma {:induction false} TakeOk(read: Reading, text: string, n: nat)
    ensures Take(read, text, n).0 + RecordsOf(read, Take(read, text, n).1) == RecordsOf(read, text)
    ensures |Take(read, text, n).0| < n ==> RecordsOf(read, Take(read, text, n).1) == []
    decreases |text|
  {
    if n > 0 && read(text).Some? {
      var (r, rest) := read(text).value;
      if |rest| < |text| {
        if r.None? {
          TakeOk(read, rest, n);
        } else {
          TakeOk(read, rest, n - 1);
          var (rs, left) := Take(read, rest, n - 1);
          assert ([r.value] + rs) + RecordsOf(read, left) == [r.value] + (rs + RecordsOf(read, left));
        }
      }
    }
  }

  /** The chunks that a log is sent in. */
  function Chunks(read: Reading, text: string): seq<seq<LogRecord>>
    decreases |text|
  {
    var (rs, rest) := Take(read, text, 15);
    if rs == [] then [] else [rs] + Chunks(read, rest)
  }

  function Flatten(cs: seq<seq<LogRecord>>): seq<LogRecord> {
    if cs == [] then [] else cs[0] + Flatten(cs[1..])
  }

  /** The chunks hold exactly the records of the log, in order. None is empty, all but the last
      are full, and the last is not overfull. */
  lemma {:induction false} ChunksOk(read: Reading, text: string)
    ensures Flatten(Chunks(read, text)) == RecordsOf(read, text)
    ensures forall i :: 0 <= i < |Chunks(read, text)| ==> 1 <= |Chunks(read, text)[i]| <= 15
    ensures forall i :: 0 <= i < |Chunks(read, text)| - 1 ==> |Chunks(read, text)[i]| == 15
    decreases |text|
  {
    TakeOk(read, text, 15);
    var (rs, rest) := Take(read, text, 15);
    if rs != [] {
      ChunksOk(read, rest);
      var cs := Chunks(read, text);
      assert cs[0] == rs && cs[1..] == Chunks(read, rest);
      if |rs| < 15 {
        NoChunks(read, rest);
      }
    }
  }

  lemma NoChunks(read: Reading, text: string)
    requires RecordsOf(read, text) == []
    ensures Chunks(read, text) == []
  {
    TakeOk(read, text, 15);
  }

  /** As many chunks as it takes to hold the records, 15 to a chunk. */
  lemma {:induction false} ChunkCount(read: Reading, text: string)
    ensures |Chunks(read, text)| == (|RecordsOf(read, text)| + 14) / 15
    decreases |text|
  {
    TakeOk(read, text, 15);
    var (rs, rest) := Take(read, text, 15);
    if rs == [] {
      NoRecords(read, text);
    } else {
      ChunkCount(read, rest);
      assert |RecordsOf(read, text)| == |rs| + |RecordsOf(read, rest)|;
    }
  }

  lemma NoRecords(read: Reading, text: string)
    requires Take(read, text, 15).0 == []
    ensures RecordsOf(read, text) == []
  {
    TakeOk(read, text, 15);
    assert [] + RecordsOf(read, Take(read, text, 15).1) == RecordsOf(read, Take(read, text, 15).1);
  }
}
