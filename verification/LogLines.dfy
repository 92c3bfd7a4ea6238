/** The records of any log text, line by line, and the fields that they keep. */
module LogLines {
  import opened Wrappers
  import opened LogText
  import opened LogRecords
  import opened MonitoringPage

  // ---------------------------------------------------------------- lines

  /** getline returns the text up to the first line break and what follows it, or all that is left. */
  lemma GetLineIff(text: string, l: string, r: string)
    ensures GetLine(text) == Some((l, r)) <==>
            text != "" && OneLine(l) && (text == l + ("\n" + r) || (text == l && r == ""))
  {
    if text != "" {
      LineEndMaximal(text);
      var k := LineEnd(text);
      assert text == text[..k] + text[k..];
      if k < |text| {
        assert text[k..] == "\n" + text[k + 1..];
      }
      if OneLine(l) && text == l + ("\n" + r) {
        Assoc(l, "\n", r);
        GetLineOf(l, r);
      }
      if OneLine(l) && text == l {
        NoLineEnd(l);
        assert text[..|text|] == text;
      }
    }
  }

  lemma {:induction false} LineEndMaximal(text: string)
    ensures OneLine(text[..LineEnd(text)]) && (LineEnd(text) < |text| ==> text[LineEnd(text)] == '\n')
  {
    if text != [] && text[0] != '\n' {
      LineEndMaximal(text[1..]);
      assert text[..LineEnd(text)] == [text[0]] + text[1..][..LineEnd(text[1..])];
    }
  }

  lemma {:induction false} NoLineEnd(text: string)
    requires OneLine(text)
    ensures LineEnd(text) == |text|
  {
    if text != [] {
      NoLineEnd(text[1..]);
    }
  }

  // Lines, each with its break.
  function Joined(ls: seq<string>): string { if ls == [] then "" else ls[0] + ("\n" + Joined(ls[1..])) }

  ghost predicate AllOneLine(ls: seq<string>) { forall i :: 0 <= i < |ls| ==> OneLine(ls[i]) }

  // The records of the lines that scan.
  function Scanned(ls: seq<string>): seq<LogRecord> {
    if ls == [] then []
    else (match ScanLine(ls[0]) case Some(e) => [RecordOf(e)] case None => []) + Scanned(ls[1..])
  }

  /** A log text holds the records of its lines that scan, in order; lines that do not are skipped,
      and the last one may lack its break. */
  lemma {:induction false} RecordsOfLines(ls: seq<string>, tail: string)
    requires AllOneLine(ls) && OneLine(tail)
    ensures RecordsOf(ReadLine, Joined(ls) + tail) == Scanned(ls + if tail == "" then [] else [tail])
    decreases |ls|
  {
    if ls == [] {
      assert Joined(ls) + tail == tail;
      LastLine(tail);
    } else {
      var rest := Joined(ls[1..]) + tail;
      FirstLine(ls[0], Joined(ls[1..]), tail);
      RecordsOfLines(ls[1..], tail);
      var last := if tail == "" then [] else [tail];
      assert (ls + last)[1..] == ls[1..] + last;
    }
  }

  lemma FirstLine(l: string, more: string, tail: string)
    requires OneLine(l)
    ensures RecordsOf(ReadLine, (l + ("\n" + more)) + tail) ==
            (match ScanLine(l) case Some(e) => [RecordOf(e)] case None => []) + RecordsOf(ReadLine, more + tail)
  {
    assert (l + ("\n" + more)) + tail == l + ("\n" + (more + tail));
    GetLineIff(l + ("\n" + (more + tail)), l, more + tail);
  }

  lemma LastLine(tail: string)
    requires OneLine(tail)
    ensures RecordsOf(ReadLine, tail) == Scanned(if tail == "" then [] else [tail])
  {
    if tail != "" {
      GetLineIff(tail, tail, "");
      assert [tail][1..] == [];
      assert RecordsOf(ReadLine, "") == [];
    }
  }

  lemma SplitLine(text: string) returns (l: string, rest: string)
    requires LineEnd(text) < |text|
    ensures text == l + ("\n" + rest) && OneLine(l) && |rest| < |text|
  {
    LineEndMaximal(text);
    l, rest := text[..LineEnd(text)], text[LineEnd(text) + 1..];
  }

  lemma ConsLine(l: string, more: seq<string>, tail: string)
    ensures Joined([l] + more) + tail == l + ("\n" + (Joined(more) + tail))
  {
    assert ([l] + more)[1..] == more;
    assert Joined([l] + more) == l + ("\n" + Joined(more));
  }

  /** Every text consists of lines like that. */
  lemma {:induction false} TextHasLines(text: string) returns (ls: seq<string>, tail: string)
    ensures AllOneLine(ls) && OneLine(tail) && text == Joined(ls) + tail
    decreases |text|
  {
    if LineEnd(text) == |text| {
      LineEndMaximal(text);
      assert text[..|text|] == text;
      ls, tail := [], text;
    } else {
      var l, rest := SplitLine(text);
      var more;
      more, tail := TextHasLines(rest);
      ls := [l] + more;
      ConsLine(l, more, tail);
    }
  }

  // ---------------------------------------------------------------- fields

  // The entry's fields are within the types that log_entry is given.
  predicate InRange(e: LogEntry) {
    && -0x8000_0000_0000_0000 <= e.ts < 0x8000_0000_0000_0000 && -0x8000_0000 <= e.h < 0x8000_0000
    && 0 <= e.tx < 0x1_0000_0000_0000_0000 && 0 <= e.rx < 0x1_0000_0000_0000_0000
  }

  // A number as an unsigned one of a width: a negative one wraps around.
  function Unsigned(v: int, bits: nat): int
    requires bits in {32, 64}
  {
    if v >= 0 then v else if bits == 64 then v + 0x1_0000_0000_0000_0000 else v + 0x1_0000_0000
  }

  /** A record keeps time, sent and received bytes and hour of its entry, each in its own field. */
  lemma RecordKeeps(e: LogEntry)
    requires InRange(e)
    ensures var r := RecordOf(e);
            r.timestamp == Unsigned(e.ts, 64) && r.txBytes == e.tx && r.rxBytes == e.rx && r.hour == Unsigned(e.h, 32)
  {
  }

  /** And the page shows each under its own heading, in the history as in the live view. */
  lemma EntryShown(e: LogEntry)
    requires InRange(e)
    ensures RowsIn(Pack(RecordOf(e))) == [Row(Unsigned(e.ts, 64), e.tx, e.rx, Unsigned(e.h, 32))]
    ensures OnMessage(Page(true, [], []), Pack(RecordOf(e))).points == [Point(Unsigned(e.ts, 64), e.tx, e.rx)]
  {
    RecordKeeps(e);
    var p := Pack(RecordOf(e));
    PackedFields(RecordOf(e));
    assert RowsIn(p[..0]) == [] && p[..|p| - 28] == p[..0];
  }
}
