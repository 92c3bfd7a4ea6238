/** The text of the usage log: how an entry is printed, and how a line is scanned back. */
module LogText {
  import opened Wrappers

  datatype LogEntry = LogEntry(ts: int, d: int, m: int, y: int, h: int, tx: int, rx: int)

  // ---------------------------------------------------------------- printing

  predicate IsDigit(c: char) { '0' <= c <= '9' }

  function Digit(n: nat): (c: char)
    requires n < 10
    ensures IsDigit(c) && Value(c) == n
  {
    '0' + n as char
  }

  function Value(c: char): int { c as int - '0' as int }

  function Digits(n: nat): (s: string)
    ensures s != []
  {
    if n < 10 then [Digit(n)] else Digits(n / 10) + [Digit(n % 10)]
  }

  // An integer as a stream prints it.
  function Decimal(n: int): string {
    if n < 0 then "-" + Digits(-n) else Digits(n)
  }

  // setw(2) << setfill('0') << n
  function Padded(n: int): string {
    var s := Decimal(n);
    if |s| < 2 then "0" + s else s
  }

  function Stamp(e: LogEntry): string { "[" + Decimal(e.ts) + "] " }

  function Date(e: LogEntry): string { Padded(e.d) + "/" + Padded(e.m) + "/" + Decimal(e.y) }

  function Usage(e: LogEntry): string { " " + Decimal(e.h) + " " + Decimal(e.tx) + " " + Decimal(e.rx) }

  // The line of an entry, without its line break.
  function Line(e: LogEntry): string { Stamp(e) + Date(e) + Usage(e) }

  function LogOf(es: seq<LogEntry>): string {
    if es == [] then "" else Line(es[0]) + "\n" + LogOf(es[1..])
  }

  /** The log file, to which each entry is streamed field by field. */
  class LogFile {
    var content: string

    constructor ()
      ensures content == ""
    {
      content := "";
    }

    // The stream operator.
    method Put(s: string)
      modifies this
      ensures content == old(content) + s
    {
      content := content + s;
    }

    // The stream operator, after some of a line has been streamed.
    method PutNext(ghost before: string, ghost line: string, s: string) returns (ghost longer: string)
      requires content == before + line
      modifies this
      ensures longer == line + s && content == before + longer
    {
      Put(s);
      longer := line + s;
      Assoc(before, line, s);
    }

    method PutStamp(e: LogEntry)
      modifies this
      ensures content == old(content) + Stamp(e)
    {
      ghost var before := content;
      Put("[");
      ghost var line := PutNext(before, "[", Decimal(e.ts));
      line := PutNext(before, line, "] ");
    }

    method PutDate(e: LogEntry)
      modifies this
      ensures content == old(content) + Date(e)
    {
      ghost var before := content;
      Put(Padded(e.d));
      ghost var line := PutNext(before, Padded(e.d), "/");
      line := PutNext(before, line, Padded(e.m));
      line := PutNext(before, line, "/");
      line := PutNext(before, line, Decimal(e.y));
    }

    method PutUsage(e: LogEntry)
      modifies this
      ensures content == old(content) + Usage(e)
    {
      ghost var before := content;
      Put(" ");
      ghost var line := PutNext(before, " ", Decimal(e.h));
      line := PutNext(before, line, " ");
      line := PutNext(before, line, Decimal(e.tx));
      line := PutNext(before, line, " ");
      line := PutNext(before, line, Decimal(e.rx));
    }

    method LogEntry(e: LogEntry)
      modifies this
      ensures content == old(content) + Line(e) + "\n"
    {
      ghost var before := content;
      PutStamp(e);
      PutDate(e);
      Assoc(before, Stamp(e), Date(e));
      PutUsage(e);
      Assoc(before, Stamp(e) + Date(e), Usage(e));
      Put("\n");
    }
  }

  // ---------------------------------------------------------------- scanning

  predicate IsSpace(c: char) { c == ' ' || '\t' <= c <= '\r' }

  function SkipSpace(s: string): (r: string)
    ensures |r| <= |s|
  {
    if s != [] && IsSpace(s[0]) then SkipSpace(s[1..]) else s
  }

  // An ordinary character of a scan format.
  function Match(c: char, s: string): Option<string> {
    if s != [] && s[0] == c then Some(s[1..]) else None
  }

  function DigitCount(s: string): (k: nat)
    ensures k <= |s|
  {
    if s != [] && IsDigit(s[0]) then 1 + DigitCount(s[1..]) else 0
  }

  // The value of a run of digits.
  function Number(s: string): int {
    if s == [] then 0 else 10 * Number(s[..|s| - 1]) + Value(s[|s| - 1])
  }

  // As many digits as there are.
  function ScanDigits(s: string): Option<(int, string)> {
    var k := DigitCount(s);
    if k == 0 then None else Some((Number(s[..k]), s[k..]))
  }

  /** A decimal conversion of scanf: white space, a sign, and digits. */
  function ScanInt(s: string): Option<(int, string)> {
    var t := SkipSpace(s);
    if t != [] && t[0] == '-' then
      var (n, rest) :- ScanDigits(t[1..]);
      Some((-n, rest))
    else
      ScanDigits(if t != [] && t[0] == '+' then t[1..] else t)
  }

  function ScanStamp(s: string): Option<(int, string)> {
    var s0 :- Match('[', s);
    var (ts, s1) :- ScanInt(s0);
    var s2 :- Match(']', s1);
    Some((ts, SkipSpace(s2)))
  }

  function ScanDate(s: string): Option<((int, int, int), string)> {
    var (d, s0) :- ScanInt(s);
    var s1 :- Match('/', s0);
    var (m, s2) :- ScanInt(s1);
    var s3 :- Match('/', s2);
    var (y, s4) :- ScanInt(s3);
    Some(((d, m, y), SkipSpace(s4)))
  }

  function ScanUsage(s: string): Option<(int, int, int)> {
    var (h, s0) :- ScanInt(s);
    var (tx, s1) :- ScanInt(SkipSpace(s0));
    var (rx, _) :- ScanInt(SkipSpace(s1));
    Some((h, tx, rx))
  }

  /** The format "[%lld] %d/%d/%d %d %llu %llu", of which all seven conversions must succeed. */
  function ScanLine(s: string): Option<LogEntry> {
    var (ts, s0) :- ScanStamp(s);
    var ((d, m, y), s1) :- ScanDate(s0);
    var (h, tx, rx) :- ScanUsage(s1);
    Some(LogEntry(ts, d, m, y, h, tx, rx))
  }

  // getline: what precedes the next line break or the end, and what follows it.
  function GetLine(text: string): (r: Option<(string, string)>)
    ensures r.Some? ==> |r.value.1| < |text|
    ensures r.None? <==> text == ""
  {
    if text == [] then None
    else
      var k := LineEnd(text);
      Some((text[..k], if k < |text| then text[k + 1..] else []))
  }

  function LineEnd(text: string): (k: nat)
    ensures k <= |text|
  {
    if text == [] || text[0] == '\n' then 0 else 1 + LineEnd(text[1..])
  }

  // ---------------------------------------------------------------- scanning what was printed

  predicate AllDigits(s: string) { forall i :: 0 <= i < |s| ==> IsDigit(s[i]) }

  lemma {:induction false} NumberOfDigits(n: nat)
    ensures AllDigits(Digits(n)) && Number(Digits(n)) == n
  {
    if n >= 10 {
      NumberOfDigits(n / 10);
      assert Digits(n)[..|Digits(n)| - 1] == Digits(n / 10);
    }
  }

  lemma {:induction false} DigitCountIs(s: string, rest: string)
    requires AllDigits(s) && (rest == [] || !IsDigit(rest[0]))
    ensures DigitCount(s + rest) == |s|
  {
    if s == [] {
      assert s + rest == rest;
    } else {
      assert (s + rest)[1..] == s[1..] + rest;
      DigitCountIs(s[1..], rest);
    }
  }

  predicate Stops(s: string) { s == [] || !IsDigit(s[0]) }

  lemma ScanDigitsOf(ds: string, rest: string)
    requires AllDigits(ds) && ds != [] && Stops(rest)
    ensures ScanDigits(ds + rest) == Some((Number(ds), rest))
    ensures ScanInt(ds + rest) == Some((Number(ds), rest)) && SkipSpace(ds + rest) == ds + rest
  {
    DigitCountIs(ds, rest);
    assert (ds + rest)[..|ds|] == ds && (ds + rest)[|ds|..] == rest;
    assert IsDigit((ds + rest)[0]);
  }

  lemma ScanNegative(u: string)
    ensures SkipSpace("-" + u) == "-" + u
    ensures ScanDigits(u).Some? ==> ScanInt("-" + u) == Some((-ScanDigits(u).value.0, ScanDigits(u).value.1))
  {
    assert ("-" + u)[1..] == u;
  }

  lemma ScanDecimal(n: int, rest: string)
    requires Stops(rest)
    ensures ScanInt(Decimal(n) + rest) == Some((n, rest))
    ensures SkipSpace(Decimal(n) + rest) == Decimal(n) + rest
  {
    if n < 0 {
      NumberOfDigits(-n);
      ScanDigitsOf(Digits(-n), rest);
      ScanNegative(Digits(-n) + rest);
      Assoc("-", Digits(-n), rest);
    } else {
      NumberOfDigits(n);
      ScanDigitsOf(Digits(n), rest);
    }
  }

  // A leading zero does not change the number.
  lemma PaddedDigits(n: nat)
    requires n < 10
    ensures AllDigits(Padded(n)) && Number(Padded(n)) == n
  {
    var ds := Padded(n);
    assert ds == ['0', Digit(n)] && ds[..1] == ['0'] && ['0'][..0] == [];
  }

  lemma ScanPadded(n: int, rest: string)
    requires Stops(rest)
    ensures ScanInt(Padded(n) + rest) == Some((n, rest))
    ensures SkipSpace(Padded(n) + rest) == Padded(n) + rest
  {
    if 0 <= n < 10 {
      PaddedDigits(n);
      ScanDigitsOf(Padded(n), rest);
    } else {
      assert Padded(n) == Decimal(n);
      ScanDecimal(n, rest);
    }
  }

  lemma ScanStampOf(e: LogEntry, rest: string)
    ensures ScanStamp(Stamp(e) + rest) == Some((e.ts, SkipSpace(rest)))
  {
    var t := "]" + (" " + rest);
    assert Stamp(e) + rest == "[" + (Decimal(e.ts) + t);
    MatchIs('[', Decimal(e.ts) + t);
    ScanDecimal(e.ts, t);
    MatchIs(']', " " + rest);
    AfterSpace(rest);
  }

  lemma DateThen(e: LogEntry, s: string)
    ensures Date(e) + s == Padded(e.d) + ("/" + (Padded(e.m) + ("/" + (Decimal(e.y) + s))))
  {
  }

  lemma ScanDateOf(e: LogEntry, rest: string)
    ensures SkipSpace(Date(e) + (" " + rest)) == Date(e) + (" " + rest)
    ensures ScanDate(Date(e) + (" " + rest)) == Some(((e.d, e.m, e.y), SkipSpace(rest)))
  {
    var t := Decimal(e.y) + (" " + rest);
    var u := Padded(e.m) + ("/" + t);
    DateThen(e, " " + rest);
    ScanPadded(e.d, "/" + u);
    MatchIs('/', u);
    ScanPadded(e.m, "/" + t);
    MatchIs('/', t);
    ScanDecimal(e.y, " " + rest);
    AfterSpace(rest);
  }

  lemma ScanUsageOf(e: LogEntry)
    ensures Usage(e)[0] == ' ' && SkipSpace(Usage(e)[1..]) == Usage(e)[1..]
    ensures ScanUsage(Usage(e)[1..]) == Some((e.h, e.tx, e.rx))
  {
    var t := Decimal(e.rx) + "";
    var u := Decimal(e.tx) + (" " + t);
    assert Usage(e)[1..] == Decimal(e.h) + (" " + u);
    ScanDecimal(e.h, " " + u);
    AfterSpace(u);
    ScanDecimal(e.tx, " " + t);
    AfterSpace(t);
    ScanDecimal(e.rx, "");
  }

  /** A line that log_entry printed scans back to the entry, whatever its fields. */
  lemma ScanLineOf(e: LogEntry)
    ensures ScanLine(Line(e)) == Some(e)
  {
    ScanUsageOf(e);
    var u := Usage(e)[1..];
    assert Usage(e) == " " + u;
    ScanDateOf(e, u);
    ScanStampOf(e, Date(e) + Usage(e));
    assert Line(e) == Stamp(e) + (Date(e) + Usage(e));
  }

  lemma MatchIs(c: char, s: string)
    ensures Match(c, [c] + s) == Some(s)
  {
    assert ([c] + s)[1..] == s;
  }

  lemma AfterSpace(s: string)
    ensures SkipSpace(" " + s) == SkipSpace(s)
  {
    assert (" " + s)[1..] == s;
  }

  // ---------------------------------------------------------------- lines

  predicate OneLine(s: string) { forall i :: 0 <= i < |s| ==> s[i] != '\n' }

  lemma DecimalOneLine(n: int)
    ensures OneLine(Decimal(n)) && OneLine(Padded(n))
  {
    NumberOfDigits(if n < 0 then -n else n);
  }

  lemma LineOneLine(e: LogEntry)
    ensures OneLine(Line(e))
  {
    DecimalOneLine(e.ts);
    DecimalOneLine(e.d);
    DecimalOneLine(e.m);
    DecimalOneLine(e.y);
    DecimalOneLine(e.h);
    DecimalOneLine(e.tx);
    DecimalOneLine(e.rx);
    assert OneLine(Stamp(e)) && OneLine(Date(e)) && OneLine(Usage(e));
  }

  lemma {:induction false} LineEndIs(s: string, rest: string)
    requires OneLine(s)
    ensures LineEnd(s + ("\n" + rest)) == |s|
  {
    if s == [] {
      assert s + ("\n" + rest) == "\n" + rest;
    } else {
      assert (s + ("\n" + rest))[1..] == s[1..] + ("\n" + rest);
      LineEndIs(s[1..], rest);
    }
  }

  /** getline recovers a line without breaks and leaves what follows it. */
  lemma GetLineOf(s: string, rest: string)
    requires OneLine(s)
    ensures GetLine(s + "\n" + rest) == Some((s, rest))
  {
    LineEndIs(s, rest);
    var t := s + ("\n" + rest);
    assert s + "\n" + rest == t && t[..|s|] == s && t[|s| + 1..] == rest;
  }
}
