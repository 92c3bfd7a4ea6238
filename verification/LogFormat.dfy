/** What a printed line looks like, and exactly which lines scan. */
module LogFormat {
  import opened Wrappers
  import opened LogText

  // ---------------------------------------------------------------- printed lines

  // The digits of a number as one writes it: no leading zero, but for zero itself.
  predicate Canonical(s: string, n: nat) {
    s != [] && AllDigits(s) && Number(s) == n && (s[0] == '0' ==> s == "0")
  }

  lemma {:induction false} DigitsCanonical(n: nat)
    ensures Canonical(Digits(n), n)
  {
    NumberOfDigits(n);
    if n >= 10 {
      DigitsCanonical(n / 10);
      ZeroIs();
    }
  }

  lemma ZeroIs()
    ensures Number("0") == 0
  {
    assert "0"[..0] == "";
  }

  /** An integer is printed in its digits, after a minus sign if it is negative. */
  lemma DecimalShape(n: int)
    ensures n >= 0 ==> Canonical(Decimal(n), n)
    ensures n < 0 ==> Decimal(n)[0] == '-' && Canonical(Decimal(n)[1..], -n)
  {
    DigitsCanonical(if n < 0 then -n else n);
    if n < 0 {
      assert Decimal(n)[1..] == Digits(-n);
    }
  }

  /** A number below 100 is padded to exactly two digits; a longer one is printed as it is. */
  lemma PaddedShape(n: int)
    ensures 0 <= n < 100 ==> |Padded(n)| == 2 && AllDigits(Padded(n)) && Number(Padded(n)) == n
    ensures n < 0 || n >= 100 ==> Padded(n) == Decimal(n)
  {
    if 0 <= n < 10 {
      PaddedDigits(n);
    } else {
      NumberOfDigits(if n < 0 then -n else n);
      if 0 <= n < 100 {
        assert Digits(n / 10) == [Digit(n / 10)];
      }
    }
  }

  /** A day and a month of the calendar take two digits each, before the slashes. */
  lemma DateShape(e: LogEntry)
    requires 1 <= e.d <= 31 && 1 <= e.m <= 12
    ensures |Date(e)| > 6 && Date(e)[2] == '/' && Date(e)[5] == '/'
    ensures AllDigits(Date(e)[..2]) && Number(Date(e)[..2]) == e.d
    ensures AllDigits(Date(e)[3..5]) && Number(Date(e)[3..5]) == e.m && Date(e)[6..] == Decimal(e.y)
  {
    PaddedShape(e.d);
    PaddedShape(e.m);
    DecimalShape(e.y);
    DatePieces(Padded(e.d), Padded(e.m), Decimal(e.y));
  }

  lemma DatePieces(d: string, m: string, y: string)
    requires |d| == |m| == 2
    ensures var s := d + "/" + m + "/" + y;
            && s[..2] == d && s[2] == '/' && s[3..5] == m && s[5] == '/' && s[6..] == y
  {
  }

  /** The fifth of March 2024, 7 o'clock. */
  lemma SampleLine()
    ensures var e := LogEntry(60, 5, 3, 2024, 7, 80, 9);
            && Stamp(e) == "[60] " && Date(e) == "05/03/2024" && Usage(e) == " 7 80 9"
            && Line(e) == Stamp(e) + Date(e) + Usage(e)
  {
    TwoDigits(60, '6', '0');
    TwoDigits(80, '8', '0');
    SampleYear();
    SampleDate(LogEntry(60, 5, 3, 2024, 7, 80, 9));
  }

  lemma SampleDate(e: LogEntry)
    requires e.d == 5 && e.m == 3 && Decimal(e.y) == "2024"
    ensures Date(e) == "05/03/2024"
  {
    assert Padded(5) == "05" && Padded(3) == "03";
  }

  lemma SampleYear()
    ensures Decimal(2024) == "2024"
  {
    TwoDigits(20, '2', '0');
    assert Digits(202) == Digits(20) + "2" && Digits(2024) == Digits(202) + "4";
  }

  lemma TwoDigits(n: nat, a: char, b: char)
    requires 10 <= n < 100 && IsDigit(a) && IsDigit(b) && n == 10 * Value(a) + Value(b)
    ensures Digits(n) == [a, b]
  {
    assert n / 10 == Value(a) && n % 10 == Value(b);
    assert Digits(n / 10) == [a];
  }

  // ---------------------------------------------------------------- lines that scan

  predicate AllSpace(s: string) { forall i :: 0 <= i < |s| ==> IsSpace(s[i]) }

  // White space, a sign or none, and digits.
  ghost predicate Numeral(s: string, n: int) {
    exists w, sign, ds :: NumeralOf(s, n, w, sign, ds)
  }

  ghost predicate NumeralOf(s: string, n: int, w: string, sign: string, ds: string) {
    && s == w + (sign + ds) && AllSpace(w) && (sign == "" || sign == "+" || sign == "-") && ds != [] && AllDigits(ds)
    && n == if sign == "-" then -Number(ds) else Number(ds)
  }

  lemma {:induction false} SkipSpaceIs(w: string, t: string)
    requires AllSpace(w) && (t == [] || !IsSpace(t[0]))
    ensures SkipSpace(w + t) == t
  {
    if w == [] {
      assert w + t == t;
    } else {
      assert (w + t)[1..] == w[1..] + t;
      SkipSpaceIs(w[1..], t);
    }
  }

  lemma {:induction false} SkippedSpace(s: string) returns (w: string)
    ensures s == w + SkipSpace(s) && AllSpace(w)
    ensures SkipSpace(s) == [] || !IsSpace(SkipSpace(s)[0])
  {
    w := [];
    if s != [] && IsSpace(s[0]) {
      var v := SkippedSpace(s[1..]);
      w := [s[0]] + v;
    }
  }

  lemma {:induction false} DigitCountMaximal(s: string)
    ensures AllDigits(s[..DigitCount(s)]) && Stops(s[DigitCount(s)..])
  {
    if s != [] && IsDigit(s[0]) {
      DigitCountMaximal(s[1..]);
      assert s[..DigitCount(s)] == [s[0]] + s[1..][..DigitCount(s[1..])];
      assert s[DigitCount(s)..] == s[1..][DigitCount(s[1..])..];
    }
  }

  // A numeral that no digit follows is read whole.
  lemma NumeralScans(t: string, n: int, rest: string)
    requires Numeral(t, n) && Stops(rest)
    ensures ScanInt(t + rest) == Some((n, rest))
  {
    var w, sign, ds :| NumeralOf(t, n, w, sign, ds);
    var u := sign + (ds + rest);
    assert t + rest == w + u;
    assert u[0] == (sign + ds)[0];
    SkipSpaceIs(w, u);
    ScanDigitsOf(ds, rest);
    if sign != "" {
      assert u[1..] == ds + rest;
    } else {
      assert u == ds + rest;
    }
  }

  // And only numerals are.
  lemma ScannedNumeral(s: string) returns (t: string)
    requires ScanInt(s).Some?
    ensures var (n, rest) := ScanInt(s).value; s == t + rest && Numeral(t, n) && Stops(rest)
  {
    var w := SkippedSpace(s);
    var u := SkipSpace(s);
    var sign := if u[0] == '-' then "-" else if u[0] == '+' then "+" else "";
    var v := if sign == "" then u else u[1..];
    var ds := ScannedDigits(v);
    t := w + (sign + ds);
    var (n, rest) := ScanInt(s).value;
    assert u == sign + (ds + rest);
    Regroup(w, sign, ds, rest);
    assert NumeralOf(t, n, w, sign, ds);
  }

  lemma ScannedDigits(v: string) returns (ds: string)
    requires ScanDigits(v).Some?
    ensures v == ds + ScanDigits(v).value.1 && ds != [] && AllDigits(ds) && Number(ds) == ScanDigits(v).value.0
    ensures Stops(ScanDigits(v).value.1)
  {
    DigitCountMaximal(v);
    ds := v[..DigitCount(v)];
  }

  lemma Regroup(a: string, b: string, c: string, d: string)
    ensures a + (b + (c + d)) == a + (b + c) + d
  {
  }

  // ---------------------------------------------------------------- whole lines

  // The pieces of a line: seven numerals, the spaces that the format skips, and what is not read.
  datatype Parts = Parts(n: seq<string>, w: seq<string>, rest: string)

  ghost predicate PartsOf(p: Parts, s: string, e: LogEntry) {
    && |p.n| == 7 && |p.w| == 4 && (forall i :: 0 <= i < 4 ==> AllSpace(p.w[i]))
    && Numeral(p.n[0], e.ts) && Numeral(p.n[1], e.d) && Numeral(p.n[2], e.m) && Numeral(p.n[3], e.y)
    && Numeral(p.n[4], e.h) && Numeral(p.n[5], e.tx) && Numeral(p.n[6], e.rx)
    && s == "[" + (p.n[0] + ("]" + (p.w[0] + DateAndOn(p))))
    // a number is read as far as its digits go
    && Stops(p.w[1] + UsageAndOn(p)) && Stops(p.w[2] + (p.n[5] + (p.w[3] + (p.n[6] + p.rest))))
    && Stops(p.w[3] + (p.n[6] + p.rest)) && Stops(p.rest)
  }

  function DateAndOn(p: Parts): string
    requires |p.n| == 7 && |p.w| == 4
  {
    p.n[1] + ("/" + (p.n[2] + ("/" + (p.n[3] + (p.w[1] + UsageAndOn(p))))))
  }

  function UsageAndOn(p: Parts): string
    requires |p.n| == 7 && |p.w| == 4
  {
    p.n[4] + (p.w[2] + (p.n[5] + (p.w[3] + (p.n[6] + p.rest))))
  }

  // White space before a numeral is white space of the numeral as well.
  lemma SpacedNumeral(w: string, t: string, n: int)
    requires AllSpace(w) && Numeral(t, n)
    ensures Numeral(w + t, n)
  {
    var v, sign, ds :| NumeralOf(t, n, v, sign, ds);
    assert w + t == (w + v) + (sign + ds);
    assert NumeralOf(w + t, n, w + v, sign, ds);
  }

  lemma {:induction false} SkipTwice(s: string)
    ensures SkipSpace(SkipSpace(s)) == SkipSpace(s)
  {
    if s != [] && IsSpace(s[0]) {
      SkipTwice(s[1..]);
    }
  }

  // The conversion after white space of the format reads the same number.
  lemma SpaceThenNumeral(w: string, t: string, n: int, rest: string)
    requires AllSpace(w) && Numeral(t, n) && Stops(rest)
    ensures ScanInt(SkipSpace(w + (t + rest))) == Some((n, rest))
  {
    SpacedNumeral(w, t, n);
    NumeralScans(w + t, n, rest);
    Assoc(w, t, rest);
    SkipTwice(w + (t + rest));
  }

  lemma UsageScans(p: Parts, s: string, e: LogEntry)
    requires PartsOf(p, s, e)
    ensures ScanUsage(SkipSpace(p.w[1] + UsageAndOn(p))) == Some((e.h, e.tx, e.rx))
  {
    var t3 := p.w[3] + (p.n[6] + p.rest);
    var t2 := p.w[2] + (p.n[5] + t3);
    SpaceThenNumeral(p.w[1], p.n[4], e.h, t2);
    SpaceThenNumeral(p.w[2], p.n[5], e.tx, t3);
    SpaceThenNumeral(p.w[3], p.n[6], e.rx, p.rest);
  }

  lemma DateScans(p: Parts, s: string, e: LogEntry)
    requires PartsOf(p, s, e)
    ensures ScanDate(SkipSpace(p.w[0] + DateAndOn(p))) == Some(((e.d, e.m, e.y), SkipSpace(p.w[1] + UsageAndOn(p))))
  {
    var t3 := p.w[1] + UsageAndOn(p);
    var t2 := "/" + (p.n[3] + t3);
    var t1 := "/" + (p.n[2] + t2);
    SpaceThenNumeral(p.w[0], p.n[1], e.d, t1);
    MatchIs('/', p.n[2] + t2);
    NumeralScans(p.n[2], e.m, t2);
    MatchIs('/', p.n[3] + t3);
    NumeralScans(p.n[3], e.y, t3);
  }

  lemma PartsScan(p: Parts, s: string, e: LogEntry)
    requires PartsOf(p, s, e)
    ensures ScanLine(s) == Some(e)
  {
    var t := "]" + (p.w[0] + DateAndOn(p));
    MatchIs('[', p.n[0] + t);
    NumeralScans(p.n[0], e.ts, t);
    MatchIs(']', p.w[0] + DateAndOn(p));
    DateScans(p, s, e);
    UsageScans(p, s, e);
  }

  // What a conversion after white space of the format has read.
  lemma SpacedParts(s: string) returns (w: string, t: string)
    requires ScanInt(SkipSpace(s)).Some?
    ensures var (n, rest) := ScanInt(SkipSpace(s)).value;
            s == w + (t + rest) && AllSpace(w) && Numeral(t, n) && Stops(rest)
  {
    w := SkippedSpace(s);
    t := ScannedNumeral(SkipSpace(s));
  }

  lemma MatchedIs(c: char, s: string)
    requires Match(c, s).Some?
    ensures s == [c] + Match(c, s).value
  {
  }

  lemma StampParts(s: string) returns (n0: string, after: string)
    requires ScanStamp(s).Some?
    ensures s == "[" + (n0 + ("]" + after)) && Numeral(n0, ScanStamp(s).value.0) && ScanStamp(s).value.1 == SkipSpace(after)
  {
    var s0 := Match('[', s).value;
    MatchedIs('[', s);
    n0 := ScannedNumeral(s0);
    MatchedIs(']', ScanInt(s0).value.1);
    after := Match(']', ScanInt(s0).value.1).value;
  }

  lemma DateParts(s: string) returns (w: string, d: string, m: string, y: string, after: string)
    requires ScanDate(SkipSpace(s)).Some?
    ensures var (dmy, rest) := ScanDate(SkipSpace(s)).value;
            && s == w + (d + ("/" + (m + ("/" + (y + after))))) && AllSpace(w) && Stops(after) && rest == SkipSpace(after)
            && Numeral(d, dmy.0) && Numeral(m, dmy.1) && Numeral(y, dmy.2)
  {
    w, d := SpacedParts(s);
    var s0 := ScanInt(SkipSpace(s)).value.1;
    MatchedIs('/', s0);
    var s1 := Match('/', s0).value;
    m := ScannedNumeral(s1);
    var s2 := ScanInt(s1).value.1;
    MatchedIs('/', s2);
    y := ScannedNumeral(Match('/', s2).value);
    after := ScanInt(Match('/', s2).value).value.1;
  }

  lemma UsageParts(s: string) returns (w: seq<string>, n: seq<string>, rest: string)
    requires ScanUsage(SkipSpace(s)).Some?
    ensures |w| == |n| == 3 && (forall i :: 0 <= i < 3 ==> AllSpace(w[i]))
    ensures var (h, tx, rx) := ScanUsage(SkipSpace(s)).value;
            && s == w[0] + (n[0] + (w[1] + (n[1] + (w[2] + (n[2] + rest)))))
            && Numeral(n[0], h) && Numeral(n[1], tx) && Numeral(n[2], rx)
            && Stops(w[1] + (n[1] + (w[2] + (n[2] + rest)))) && Stops(w[2] + (n[2] + rest)) && Stops(rest)
  {
    var w0, n0 := SpacedParts(s);
    var s0 := ScanInt(SkipSpace(s)).value.1;
    var w1, n1 := SpacedParts(s0);
    var s1 := ScanInt(SkipSpace(s0)).value.1;
    var w2, n2 := SpacedParts(s1);
    w, n, rest := [w0, w1, w2], [n0, n1, n2], ScanInt(SkipSpace(s1)).value.1;
  }

  lemma ScannedParts(s: string) returns (p: Parts)
    requires ScanLine(s).Some?
    ensures PartsOf(p, s, ScanLine(s).value)
  {
    var n0, s0 := StampParts(s);
    var w0, n1, n2, n3, s1 := DateParts(s0);
    var w, n, rest := UsageParts(s1);
    p := Parts([n0, n1, n2, n3] + n, [w0] + w, rest);
    PartsAre(p, n0, n1, n2, n3, n, w0, w);
  }

  lemma PartsAre(p: Parts, n0: string, n1: string, n2: string, n3: string, n: seq<string>, w0: string, w: seq<string>)
    requires |n| == |w| == 3 && p.n == [n0, n1, n2, n3] + n && p.w == [w0] + w
    ensures |p.n| == 7 && |p.w| == 4
    ensures p.n[0] == n0 && p.n[1] == n1 && p.n[2] == n2 && p.n[3] == n3
    ensures p.n[4] == n[0] && p.n[5] == n[1] && p.n[6] == n[2]
    ensures p.w[0] == w0 && p.w[1] == w[0] && p.w[2] == w[1] && p.w[3] == w[2]
  {
  }

  /** Of all lines exactly those scan, and to exactly that entry, that consist of a bracketed
      numeral, three numerals with slashes between them, and three more; white space may stand
      before any numeral and a sign may begin it, and what follows the last one is ignored. */
  lemma ScanLineIff(s: string, e: LogEntry)
    ensures ScanLine(s) == Some(e) <==> exists p :: PartsOf(p, s, e)
  {
    if ScanLine(s) == Some(e) {
      var p := ScannedParts(s);
    }
    if exists p :: PartsOf(p, s, e) {
      var p :| PartsOf(p, s, e);
      PartsScan(p, s, e);
    }
  }
}
