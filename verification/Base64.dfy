/** Base 64 of section 4 of RFC 4648, as the WebSocket handshake computes it. */
module Base64 {
  import opened Wrappers
  import opened Bytes

  const UPPER := "ABCDEFGHIJKLMNOPQRSTUVWXYZ"
  const LOWER := "abcdefghijklmnopqrstuvwxyz"
  const OTHERS := "0123456789+/"
  const ENCODING_TABLE := UPPER + LOWER + OTHERS

  type Sextet = n: int | 0 <= n < 64

  // The character of a 6-bit group.
  function Symbol(n: Sextet): char {
    if n < 26 then 'A' + n as char
    else if n < 52 then 'a' + (n - 26) as char
    else if n < 62 then '0' + (n - 52) as char
    else if n == 62 then '+'
    else '/'
  }

  // The 6-bit group of a character of the alphabet.
  function SymbolValue(c: char): Option<Sextet> {
    if 'A' <= c <= 'Z' then Some(c as int - 'A' as int)
    else if 'a' <= c <= 'z' then Some(c as int - 'a' as int + 26)
    else if '0' <= c <= '9' then Some(c as int - '0' as int + 52)
    else if c == '+' then Some(62)
    else if c == '/' then Some(63)
    else None
  }

  // The table lists the alphabet in order.
  lemma TableIs(n: Sextet)
    ensures |ENCODING_TABLE| == 64 && ENCODING_TABLE[n] == Symbol(n)
  {
    if n < 26 {
      assert ENCODING_TABLE[n] == UPPER[n];
    } else if n < 52 {
      assert ENCODING_TABLE[n] == LOWER[n - 26];
    } else {
      assert ENCODING_TABLE[n] == OTHERS[n - 52];
    }
  }

  function FromTable(n: Sextet): (c: char)
    ensures c == Symbol(n)
  {
    TableIs(n);
    ENCODING_TABLE[n]
  }

  // The alphabet and the values of its characters are inverse to each other.
  lemma SymbolValueOf(n: Sextet)
    ensures SymbolValue(Symbol(n)) == Some(n) && Symbol(n) != '='
  {
  }

  lemma SymbolOf(c: char)
    ensures c != '=' || SymbolValue(c) == None
    ensures SymbolValue(c).Some? ==> Symbol(SymbolValue(c).value) == c
  {
  }

  /** The table holds the 64 characters of the alphabet by their ASCII codes, in order; each stands
      for its position, and none is the padding character. */
  lemma Alphabet(n: Sextet)
    ensures |ENCODING_TABLE| == 64 && ENCODING_TABLE[n] != '='
    ensures ENCODING_TABLE[n] as int == if n < 26 then 65 + n else if n < 52 then 71 + n else if n < 62 then n - 4
                                        else if n == 62 then 43 else 47
    ensures SymbolValue(ENCODING_TABLE[n]) == Some(n)
  {
    TableIs(n);
    SymbolValueOf(n);
  }

  // ---------------------------------------------------------------- groups of six bits

  // The n low 6-bit groups of a number, highest first.
  function Chars(t: nat, n: nat): (s: string)
    ensures |s| == n
  {
    if n == 0 then "" else Chars(t / 64, n - 1) + [Symbol(t % 64)]
  }

  // The number that characters of the alphabet stand for.
  function Number(s: string): Option<nat> {
    if s == "" then Some(0)
    else
      var high :- Number(s[..|s| - 1]);
      var low :- SymbolValue(s[|s| - 1]);
      Some(64 * high + low)
  }

  // 64 to the power n.
  function Power(n: nat): nat { if n == 0 then 1 else 64 * Power(n - 1) }

  lemma {:induction false} NumberOfChars(t: nat, n: nat)
    requires t < Power(n)
    ensures Number(Chars(t, n)) == Some(t)
    ensures forall i :: 0 <= i < n ==> Chars(t, n)[i] != '='
  {
    if n > 0 {
      NumberOfChars(t / 64, n - 1);
      SymbolValueOf(t % 64);
      assert Chars(t, n)[..n - 1] == Chars(t / 64, n - 1);
    }
  }

  lemma CharsStep(high: nat, low: Sextet, n: nat)
    requires n > 0
    ensures Chars(64 * high + low, n) == Chars(high, n - 1) + [Symbol(low)]
  {
    assert (64 * high + low) / 64 == high && (64 * high + low) % 64 == low;
  }

  lemma {:induction false} NumberBound(s: string)
    requires Number(s).Some?
    ensures Number(s).value < Power(|s|)
  {
    if s != "" {
      NumberBound(s[..|s| - 1]);
    }
  }

  // A number, but for its last character, and the sextet that this stands for.
  lemma NumberStep(s: string) returns (high: nat, low: Sextet)
    requires s != "" && Number(s).Some?
    ensures Number(s[..|s| - 1]) == Some(high) && Number(s).value == 64 * high + low
    ensures s == s[..|s| - 1] + [Symbol(low)]
  {
    high, low := Number(s[..|s| - 1]).value, SymbolValue(s[|s| - 1]).value;
    SymbolOf(s[|s| - 1]);
  }

  lemma {:induction false} CharsOfNumber(s: string)
    requires Number(s).Some?
    ensures Chars(Number(s).value, |s|) == s
  {
    if s != "" {
      var high, low := NumberStep(s);
      CharsOfNumber(s[..|s| - 1]);
      CharsStep(high, low, |s|);
    }
  }

  lemma Powers()
    ensures Power(2) == 0x1000 && Power(3) == 0x4_0000 && Power(4) == 0x100_0000
  {
    assert Power(2) == 0x1000;
  }

  // ---------------------------------------------------------------- encoding

  /** The encoding of section 4: 24 bits make four characters; a last group of 16 or 8 bits is
      filled up with zero bits to three or two characters and padded. */
  function Encode(data: seq<Byte>): string {
    if data == [] then ""
    else if |data| == 1 then Chars(16 * FromBigEndian(data), 2) + "=="
    else if |data| == 2 then Chars(4 * FromBigEndian(data), 3) + "="
    else Chars(FromBigEndian(data[..3]), 4) + Encode(data[3..])
  }

  // What a string decodes to; a string that no data encodes to is refused.
  function Decode(s: string): Option<seq<Byte>> {
    if s == "" then Some([])
    else if |s| < 4 then None
    else if |s| == 4 && s[3] == '=' then
      if s[2] == '=' then
        var n :- Number(s[..2]);
        if n % 16 == 0 then Some(BigEndian(n / 16, 1)) else None
      else
        var n :- Number(s[..3]);
        if n % 4 == 0 then Some(BigEndian(n / 4, 2)) else None
    else
      var n :- Number(s[..4]);
      var rest :- Decode(s[4..]);
      Some(BigEndian(n, 3) + rest)
  }

  lemma {:induction false} BytesOfNumber(s: seq<Byte>)
    ensures FromBigEndian(s) < Range(|s|) && BigEndian(FromBigEndian(s), |s|) == s
  {
    if s != [] {
      BytesOfNumber(s[..|s| - 1]);
      assert s == s[..|s| - 1] + [s[|s| - 1]];
    }
  }

  lemma DecodeFull(q: string, n: nat, rest: string)
    requires |q| == 4 && Number(q) == Some(n) && q[3] != '='
    ensures Decode(rest).Some? ==> Decode(q + rest) == Some(BigEndian(n, 3) + Decode(rest).value)
  {
    assert (q + rest)[..4] == q && (q + rest)[4..] == rest;
  }

  lemma DecodeTwo(q: string, n: nat)
    requires |q| == 3 && Number(q) == Some(4 * n) && q[2] != '='
    ensures Decode(q + "=") == Some(BigEndian(n, 2))
  {
    assert 4 * n % 4 == 0 && 4 * n / 4 == n;
    var s := q + "=";
    assert s[..3] == q && s[2] == q[2] && s[3] == '=';
  }

  lemma DecodeOne(q: string, n: nat)
    requires |q| == 2 && Number(q) == Some(16 * n)
    ensures Decode(q + "==") == Some(BigEndian(n, 1))
  {
    assert 16 * n % 16 == 0 && 16 * n / 16 == n;
    var s := q + "==";
    assert s[..2] == q && s[2] == '=' && s[3] == '=';
  }

  /** Every byte string decodes to itself from its encoding. */
  lemma {:induction false} DecodeEncoded(data: seq<Byte>)
    ensures Decode(Encode(data)) == Some(data)
  {
    Powers();
    Ranges();
    if data != [] {
      var n := if |data| < 3 then FromBigEndian(data) else FromBigEndian(data[..3]);
      BytesOfNumber(data);
      if |data| == 1 {
        NumberOfChars(16 * n, 2);
        DecodeOne(Chars(16 * n, 2), n);
      } else if |data| == 2 {
        NumberOfChars(4 * n, 3);
        DecodeTwo(Chars(4 * n, 3), n);
      } else {
        BytesOfNumber(data[..3]);
        NumberOfChars(n, 4);
        DecodeEncoded(data[3..]);
        DecodeFull(Chars(n, 4), n, Encode(data[3..]));
        assert data == data[..3] + data[3..];
      }
    }
  }

  lemma EncodeOne(q: string, n: nat)
    requires |q| == 2 && Number(q) == Some(16 * n)
    ensures Encode(BigEndian(n, 1)) == q + "=="
  {
    Powers();
    Ranges();
    NumberBound(q);
    CharsOfNumber(q);
    Fits(n, 1);
  }

  lemma EncodeTwo(q: string, n: nat)
    requires |q| == 3 && Number(q) == Some(4 * n)
    ensures Encode(BigEndian(n, 2)) == q + "="
  {
    Powers();
    Ranges();
    NumberBound(q);
    CharsOfNumber(q);
    Fits(n, 2);
  }

  lemma EncodeQuad(q: string, n: nat, rest: seq<Byte>)
    requires |q| == 4 && Number(q) == Some(n)
    ensures Encode(BigEndian(n, 3) + rest) == q + Encode(rest)
  {
    Powers();
    Ranges();
    NumberBound(q);
    CharsOfNumber(q);
    Fits(n, 3);
    EncodeFull(BigEndian(n, 3), rest);
  }

  /** And nothing else does: a string that decodes is the encoding of what it decodes to. */
  lemma {:induction false} EncodeDecoded(s: string)
    requires Decode(s).Some?
    ensures Encode(Decode(s).value) == s
  {
    if s != "" {
      if |s| == 4 && s[3] == '=' {
        if s[2] == '=' {
          EncodeOne(s[..2], Number(s[..2]).value / 16);
        } else {
          EncodeTwo(s[..3], Number(s[..3]).value / 4);
        }
      } else {
        EncodeDecoded(s[4..]);
        EncodeQuad(s[..4], Number(s[..4]).value, Decode(s[4..]).value);
      }
    }
  }

  lemma EncodeFull(a: seq<Byte>, b: seq<Byte>)
    requires |a| == 3
    ensures Encode(a + b) == Chars(FromBigEndian(a), 4) + Encode(b)
  {
    assert (a + b)[..3] == a && (a + b)[3..] == b;
  }

  // The padding of a string is its last p characters and nothing else.
  ghost predicate PaddedBy(s: string, p: nat) {
    p <= |s| && forall i :: 0 <= i < |s| ==> (s[i] == '=' <==> i >= |s| - p)
  }

  ghost predicate Unpadded(s: string) { forall i :: 0 <= i < |s| ==> s[i] != '=' }

  lemma PaddedAfter(q: string, s: string, p: nat)
    requires Unpadded(q) && PaddedBy(s, p)
    ensures PaddedBy(q + s, p)
  {
  }

  // How the length and the padding go from one group to the next.
  lemma Thirds(n: nat)
    requires n > 2
    ensures Padding(n - 3) == Padding(n) && (n + 2) / 3 == 1 + (n - 1) / 3
  {
  }

  lemma ShapeOfLast(data: seq<Byte>)
    requires 1 <= |data| <= 2
    ensures |Encode(data)| == 4 && PaddedBy(Encode(data), 3 - |data|)
  {
    Powers();
    Ranges();
    BytesOfNumber(data);
    if |data| == 1 {
      NumberOfChars(16 * FromBigEndian(data), 2);
      PaddedAfter(Chars(16 * FromBigEndian(data), 2), "==", 2);
    } else {
      NumberOfChars(4 * FromBigEndian(data), 3);
      PaddedAfter(Chars(4 * FromBigEndian(data), 3), "=", 1);
    }
  }

  /** Four characters for every three bytes begun; the padding is one character for every byte
      missing from the last group, and appears nowhere else. */
  lemma {:induction false} EncodedShape(data: seq<Byte>)
    ensures |Encode(data)| == 4 * ((|data| + 2) / 3)
    ensures PaddedBy(Encode(data), Padding(|data|))
  {
    if |data| > 2 {
      var q := Chars(FromBigEndian(data[..3]), 4);
      assert Unpadded(q) by {
        Powers();
        Ranges();
        BytesOfNumber(data[..3]);
        NumberOfChars(FromBigEndian(data[..3]), 4);
      }
      EncodedShape(data[3..]);
      Thirds(|data|);
      PaddedAfter(q, Encode(data[3..]), Padding(|data|));
    } else if |data| > 0 {
      ShapeOfLast(data);
    }
  }

  // ---------------------------------------------------------------- in place

  function Padding(n: nat): (p: nat) { if n % 3 == 0 then 0 else 3 - n % 3 }

  // The octet at a place, or zero beyond the end.
  function Octet(data: seq<Byte>, i: nat): Byte { if i < |data| then data[i] else 0 }

  function Triple(data: seq<Byte>): nat {
    0x1_0000 * Nat(Octet(data, 0)) + 0x100 * Nat(Octet(data, 1)) + Nat(Octet(data, 2))
  }

  function Nat(b: Byte): nat { b }

  function Rest(data: seq<Byte>): seq<Byte> { if |data| > 3 then data[3..] else [] }

  // The groups before they are padded.
  function Groups(data: seq<Byte>): (s: string)
    decreases |data|
  {
    if data == [] then "" else Chars(Triple(data), 4) + Groups(Rest(data))
  }

  function Equals(n: nat): (s: string)
    ensures |s| == n
  {
    seq(n, i => '=')
  }

  lemma CharsPrefix(t: nat, n: nat)
    requires n > 0
    ensures Chars(t, n)[..n - 1] == Chars(t / 64, n - 1)
  {
  }

  lemma {:induction false} PaddedGroups(data: seq<Byte>)
    ensures Padding(|data|) <= |Groups(data)|
    ensures Encode(data) == Groups(data)[..|Groups(data)| - Padding(|data|)] + Equals(Padding(|data|))
    decreases |data|
  {
    if |data| > 3 {
      PaddedGroups(data[3..]);
      Thirds(|data|);
      PaddedMore(data, Groups(data[3..]), Padding(|data|));
    } else if |data| > 0 {
      LastGroup(data);
      assert Groups(data) == Chars(Triple(data), 4);
    }
  }

  // A full group in front of others that are padded.
  lemma PaddedMore(data: seq<Byte>, g: string, p: nat)
    requires |data| > 3 && g == Groups(data[3..]) && p <= |g| && Encode(data[3..]) == g[..|g| - p] + Equals(p)
    ensures Groups(data) == Chars(Triple(data), 4) + g
    ensures Encode(data) == Groups(data)[..|Groups(data)| - p] + Equals(p)
  {
    TripleIs(data);
    Tail(Chars(Triple(data), 4), g, |g| - p, Equals(p));
  }

  lemma Tail(a: string, b: string, k: nat, e: string)
    requires k <= |b|
    ensures (a + b)[..|a| + k] + e == a + (b[..k] + e)
  {
  }

  lemma TripleIs(data: seq<Byte>)
    ensures |data| == 1 ==> Triple(data) == 0x1_0000 * FromBigEndian(data)
    ensures |data| == 2 ==> Triple(data) == 0x100 * FromBigEndian(data)
    ensures |data| >= 3 ==> Triple(data) == FromBigEndian(data[..3])
  {
    if |data| > 0 {
      assert data[..1] == [data[0]] && FromBigEndian([data[0]]) == data[0];
    }
    if |data| > 1 {
      assert data[..2][..1] == data[..1] && FromBigEndian(data[..2]) == 256 * FromBigEndian(data[..1]) + data[1];
    }
    if |data| > 2 {
      assert data[..3][..2] == data[..2];
    }
  }

  lemma LastGroup(data: seq<Byte>)
    requires 1 <= |data| <= 3
    ensures Encode(data) == Chars(Triple(data), 4)[..4 - Padding(|data|)] + Equals(Padding(|data|))
  {
    TripleIs(data);
    if |data| == 3 {
      assert data[..3] == data && data[3..] == [];
    } else if |data| == 2 {
      LastTwo(Triple(data), FromBigEndian(data));
    } else {
      LastOne(Triple(data), FromBigEndian(data));
    }
  }

  lemma LastTwo(t: nat, n: nat)
    requires t == 0x100 * n
    ensures Chars(t, 4)[..3] + Equals(1) == Chars(4 * n, 3) + "="
  {
    CharsPrefix(t, 4);
    assert t / 64 == 4 * n;
  }

  lemma LastOne(t: nat, n: nat)
    requires t == 0x1_0000 * n
    ensures Chars(t, 4)[..2] + Equals(2) == Chars(16 * n, 2) + "=="
  {
    CharsPrefix(t, 4);
    CharsPrefix(t / 64, 3);
    assert t / 64 / 64 == 16 * n;
    assert Chars(t, 4)[..2] == Chars(t, 4)[..3][..2];
  }

  lemma {:induction false} GroupsLength(data: seq<Byte>)
    ensures |Groups(data)| == 4 * ((|data| + 2) / 3)
    decreases |data|
  {
    if |data| > 3 {
      GroupsLength(data[3..]);
      Thirds(|data|);
    }
  }

  lemma FourChars(t: nat)
    ensures Chars(t, 4) == [Symbol(t / 0x4_0000 % 64), Symbol(t / 0x1000 % 64), Symbol(t / 64 % 64), Symbol(t % 64)]
  {
    assert t / 64 / 64 == t / 0x1000 && t / 64 / 64 / 64 == t / 0x4_0000;
    assert Chars(t / 0x4_0000, 1) == [Symbol(t / 0x4_0000 % 64)];
    assert Chars(t / 0x1000, 2) == Chars(t / 0x4_0000, 1) + [Symbol(t / 0x1000 % 64)];
  }

  const MOD_TABLE := [0, 2, 1]

  method PutGroup(encodedData: array<char>, j: nat, triple: nat)
    requires j + 4 <= encodedData.Length
    modifies encodedData
    ensures encodedData[..j + 4] == old(encodedData[..j]) + Chars(triple, 4)
  {
    encodedData[j] := FromTable(triple / 0x4_0000 % 64);
    encodedData[j + 1] := FromTable(triple / 0x1000 % 64);
    encodedData[j + 2] := FromTable(triple / 64 % 64);
    encodedData[j + 3] := FromTable(triple % 64);
    FourChars(triple);
    assert encodedData[..j] == old(encodedData[..j]);
  }

  // The next three octets, or as many as there are.
  method NextTriple(data: array<Byte>, at: nat) returns (triple: nat, i: nat)
    requires at < data.Length
    ensures at < i <= data.Length && triple == Triple(data[at..]) && data[i..] == Rest(data[at..])
  {
    i := at;
    var octetA, octetB, octetC := Nat(data[i]), 0, 0;
    i := i + 1;
    if i < data.Length {
      octetB := Nat(data[i]);
      i := i + 1;
    }
    if i < data.Length {
      octetC := Nat(data[i]);
      i := i + 1;
    }
    triple := 0x1_0000 * octetA + 0x100 * octetB + octetC;
  }

  method Pad(encodedData: array<char>, inputLength: nat)
    requires Padding(inputLength) <= encodedData.Length
    modifies encodedData
    ensures encodedData[..] == old(encodedData[..encodedData.Length - Padding(inputLength)]) + Equals(Padding(inputLength))
  {
    var n, padding := encodedData.Length, MOD_TABLE[inputLength % 3];
    assert padding == Padding(inputLength);
    var i := 0;
    while i < padding
      invariant i <= padding
      invariant forall m :: n - i <= m < n ==> encodedData[m] == '='
      invariant forall m :: 0 <= m < n - i ==> encodedData[m] == old(encodedData[m])
    {
      encodedData[n - 1 - i] := '=';
      i := i + 1;
    }
    assert encodedData[..n - padding] == old(encodedData[..n - padding]);
    assert encodedData[n - padding..] == Equals(padding);
  }

  /** The handshake's encoder, over arrays: whole groups first, then the padding over their end. */
  method Base64Encode(data: array<Byte>) returns (encodedData: array<char>)
    ensures fresh(encodedData) && encodedData[..] == Encode(data[..])
  {
    var outputLength := 4 * ((data.Length + 2) / 3);
    encodedData := new char[outputLength](i => '\0');
    GroupsLength(data[..]);
    PaddedGroups(data[..]);
    PutGroups(data, encodedData);
    Pad(encodedData, data.Length);
  }

  method PutGroups(data: array<Byte>, encodedData: array<char>)
    requires encodedData.Length == |Groups(data[..])|
    modifies encodedData
    ensures encodedData[..] == Groups(data[..])
  {
    ghost var rest := Groups(data[..]);
    ghost var groups := rest;
    assert data[..] == data[0..];
    var i, j := 0, 0;
    while i < data.Length
      invariant i <= data.Length && rest == Groups(data[i..])
      invariant j + |rest| == |groups| && encodedData[..j] + rest == groups
    {
      var triple, next := NextTriple(data, i);
      ghost var done := encodedData[..j];
      rest := NextGroup(data[i..], data[next..], triple);
      PutGroup(encodedData, j, triple);
      Assoc(done, Chars(triple, 4), rest);
      i, j := next, j + 4;
    }
    assert data[i..] == [] && encodedData[..j] + "" == encodedData[..];
  }

  lemma NextGroup(data: seq<Byte>, more: seq<Byte>, triple: nat) returns (rest: string)
    requires data != [] && triple == Triple(data) && more == Rest(data)
    ensures rest == Groups(more) && Groups(data) == Chars(triple, 4) + rest && |Groups(data)| == 4 + |rest|
  {
    rest := Groups(more);
  }

  // ---------------------------------------------------------------- published encodings

  // The number of a group of sextets, and its characters.
  function Joined(ss: seq<Sextet>): nat { if ss == [] then 0 else 64 * Joined(ss[..|ss| - 1]) + ss[|ss| - 1] }

  function Symbols(ss: seq<Sextet>): string { if ss == [] then "" else Symbols(ss[..|ss| - 1]) + [Symbol(ss[|ss| - 1])] }

  lemma {:induction false} CharsOf(ss: seq<Sextet>)
    ensures Chars(Joined(ss), |ss|) == Symbols(ss)
  {
    if ss != [] {
      CharsOf(ss[..|ss| - 1]);
      CharsStep(Joined(ss[..|ss| - 1]), ss[|ss| - 1], |ss|);
    }
  }

  lemma FourSextets(p: Sextet, q: Sextet, r: Sextet, s: Sextet)
    ensures Joined([p, q]) == 64 * p as int + q && Symbols([p, q]) == [Symbol(p), Symbol(q)]
    ensures Joined([p, q, r]) == 0x1000 * p as int + 64 * q as int + r
    ensures Symbols([p, q, r]) == [Symbol(p), Symbol(q), Symbol(r)]
    ensures Joined([p, q, r, s]) == 0x4_0000 * p as int + 0x1000 * q as int + 64 * r as int + s
    ensures Symbols([p, q, r, s]) == [Symbol(p), Symbol(q), Symbol(r), Symbol(s)]
  {
    var one: seq<Sextet>, two: seq<Sextet>, three: seq<Sextet>, four: seq<Sextet> := [p], [p, q], [p, q, r], [p, q, r, s];
    assert four[..3] == three && three[..2] == two && two[..1] == one && one[..0] == [];
    assert Joined(one) == p && Symbols(one) == [Symbol(p)];
    assert Joined(two) == 64 * p as int + q && Symbols(two) == [Symbol(p), Symbol(q)];
  }

  // Each character stands for six bits of the three bytes, in their order.
  lemma EncodeGroup(a: Byte, b: Byte, c: Byte, rest: seq<Byte>)
    ensures Encode([a, b, c] + rest) ==
            [Symbol(a / 4), Symbol(a % 4 * 16 + b / 16), Symbol(b % 16 * 4 + c / 64), Symbol(c % 64)] + Encode(rest)
  {
    EncodeFull([a, b, c], rest);
    ThreeBytes(a, b, c);
    var p: Sextet, q: Sextet, r: Sextet, s: Sextet := a / 4, a % 4 * 16 + b / 16, b % 16 * 4 + c / 64, c % 64;
    FourSextets(p, q, r, s);
    CharsOf([p, q, r, s]);
  }

  lemma ThreeBytes(a: Byte, b: Byte, c: Byte)
    ensures FromBigEndian([a, b, c]) == 0x1_0000 * a + 0x100 * b + c
  {
    assert [a, b, c][..2] == [a, b] && [a, b][..1] == [a] && [a][..0] == [];
    assert FromBigEndian([a]) == a && FromBigEndian([a, b]) == 0x100 * a + b;
  }

  // And of a last group of two bytes, or of one, filled up with zeros.
  lemma EncodePair(a: Byte, b: Byte)
    ensures Encode([a, b]) == [Symbol(a / 4), Symbol(a % 4 * 16 + b / 16), Symbol(b % 16 * 4), '=']
  {
    assert [a, b][..1] == [a] && [a][..0] == [];
    assert FromBigEndian([a]) == a && FromBigEndian([a, b]) == 0x100 * a + b;
    var p: Sextet, q: Sextet, r: Sextet := a / 4, a % 4 * 16 + b / 16, b % 16 * 4;
    FourSextets(p, q, r, 0);
    CharsOf([p, q, r]);
  }

  lemma EncodeSingle(a: Byte)
    ensures Encode([a]) == [Symbol(a / 4), Symbol(a % 4 * 16), '=', '=']
  {
    assert [a][..0] == [] && FromBigEndian([a]) == a;
    var p: Sextet, q: Sextet := a / 4, a % 4 * 16;
    FourSextets(p, q, 0, 0);
    CharsOf([p, q]);
  }

  lemma Foo(s: seq<Byte>, rest: seq<Byte>)
    requires s == [102, 111, 111]
    ensures Encode(s + rest) == "Zm9v" + Encode(rest)
  {
    var a, b, c := s[0], s[1], s[2];
    assert s == [a, b, c];
    EncodeGroup(a, b, c, rest);
    assert [Symbol(25), Symbol(38), Symbol(61), Symbol(47)] == "Zm9v";
  }

  lemma Bar(s: seq<Byte>)
    requires s == [98, 97, 114]
    ensures Encode(s) == "YmFy" && Encode(s[..2]) == "YmE=" && Encode(s[..1]) == "Yg=="
  {
    var a, b, c := s[0], s[1], s[2];
    EncodeGroup(a, b, c, []);
    EncodePair(a, b);
    EncodeSingle(a);
    assert [a, b, c] + [] == s && s[..2] == [a, b] && s[..1] == [a];
    assert [Symbol(24), Symbol(38), Symbol(5), Symbol(50)] == "YmFy";
    assert [Symbol(24), Symbol(38), Symbol(4)] == "YmE" && [Symbol(24), Symbol(32)] == "Yg";
  }

  /** The last of the test vectors of section 10 of RFC 4648, "foobar", and its beginnings of four
      and five bytes. */
  lemma Foobar(foo: seq<Byte>, bar: seq<Byte>)
    requires foo == [102, 111, 111] && bar == [98, 97, 114]
    ensures Encode(foo + bar) == "Zm9v" + "YmFy"
    ensures Encode(foo + bar[..2]) == "Zm9v" + "YmE=" && Encode(foo + bar[..1]) == "Zm9v" + "Yg=="
  {
    Foo(foo, bar);
    Foo(foo, bar[..2]);
    Foo(foo, bar[..1]);
    Bar(bar);
  }
}
