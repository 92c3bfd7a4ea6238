/** Bytes, and numbers written in a fixed count of them. */
module Bytes {
  type Byte = b: int | 0 <= b < 256

  // 256 to the power n.
  function Range(n: nat): (r: nat)
    ensures r > 0
  {
    if n == 0 then 1 else 256 * Range(n - 1)
  }

  // The n low bytes of a number, lowest first.
  function LittleEndian(v: nat, n: nat): (s: seq<Byte>)
    ensures |s| == n
  {
    if n == 0 then [] else [v % 256] + LittleEndian(v / 256, n - 1)
  }

  function FromLittleEndian(s: seq<Byte>): nat {
    if s == [] then 0 else s[0] + 256 * FromLittleEndian(s[1..])
  }

  // The n low bytes of a number, highest first.
  function BigEndian(v: nat, n: nat): (s: seq<Byte>)
    ensures |s| == n
  {
    if n == 0 then [] else BigEndian(v / 256, n - 1) + [v % 256]
  }

  function FromBigEndian(s: seq<Byte>): nat {
    if s == [] then 0 else 256 * FromBigEndian(s[..|s| - 1]) + s[|s| - 1]
  }

  /** n bytes hold a number modulo 256 to the power n, lowest byte first. */
  lemma {:induction false} LittleEndianValue(v: nat, n: nat)
    ensures FromLittleEndian(LittleEndian(v, n)) == v % Range(n)
  {
    if n > 0 {
      LittleEndianValue(v / 256, n - 1);
      ModByParts(v, Range(n - 1));
      assert LittleEndian(v, n)[1..] == LittleEndian(v / 256, n - 1);
    }
  }

  /** The same, highest byte first. */
  lemma {:induction false} BigEndianValue(v: nat, n: nat)
    ensures FromBigEndian(BigEndian(v, n)) == v % Range(n)
  {
    if n > 0 {
      BigEndianValue(v / 256, n - 1);
      ModByParts(v, Range(n - 1));
      assert BigEndian(v, n)[..n - 1] == BigEndian(v / 256, n - 1);
    }
  }

  lemma Ranges()
    ensures Range(2) == 0x1_0000 && Range(4) == 0x1_0000_0000 && Range(8) == 0x1_0000_0000_0000_0000
  {
    assert Range(2) == 0x1_0000;
    assert Range(4) == 0x1_0000_0000;
    assert Range(6) == 0x1_0000_0000_0000;
  }

  // A number that fits in the bytes reads back unchanged.
  lemma Fits(v: nat, n: nat)
    requires v < Range(n)
    ensures FromLittleEndian(LittleEndian(v, n)) == v && FromBigEndian(BigEndian(v, n)) == v
  {
    LittleEndianValue(v, n);
    BigEndianValue(v, n);
  }

  // A number without its n low bytes.
  function High(v: nat, n: nat): nat { if n == 0 then v else High(v / 256, n - 1) }

  lemma {:induction false} HighBound(v: nat, m: nat, n: nat)
    ensures High(v, n) == 0 <==> v < Range(n)
    ensures v < Range(m + n) ==> High(v, n) < Range(m)
    decreases n
  {
    if n > 0 {
      HighBound(v / 256, m, n - 1);
    }
  }

  // The high bytes of a number, then its low bytes.
  lemma {:induction false} BigEndianSplit(v: nat, a: nat, b: nat)
    ensures BigEndian(v, a + b) == BigEndian(High(v, b), a) + BigEndian(v, b)
    decreases b
  {
    if b > 0 {
      BigEndianSplit(v / 256, a, b - 1);
      assert BigEndian(v, a + b) == BigEndian(v / 256, a + (b - 1)) + [v % 256];
    }
  }

  // The low bytes of a number are those of its remainder.
  lemma {:induction false} LowBytes(v: nat, n: nat)
    ensures BigEndian(v % Range(n), n) == BigEndian(v, n)
  {
    if n > 0 {
      LowBytes(v / 256, n - 1);
      ModByParts(v, Range(n - 1));
    }
  }

  lemma ModByParts(v: nat, r: nat)
    requires r > 0
    ensures v % (256 * r) == v % 256 + 256 * (v / 256 % r)
  {
    var q := v / 256 / r;
    assert v / 256 == r * q + v / 256 % r;
    assert v == 256 * r * q + (v % 256 + 256 * (v / 256 % r));
    Remainder(v, 256 * r, q, v % 256 + 256 * (v / 256 % r));
  }

  lemma Remainder(v: int, d: int, q: int, m: int)
    requires 0 <= m < d && v == d * q + m
    ensures v % d == m
  {
    var e := v / d - q;
    assert d * e == m - v % d;
    Multiple(d, e);
  }

  lemma {:induction false} Multiple(d: int, e: int)
    requires d > 0
    ensures e > 0 ==> d * e >= d
    ensures e < 0 ==> d * e <= -d
    decreases if e < 0 then -e else e
  {
    if e > 1 {
      Multiple(d, e - 1);
      assert d * e == d * (e - 1) + d;
    } else if e < -1 {
      Multiple(d, e + 1);
      assert d * e == d * (e + 1) - d;
    }
  }
}
