/** WebSocket frames as section 5.2 of RFC 6455 lays them out, and a receiver for a stream of
    them. */
module Frames {
  import opened Bytes
  import opened Streams

  type Opcode = n: int | 0 <= n < 16

  const BINARY: Opcode := 2

  datatype Frame = Frame(fin: bool, opcode: Opcode, payload: seq<Byte>)

  // The longest payload that the protocol admits.
  predicate FrameOk(f: Frame) { |f.payload| < 0x8000_0000_0000_0000 }

  // The payload length in the shortest of the three forms.
  function LengthField(len: nat): seq<Byte> {
    if len <= 125 then [len]
    else if len <= 0xFFFF then [126] + BigEndian(len, 2)
    else [127] + BigEndian(len, 8)
  }

  // An unmasked frame without extensions.
  function FrameBytes(f: Frame): seq<Byte> {
    [(if f.fin then 128 else 0) + f.opcode] + LengthField(|f.payload|) + f.payload
  }

  // Where the payload starts and how long it is, once the header has arrived.
  datatype Header = Unknown | Invalid | Known(start: nat, len: nat)

  function ParseLength(s: seq<Byte>): Header
    requires |s| >= 2
  {
    if s[1] <= 125 then Known(2, s[1])
    else if s[1] == 126 then
      if |s| < 4 then Unknown
      else
        var len := FromBigEndian(s[2..4]);
        if len <= 125 then Invalid else Known(4, len)
    else if s[1] == 127 then
      if |s| < 10 then Unknown
      else
        var len := FromBigEndian(s[2..10]);
        if len <= 0xFFFF || len >= 0x8000_0000_0000_0000 then Invalid else Known(10, len)
    else Invalid // masked
  }

  /** What a client makes of the bytes it has received. */
  function Parse(s: seq<Byte>): Parsed<Frame> {
    if |s| < 2 then Incomplete
    else if s[0] / 16 % 8 != 0 then Malformed // reserved bits
    else
      match ParseLength(s)
      case Unknown => Incomplete
      case Invalid => Malformed
      case Known(start, len) =>
        if |s| < start + len then Incomplete
        else Complete(Frame(s[0] >= 128, s[0] % 16, s[start..start + len]), s[start + len..])
  }

  // ---------------------------------------------------------------- one frame

  lemma LengthFieldParses(b: Byte, len: nat, t: seq<Byte>)
    requires len < 0x8000_0000_0000_0000
    ensures ParseLength([b] + LengthField(len) + t) == Known(1 + |LengthField(len)|, len)
  {
    Ranges();
    var s := [b] + LengthField(len) + t;
    if len <= 125 {
      assert s[1] == len;
    } else if len <= 0xFFFF {
      Fits(len, 2);
      assert s[1] == 126 && s[2..4] == BigEndian(len, 2);
    } else {
      Fits(len, 8);
      assert s[1] == 127 && s[2..10] == BigEndian(len, 8);
    }
  }

  /** A client recovers a frame, whatever follows it. */
  lemma ParseFrame(f: Frame, t: seq<Byte>)
    requires FrameOk(f)
    ensures Parse(FrameBytes(f) + t) == Complete(f, t)
  {
    var b := (if f.fin then 128 else 0) + f.opcode;
    var l := LengthField(|f.payload|);
    var s := FrameBytes(f) + t;
    assert s == [b] + l + (f.payload + t);
    LengthFieldParses(b, |f.payload|, f.payload + t);
    Cut([b] + l, f.payload, t);
  }

  lemma Cut<T>(a: seq<T>, b: seq<T>, c: seq<T>)
    ensures (a + (b + c))[|a|..|a| + |b|] == b && (a + (b + c))[|a| + |b|..] == c
  {
  }

  // A client that has received only part of a frame waits for the rest.
  lemma ParsePart(f: Frame, k: nat)
    requires FrameOk(f) && k < |FrameBytes(f)|
    ensures Parse(FrameBytes(f)[..k]) == Incomplete
  {
    var s := FrameBytes(f);
    ParseFrame(f, []);
    assert s + [] == s;
    LengthFieldParses(s[0], |f.payload|, f.payload);
    assert s == [s[0]] + LengthField(|f.payload|) + f.payload;
    if k >= 2 {
      var p := s[..k];
      assert p[0] == s[0] && p[1] == s[1];
      if s[1] == 126 && k >= 4 { assert p[2..4] == s[2..4]; }
      if s[1] == 127 && k >= 10 { assert p[2..10] == s[2..10]; }
    }
  }

  // ---------------------------------------------------------------- streams

  ghost predicate AllOk(fs: seq<Frame>) { forall i :: 0 <= i < |fs| ==> FrameOk(fs[i]) }

  /** Frames tell where they end, so a client of a stream of them has, at every moment, exactly
      those that have arrived whole. */
  lemma FramesReceived(fs: seq<Frame>, k: nat)
    requires AllOk(fs) && k <= |Stream(FrameBytes, fs)|
    ensures Receive(Parse, Stream(FrameBytes, fs)[..k]).0 == fs[..Whole(FrameBytes, fs, k)]
    ensures k == |Stream(FrameBytes, fs)| ==> Receive(Parse, Stream(FrameBytes, fs)[..k]).0 == fs
  {
    forall i | 0 <= i < |fs| ensures Delimited(FrameBytes, Parse, fs[i]) {
      FrameDelimited(fs[i]);
    }
    PrefixReceived(FrameBytes, Parse, fs, k);
  }

  lemma FrameDelimited(f: Frame)
    requires FrameOk(f)
    ensures Delimited(FrameBytes, Parse, f)
  {
    forall t ensures Parse(FrameBytes(f) + t) == Complete(f, t) {
      ParseFrame(f, t);
    }
    forall k | 0 <= k < |FrameBytes(f)| ensures Parse(FrameBytes(f)[..k]) == Incomplete {
      ParsePart(f, k);
    }
  }
}
