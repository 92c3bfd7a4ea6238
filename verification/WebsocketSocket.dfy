/** The server's end of a WebSocket: one frame is built in a fresh buffer and handed to the
    byte writer. */
module WebsocketSocket {
  import opened Wrappers
  import opened Bytes
  import opened Streams
  import opened Frames

  const FIN := 128
  const OPCODE_BINARY := 2

  // The header write_frame puts before a payload of a given length.
  function Header(len: nat): seq<Byte> {
    [130] + if len <= 125 then [len]
            else if len <= 0xFFFF then [126] + BigEndian(len, 2)
            else [127, 0, 0, 0, 0] + BigEndian(len, 4)
  }

  function Written(payload: seq<Byte>): seq<Byte> { Header(|payload|) + payload }

  class WebsocketSocket {
    var wBuf: array?<Byte>
    var wLen: nat

    constructor ()
      ensures wBuf == null
    {
      wBuf, wLen := null, 0;
    }

    /** Lays a frame out in a new buffer; the write it arms covers the whole buffer. */
    method WriteFrame(buf: seq<Byte>)
      modifies this
      ensures wBuf != null && fresh(wBuf) && wLen == wBuf.Length
      ensures wBuf[..] == Written(buf)
    {
      var len := |buf|;
      wLen := 2 + (if len > 125 then if len > 0xFFFF then 8 else 2 else 0) + len;
      var w := new Byte[wLen];
      wBuf := w;
      wBuf[0] := FIN + OPCODE_BINARY;
      var idx := 2;
      if len <= 125 {
        wBuf[1] := len;
      } else if len <= 0xFFFF {
        wBuf[1] := 0x7E;
        wBuf[2] := len / 0x100 % 0x100;
        wBuf[3] := len % 0x100;
        idx := 4;
      } else {
        wBuf[1] := 0x7F;
        wBuf[2] := 0;
        wBuf[3] := 0;
        wBuf[4] := 0;
        wBuf[5] := 0;
        wBuf[6] := len / 0x100_0000 % 0x100;
        wBuf[7] := len / 0x1_0000 % 0x100;
        wBuf[8] := len / 0x100 % 0x100;
        wBuf[9] := len % 0x100;
        idx := 10;
      }
      ghost var header := w[..idx];
      HeaderIs(header, len);
      Memcpy(w, idx, buf);
      assert w[..] == w[..idx] + w[idx..];
    }

    /** The byte writer reports what it sent; the buffer goes when all went well. */
    method OnYield(returnCode: int) returns (r: Option<(bool, int)>)
      modifies this
      ensures r == Some((returnCode <= 0, returnCode))
      ensures wLen == old(wLen) && wBuf == if returnCode <= 0 then old(wBuf) else null
    {
      if returnCode <= 0 {
        return Some((true, returnCode));
      }
      wBuf := null;
      return Some((false, returnCode));
    }
  }

  method Memcpy(w: array<Byte>, idx: nat, buf: seq<Byte>)
    requires idx + |buf| == w.Length
    modifies w
    ensures w[..idx] == old(w[..idx]) && w[idx..] == buf
  {
    var i := 0;
    while i < |buf|
      invariant i <= |buf| && w[..idx] == old(w[..idx])
      invariant forall k :: 0 <= k < i ==> w[idx + k] == buf[k]
    {
      w[idx + i] := buf[i];
      i := i + 1;
    }
  }

  lemma HeaderIs(h: seq<Byte>, len: nat)
    requires |h| == (if len <= 125 then 2 else if len <= 0xFFFF then 4 else 10) && h[0] == 130
    requires len <= 125 ==> h[1] == len
    requires 125 < len <= 0xFFFF ==> h[1] == 126 && h[2] == len / 0x100 % 0x100 && h[3] == len % 0x100
    requires len > 0xFFFF ==> h[1..6] == [127, 0, 0, 0, 0] && h[6] == len / 0x100_0000 % 0x100
                              && h[7] == len / 0x1_0000 % 0x100 && h[8] == len / 0x100 % 0x100 && h[9] == len % 0x100
    ensures h == Header(len)
  {
    TwoBytes(len);
    FourBytes(len);
  }

  lemma TwoBytes(v: nat)
    ensures BigEndian(v, 2) == [v / 0x100 % 0x100, v % 0x100]
  {
    assert BigEndian(v / 0x100, 1) == [v / 0x100 % 0x100];
  }

  lemma FourBytes(v: nat)
    ensures BigEndian(v, 4) == [v / 0x100_0000 % 0x100, v / 0x1_0000 % 0x100, v / 0x100 % 0x100, v % 0x100]
  {
    TwoBytes(v / 0x1_0000);
    assert v / 0x1_0000 / 0x100 == v / 0x100_0000;
    assert v / 0x100 / 0x100 == v / 0x1_0000;
  }

  // ---------------------------------------------------------------- meaning

  function BinaryFrame(payload: seq<Byte>): Frame { Frame(true, BINARY, payload) }

  // Eight bytes start with four zeros just when the number fits in the other four.
  lemma HighBytes(v: nat)
    requires v < 0x1_0000_0000_0000_0000
    ensures BigEndian(v, 8) == [0, 0, 0, 0] + BigEndian(v, 4) <==> v < 0x1_0000_0000
  {
    Ranges();
    BigEndianSplit(v, 4, 4);
    var high := High(v, 4);
    HighBound(v, 4, 4);
    assert BigEndian(v, 8)[..4] == BigEndian(high, 4);
    Fits(high, 4);
    Fits(0, 4);
    FourBytes(0);
    assert ([0, 0, 0, 0] + BigEndian(v, 4))[..4] == [0, 0, 0, 0];
  }

  /** What is written is the protocol's frame, in the shortest form, just when the payload's
      length fits in four bytes. */
  lemma WrittenIsFrame(payload: seq<Byte>)
    requires FrameOk(BinaryFrame(payload))
    ensures Written(payload) == FrameBytes(BinaryFrame(payload)) <==> |payload| < 0x1_0000_0000
  {
    var len := |payload|;
    HighBytes(len);
    if len > 0xFFFF {
      var h := [130] + LengthField(len);
      assert Header(len)[2..] == [0, 0, 0, 0] + BigEndian(len, 4);
      assert h[2..] == BigEndian(len, 8);
      assert Written(payload)[..10] == Header(len) && FrameBytes(BinaryFrame(payload))[..10] == h;
      assert h == [130, 127] + h[2..] && Header(len) == [130, 127] + Header(len)[2..];
    } else {
      assert Header(len) == [130] + LengthField(len);
    }
  }

  /** A client reads back the payload exactly when its length fits in four bytes: beyond that the
      four high bytes of the length are lost. */
  lemma ReadBackIff(payload: seq<Byte>)
    ensures Parse(Written(payload)) == Complete(BinaryFrame(payload), []) <==> |payload| < 0x1_0000_0000
  {
    var len := |payload|;
    if len < 0x1_0000_0000 {
      WrittenIsFrame(payload);
      ParseFrame(BinaryFrame(payload), []);
      assert Written(payload) + [] == Written(payload);
    } else {
      LengthLost(payload);
    }
  }

  lemma LengthLost(payload: seq<Byte>)
    requires |payload| >= 0x1_0000_0000
    ensures ParseLength(Written(payload)) in {Invalid, Known(10, |payload| % 0x1_0000_0000)}
  {
    var len := |payload|;
    var field := [0, 0, 0, 0] + BigEndian(len, 4);
    assert Written(payload)[2..10] == field;
    Ranges();
    BigEndianSplit(len % 0x1_0000_0000, 4, 4);
    HighBytes(len % 0x1_0000_0000);
    LowBytes(len, 4);
    Fits(len % 0x1_0000_0000, 8);
  }

  /** The header by the protocol's own fields: the final frame of a binary message, not masked, with
      the length in 7, 16 or 64 bits; then the payload. The longest form has 0 for its high half. */
  lemma HeaderFields(payload: seq<Byte>)
    ensures var w, len := Written(payload), |payload|;
            && |w| >= 2 && w[0] == 0x80 + 0x2
            && (len <= 125 ==> w[1] == len && w[2..] == payload)
            && (125 < len <= 0xFFFF ==>
                  |w| == 4 + len && w[1] == 126 && w[2] as int * 0x100 + w[3] == len && w[4..] == payload)
            && (len > 0xFFFF ==>
                  && |w| == 10 + len && w[1] == 127 && w[2] == w[3] == w[4] == w[5] == 0 && w[10..] == payload
                  && w[6] as int * 0x100_0000 + w[7] as int * 0x1_0000 + w[8] as int * 0x100 + w[9] == len % 0x1_0000_0000)
  {
    var len := |payload|;
    assert Written(payload)[..|Header(len)|] == Header(len);
    TwoBytes(len);
    FourBytes(len);
    FourBytesValue(len);
  }

  lemma FourBytesValue(v: nat)
    ensures v / 0x100_0000 % 0x100 * 0x100_0000 + v / 0x1_0000 % 0x100 * 0x1_0000 + v / 0x100 % 0x100 * 0x100 + v % 0x100
            == v % 0x1_0000_0000
  {
    Ranges();
    BigEndianValue(v, 4);
    FourBytes(v);
    FourDigits(v / 0x100_0000 % 0x100, v / 0x1_0000 % 0x100, v / 0x100 % 0x100, v % 0x100);
  }

  lemma FourDigits(a: Byte, b: Byte, c: Byte, d: Byte)
    ensures FromBigEndian([a, b, c, d]) == a as int * 0x100_0000 + b as int * 0x1_0000 + c as int * 0x100 + d
  {
    var one: seq<Byte>, two: seq<Byte>, three: seq<Byte>, four: seq<Byte> := [a], [a, b], [a, b, c], [a, b, c, d];
    assert four[..3] == three && three[..2] == two && two[..1] == one && one[..0] == [];
    assert FromBigEndian(one) == a;
    assert FromBigEndian(two) == a as int * 0x100 + b;
    assert FromBigEndian(three) == a as int * 0x1_0000 + b as int * 0x100 + c;
  }
}
