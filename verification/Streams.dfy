/** Streams of messages in any code whose messages tell where they end. */
module Streams {
  import opened Wrappers
  import opened Bytes

  datatype Parsed<T> = Incomplete | Malformed | Complete(message: T, rest: seq<Byte>)

  type Writer<!T> = T -> seq<Byte>
  type Reader<T> = seq<Byte> -> Parsed<T>

  function Stream<T>(write: Writer<T>, ms: seq<T>): seq<Byte> {
    if ms == [] then [] else write(ms[0]) + Stream(write, ms[1..])
  }

  // The messages at the front of a stream, and the bytes left.
  function Receive<T>(read: Reader<T>, s: seq<Byte>): (seq<T>, seq<Byte>)
    decreases |s|
  {
    match read(s)
    case Incomplete => ([], s)
    case Malformed => ([], s)
    case Complete(m, rest) =>
      if |rest| >= |s| then ([], s)
      else var (ms, left) := Receive(read, rest); ([m] + ms, left)
  }

  // The reader recovers the message whatever follows it, and waits while a part is missing.
  ghost predicate Delimited<T>(write: Writer<T>, read: Reader<T>, m: T) {
    && write(m) != []
    && (forall t :: read(write(m) + t) == Complete(m, t))
    && (forall k :: 0 <= k < |write(m)| ==> read(write(m)[..k]) == Incomplete)
  }

  ghost predicate AllDelimited<T>(write: Writer<T>, read: Reader<T>, ms: seq<T>) {
    forall i :: 0 <= i < |ms| ==> Delimited(write, read, ms[i])
  }

  // Whole messages and part of another are received as those messages.
  lemma {:induction false} ReceiveStream<T>(write: Writer<T>, read: Reader<T>, ms: seq<T>, t: seq<Byte>)
    requires AllDelimited(write, read, ms) && read(t) == Incomplete
    ensures Receive(read, Stream(write, ms) + t) == (ms, t)
  {
    if ms == [] {
      assert Stream(write, ms) + t == t;
    } else {
      assert Delimited(write, read, ms[0]);
      var s := Stream(write, ms[1..]) + t;
      assert Stream(write, ms) + t == write(ms[0]) + s;
      assert read(write(ms[0]) + s) == Complete(ms[0], s);
      ReceiveStream(write, read, ms[1..], t);
      assert [ms[0]] + ms[1..] == ms;
    }
  }

  // The number of whole messages among the first k bytes of a stream.
  function Whole<T>(write: Writer<T>, ms: seq<T>, k: nat): (n: nat)
    ensures n <= |ms|
  {
    if ms == [] || k < |write(ms[0])| then 0 else 1 + Whole(write, ms[1..], k - |write(ms[0])|)
  }

  // What has arrived of the message after the whole ones.
  function Part<T>(write: Writer<T>, ms: seq<T>, k: nat): (p: nat) {
    if ms == [] || k < |write(ms[0])| then k else Part(write, ms[1..], k - |write(ms[0])|)
  }

  lemma {:induction false} PrefixSplit<T>(write: Writer<T>, ms: seq<T>, k: nat)
    requires k <= |Stream(write, ms)|
    ensures var n, p := Whole(write, ms, k), Part(write, ms, k);
            if n < |ms| then p < |write(ms[n])| && Stream(write, ms)[..k] == Stream(write, ms[..n]) + write(ms[n])[..p]
            else Stream(write, ms)[..k] == Stream(write, ms[..n])
  {
    if ms != [] {
      var w := write(ms[0]);
      if k < |w| {
        assert Stream(write, ms)[..k] == w[..k];
        assert ms[..0] == [];
      } else {
        PrefixSplit(write, ms[1..], k - |w|);
        var n := Whole(write, ms, k);
        assert ms[..n][1..] == ms[1..][..n - 1] && ms[..n][0] == ms[0];
        assert Stream(write, ms)[..k] == w + Stream(write, ms[1..])[..k - |w|];
        if n < |ms| {
          Assoc(w, Stream(write, ms[1..][..n - 1]), write(ms[n])[..Part(write, ms, k)]);
        }
      }
    }
  }

  lemma {:induction false} WholeStream<T>(write: Writer<T>, ms: seq<T>)
    ensures Whole(write, ms, |Stream(write, ms)|) == |ms|
  {
    if ms != [] {
      WholeStream(write, ms[1..]);
    }
  }

  /** At every moment the receiver has exactly the messages that have arrived whole: any prefix
      of a stream is received as a prefix of its messages, and the whole stream as all of them. */
  lemma PrefixReceived<T>(write: Writer<T>, read: Reader<T>, ms: seq<T>, k: nat)
    requires AllDelimited(write, read, ms) && read([]) == Incomplete && k <= |Stream(write, ms)|
    ensures Receive(read, Stream(write, ms)[..k]).0 == ms[..Whole(write, ms, k)]
    ensures k == |Stream(write, ms)| ==> Receive(read, Stream(write, ms)[..k]).0 == ms
  {
    var n, p := Whole(write, ms, k), Part(write, ms, k);
    PrefixSplit(write, ms, k);
    WholeStream(write, ms);
    assert AllDelimited(write, read, ms[..n]);
    if n < |ms| {
      assert Delimited(write, read, ms[n]);
      ReceiveStream(write, read, ms[..n], write(ms[n])[..p]);
    } else {
      ReceiveStream(write, read, ms[..n], []);
      assert Stream(write, ms[..n]) + [] == Stream(write, ms[..n]);
      assert ms[..n] == ms;
    }
  }
}
