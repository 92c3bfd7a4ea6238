/** Reading and writing a byte buffer through kernel operations that may complete in part. */
module ReadWriteBytes {
  import opened Wrappers
  import opened Bytes

  const ID_READ := 2
  const ID_WRITE := 4

  // An operation queued for the kernel: which, and on what part of the buffer.
  datatype Request = Request(op: int, start: nat, len: nat)

  // How much of a buffer has been moved, and how much is left.
  datatype Transfer = Transfer(total: nat, left: nat)

  function Advance(t: Transfer, res: nat): Transfer
    requires res <= t.left
  {
    Transfer(t.total + res, t.left - res)
  }

  // The conversion of a size to int.
  function ToInt(n: nat): int {
    var m := n % 0x1_0000_0000;
    if m < 0x8000_0000 then m else m - 0x1_0000_0000
  }

  class ReadWriteBytes {
    var stickyRead: bool
    var readBuffer: array<Byte>
    var readBytesLeft: nat
    var readTotalProcessed: nat
    var writeBuffer: array<Byte>
    var writeBytesLeft: nat
    var writeTotalProcessed: nat
    var requests: seq<Request>       // what has been queued, in order

    constructor ()
      ensures requests == []
    {
      stickyRead := false;
      readBuffer, writeBuffer := new Byte[0], new Byte[0];
      readBytesLeft, readTotalProcessed := 0, 0;
      writeBytesLeft, writeTotalProcessed := 0, 0;
      requests := [];
    }

    ghost function Reading(): Transfer
      reads this
    {
      Transfer(readTotalProcessed, readBytesLeft)
    }

    ghost function Writing(): Transfer
      reads this
    {
      Transfer(writeTotalProcessed, writeBytesLeft)
    }

    method Read(buf: array<Byte>, len: nat, readAll: bool)
      modifies this
      ensures readBuffer == buf && stickyRead == readAll && Reading() == Transfer(0, len)
      ensures requests == old(requests) + [Request(ID_READ, 0, len)]
      ensures Writing() == old(Writing()) && writeBuffer == old(writeBuffer)
    {
      stickyRead := readAll;
      readBuffer := buf;
      readBytesLeft := len;
      readTotalProcessed := 0;
      requests := requests + [Request(ID_READ, 0, readBytesLeft)];
    }

    method Write(buf: array<Byte>, len: nat)
      modifies this
      ensures writeBuffer == buf && Writing() == Transfer(0, len)
      ensures requests == old(requests) + [Request(ID_WRITE, 0, len)]
      ensures Reading() == old(Reading()) && readBuffer == old(readBuffer) && stickyRead == old(stickyRead)
    {
      writeBuffer := buf;
      writeBytesLeft := len;
      writeTotalProcessed := 0;
      requests := requests + [Request(ID_WRITE, 0, writeBytesLeft)];
    }

    /** A completion of the kernel, which never moves more than it was asked to. Anything but
        progress ends the operation as failed; progress on the buffer either finishes it or
        queues exactly what is left. */
    method OnYield(op: int, res: int) returns (r: Option<(bool, int)>)
      requires op == ID_READ ==> res <= readBytesLeft
      requires op == ID_WRITE ==> res <= writeBytesLeft
      modifies this
      ensures readBuffer == old(readBuffer) && writeBuffer == old(writeBuffer) && stickyRead == old(stickyRead)
      ensures Reading() == if op == ID_READ && res > 0 then Advance(old(Reading()), res) else old(Reading())
      ensures Writing() == if op == ID_WRITE && res > 0 then Advance(old(Writing()), res) else old(Writing())
      ensures var more := res > 0
                          && ((op == ID_WRITE && writeBytesLeft > 0) || (op == ID_READ && stickyRead && readBytesLeft > 0));
              && requests == old(requests) + (if more then [Rest(op)] else [])
              && r == if more || (res > 0 && op != ID_READ && op != ID_WRITE) then None
                      else Some((res <= 0, if res <= 0 then res else ToInt(Rest(op).start)))
    {
      if res <= 0 {
        return Some((true, res));
      }
      if op == ID_READ {
        r := PrepareRead(res);
      } else if op == ID_WRITE {
        r := PrepareWrite(res);
      } else {
        r := None;
      }
    }

    // What is left of an operation.
    ghost function Rest(op: int): Request
      reads this
    {
      if op == ID_READ then Request(op, readTotalProcessed, readBytesLeft)
      else Request(op, writeTotalProcessed, writeBytesLeft)
    }

    method PrepareRead(res: nat) returns (r: Option<(bool, int)>)
      requires res <= readBytesLeft
      modifies `readBytesLeft, `readTotalProcessed, `requests
      ensures Reading() == Advance(old(Reading()), res)
      ensures requests == old(requests) + (if stickyRead && readBytesLeft > 0 then [Rest(ID_READ)] else [])
      ensures r == if stickyRead && readBytesLeft > 0 then None else Some((false, ToInt(readTotalProcessed)))
    {
      readBytesLeft := readBytesLeft - res;
      readTotalProcessed := readTotalProcessed + res;
      if stickyRead && readBytesLeft > 0 {
        requests := requests + [Request(ID_READ, readTotalProcessed, readBytesLeft)];
        return None;
      }
      return Some((false, ToInt(readTotalProcessed)));
    }

    method PrepareWrite(res: nat) returns (r: Option<(bool, int)>)
      requires res <= writeBytesLeft
      modifies `writeBytesLeft, `writeTotalProcessed, `requests
      ensures Writing() == Advance(old(Writing()), res)
      ensures requests == old(requests) + (if writeBytesLeft > 0 then [Rest(ID_WRITE)] else [])
      ensures r == if writeBytesLeft > 0 then None else Some((false, ToInt(writeTotalProcessed)))
    {
      writeBytesLeft := writeBytesLeft - res;
      writeTotalProcessed := writeTotalProcessed + res;
      if writeBytesLeft > 0 {
        requests := requests + [Request(ID_WRITE, writeTotalProcessed, writeBytesLeft)];
        return None;
      }
      return Some((false, ToInt(writeTotalProcessed)));
    }

    /** The dispatcher delivers the completions of a write one after another. */
    method Deliver(rs: seq<nat>) returns (r: Option<(bool, int)>)
      requires Completions(Writing(), rs)
      modifies this
      ensures Writing() == After(old(Writing()), rs) && requests == old(requests) + Rearms(ID_WRITE, old(Writing()), rs)
      ensures rs != [] ==> r == if writeBytesLeft > 0 then None else Some((false, ToInt(writeTotalProcessed)))
      decreases |rs|
    {
      r := None;
      if rs != [] {
        r := OnYield(ID_WRITE, rs[0]);
        if |rs| > 1 {
          r := Deliver(rs[1..]);
        }
      }
    }

    /** And those of a read of everything. */
    method DeliverRead(rs: seq<nat>) returns (r: Option<(bool, int)>)
      requires stickyRead && Completions(Reading(), rs)
      modifies this
      ensures stickyRead && readBuffer == old(readBuffer)
      ensures Reading() == After(old(Reading()), rs) && requests == old(requests) + Rearms(ID_READ, old(Reading()), rs)
      ensures rs != [] ==> r == if readBytesLeft > 0 then None else Some((false, ToInt(readTotalProcessed)))
      decreases |rs|
    {
      r := None;
      if rs != [] {
        r := OnYield(ID_READ, rs[0]);
        if |rs| > 1 {
          r := DeliverRead(rs[1..]);
        }
      }
    }
  }

  // ---------------------------------------------------------------- whole transfers

  // Completions the kernel may report, each of the latest request, until nothing is left.
  predicate Completions(t: Transfer, rs: seq<nat>)
    decreases |rs|
  {
    rs != [] ==> 0 < rs[0] <= t.left && Completions(Advance(t, rs[0]), rs[1..])
  }

  function Sum(rs: seq<nat>): nat { if rs == [] then 0 else rs[0] + Sum(rs[1..]) }

  function After(t: Transfer, rs: seq<nat>): Transfer
    requires Completions(t, rs)
    decreases |rs|
  {
    if rs == [] then t else After(Advance(t, rs[0]), rs[1..])
  }

  // The requests queued after each completion, for what is left.
  function Rearms(op: int, t: Transfer, rs: seq<nat>): seq<Request>
    requires Completions(t, rs)
    decreases |rs|, 0
  {
    if rs == [] then [] else Requests(op, Advance(t, rs[0]), rs[1..])
  }

  // The requests of an operation: its first and the later ones.
  function Requests(op: int, t: Transfer, rs: seq<nat>): seq<Request>
    requires Completions(t, rs)
    decreases |rs|, 1
  {
    (if t.left > 0 then [Request(op, t.total, t.left)] else []) + Rearms(op, t, rs)
  }

  // Each completion is within its request, and each request within a buffer of n bytes.
  predicate Serves(reqs: seq<Request>, rs: seq<nat>, n: nat)
    decreases |rs|
  {
    rs != [] ==>
      reqs != [] && rs[0] <= reqs[0].len && reqs[0].start + reqs[0].len <= n && Serves(reqs[1..], rs[1..], n)
  }

  // What the kernel sends: from each request, as much as it reports.
  function Sent(buf: seq<Byte>, reqs: seq<Request>, rs: seq<nat>): seq<Byte>
    requires Serves(reqs, rs, |buf|)
    decreases |rs|
  {
    if rs == [] then [] else buf[reqs[0].start..reqs[0].start + rs[0]] + Sent(buf, reqs[1..], rs[1..])
  }

  function Sizes(ds: seq<seq<Byte>>): (rs: seq<nat>) { if ds == [] then [] else [|ds[0]|] + Sizes(ds[1..]) }

  function Concat(ds: seq<seq<Byte>>): seq<Byte> { if ds == [] then [] else ds[0] + Concat(ds[1..]) }

  // A buffer into which the kernel has received data, at the start of each request.
  function Received(buf: seq<Byte>, reqs: seq<Request>, ds: seq<seq<Byte>>): (r: seq<Byte>)
    requires Serves(reqs, Sizes(ds), |buf|)
    decreases |ds|
  {
    if ds == [] then buf
    else
      var s := reqs[0].start;
      Received(buf[..s] + ds[0] + buf[s + |ds[0]|..], reqs[1..], ds[1..])
  }

  lemma {:induction false} AfterOk(t: Transfer, rs: seq<nat>)
    requires Completions(t, rs)
    ensures |rs| <= Sum(rs) <= t.left
    ensures After(t, rs) == Transfer(t.total + Sum(rs), t.left - Sum(rs))
    decreases |rs|
  {
    if rs != [] {
      AfterOk(Advance(t, rs[0]), rs[1..]);
    }
  }

  lemma RequestsStep(op: int, t: Transfer, rs: seq<nat>)
    requires Completions(t, rs) && rs != []
    ensures Requests(op, t, rs) != [] && Requests(op, t, rs)[0] == Request(op, t.total, t.left)
    ensures Requests(op, t, rs)[1..] == Requests(op, Advance(t, rs[0]), rs[1..])
  {
  }

  // Every request is of the operation, and covers exactly what is left when it is queued.
  lemma {:induction false} RequestsServe(op: int, t: Transfer, rs: seq<nat>)
    requires Completions(t, rs)
    ensures Serves(Requests(op, t, rs), rs, t.total + t.left)
    ensures forall q :: q in Requests(op, t, rs) ==> q.op == op
    decreases |rs|
  {
    if rs != [] {
      RequestsServe(op, Advance(t, rs[0]), rs[1..]);
      RequestsStep(op, t, rs);
    }
  }

  /** However the kernel splits a write, it has at every moment sent a prefix of the buffer, once
      and in order; the write ends exactly when all of it is sent, after at most one completion
      for each byte. */
  lemma WriteRun(buf: seq<Byte>, start: Transfer, rs: seq<nat>)
    requires start == Transfer(0, |buf|) && Completions(start, rs)
    ensures Serves(Requests(ID_WRITE, start, rs), rs, |buf|)
    ensures forall q :: q in Requests(ID_WRITE, start, rs) ==> q.op == ID_WRITE
    ensures Sum(rs) <= |buf| && Sent(buf, Requests(ID_WRITE, start, rs), rs) == buf[..Sum(rs)]
    ensures After(start, rs).left == 0 <==> Sum(rs) == |buf|
    ensures |rs| <= |buf|
  {
    AfterOk(start, rs);
    RequestsServe(ID_WRITE, start, rs);
    SentFrom(buf, start, rs);
  }

  /** A finished transfer reports the full length exactly if that fits in an int, and is taken
      for a failure by a caller that expects a positive number whenever the low 32 bits are not
      those of a positive int. */
  lemma ReportedIff(len: nat, rs: seq<nat>)
    requires Completions(Transfer(0, len), rs) && After(Transfer(0, len), rs).left == 0
    ensures ToInt(After(Transfer(0, len), rs).total) == len <==> len < 0x8000_0000
    ensures ToInt(After(Transfer(0, len), rs).total) > 0 <==> 0 < len % 0x1_0000_0000 < 0x8000_0000
  {
    AfterOk(Transfer(0, len), rs);
    ToIntIs(len);
  }

  lemma ToIntIs(n: nat)
    ensures ToInt(n) == n <==> n < 0x8000_0000
    ensures ToInt(n) > 0 <==> 0 < n % 0x1_0000_0000 < 0x8000_0000
  {
    if n < 0x8000_0000 {
      assert n % 0x1_0000_0000 == n;
    }
  }

  lemma {:induction false} SentFrom(buf: seq<Byte>, t: Transfer, rs: seq<nat>)
    requires Completions(t, rs) && t.total + t.left == |buf|
    requires Serves(Requests(ID_WRITE, t, rs), rs, |buf|)
    ensures Sum(rs) <= t.left && Sent(buf, Requests(ID_WRITE, t, rs), rs) == buf[t.total..t.total + Sum(rs)]
    decreases |rs|
  {
    if rs != [] {
      RequestsStep(ID_WRITE, t, rs);
      SentFrom(buf, Advance(t, rs[0]), rs[1..]);
    }
  }

  /** However the kernel splits a read of everything, the buffer then holds what arrived, in
      order, followed by what it held before; when nothing is left it has been filled exactly. */
  lemma ReadRun(buf: seq<Byte>, start: Transfer, ds: seq<seq<Byte>>)
    requires start == Transfer(0, |buf|) && Completions(start, Sizes(ds))
    ensures Serves(Requests(ID_READ, start, Sizes(ds)), Sizes(ds), |buf|)
    ensures forall q :: q in Requests(ID_READ, start, Sizes(ds)) ==> q.op == ID_READ
    ensures |Concat(ds)| == Sum(Sizes(ds)) <= |buf|
    ensures var filled := Received(buf, Requests(ID_READ, start, Sizes(ds)), ds);
            && filled == Concat(ds) + buf[|Concat(ds)|..]
            && (After(start, Sizes(ds)).left == 0 ==> filled == Concat(ds))
  {
    AfterOk(start, Sizes(ds));
    RequestsServe(ID_READ, start, Sizes(ds));
    ReceivedFrom(buf, start, ds);
    Start(buf, Concat(ds));
  }

  lemma Start<T>(buf: seq<T>, a: seq<T>)
    ensures buf[..0] + a == a && a + buf[|buf|..] == a
  {
  }

  lemma ReceivedNext(buf: seq<Byte>, reqs: seq<Request>, ds: seq<seq<Byte>>, next: seq<Byte>)
    requires ds != [] && Serves(reqs, Sizes(ds), |buf|)
    requires next == buf[..reqs[0].start] + ds[0] + buf[reqs[0].start + |ds[0]|..]
    requires |next| == |buf| && Serves(reqs[1..], Sizes(ds[1..]), |next|)
    ensures Received(buf, reqs, ds) == Received(next, reqs[1..], ds[1..])
  {
  }

  // The first data goes where the transfer stands; the rest is received into what that gives.
  lemma ReceivedStep(buf: seq<Byte>, t: Transfer, ds: seq<seq<Byte>>, next: seq<Byte>)
    requires Completions(t, Sizes(ds)) && t.total + t.left == |buf| && ds != []
    requires Serves(Requests(ID_READ, t, Sizes(ds)), Sizes(ds), |buf|)
    requires next == buf[..t.total] + ds[0] + buf[t.total + |ds[0]|..]
    ensures var u := Advance(t, |ds[0]|);
            && Completions(u, Sizes(ds[1..])) && |next| == |buf|
            && Serves(Requests(ID_READ, u, Sizes(ds[1..])), Sizes(ds[1..]), |next|)
            && Received(buf, Requests(ID_READ, t, Sizes(ds)), ds)
               == Received(next, Requests(ID_READ, u, Sizes(ds[1..])), ds[1..])
  {
    var rs, u := Sizes(ds), Advance(t, |ds[0]|);
    assert rs[0] == |ds[0]| && rs[1..] == Sizes(ds[1..]);
    RequestsStep(ID_READ, t, rs);
    RequestsServe(ID_READ, u, rs[1..]);
    var reqs := Requests(ID_READ, t, rs);
    assert reqs[0].start == t.total && reqs[1..] == Requests(ID_READ, u, rs[1..]);
    ReceivedNext(buf, reqs, ds, next);
  }

  lemma {:induction false} ReceivedFrom(buf: seq<Byte>, t: Transfer, ds: seq<seq<Byte>>)
    requires Completions(t, Sizes(ds)) && t.total + t.left == |buf|
    requires Serves(Requests(ID_READ, t, Sizes(ds)), Sizes(ds), |buf|)
    ensures |Concat(ds)| == Sum(Sizes(ds)) <= t.left
    ensures Received(buf, Requests(ID_READ, t, Sizes(ds)), ds)
            == buf[..t.total] + Concat(ds) + buf[t.total + |Concat(ds)|..]
    decreases |ds|
  {
    if ds != [] {
      var u := Advance(t, |ds[0]|);
      var next := buf[..t.total] + ds[0] + buf[u.total..];
      ReceivedStep(buf, t, ds, next);
      ReceivedFrom(next, u, ds[1..]);
      Filled(buf, t.total, ds[0], Concat(ds[1..]), next, Concat(ds));
    }
  }

  // Data put at one place and more data right after it.
  lemma Filled<T>(buf: seq<T>, k: nat, a: seq<T>, b: seq<T>, next: seq<T>, both: seq<T>)
    requires k + |a| + |b| <= |buf| && both == a + b
    requires next == buf[..k] + a + buf[k + |a|..]
    ensures next[..k + |a|] + b + next[k + |a| + |b|..] == buf[..k] + both + buf[k + |both|..]
  {
    assert next[..k + |a|] == buf[..k] + a;
    assert next[k + |a| + |b|..] == buf[k + |both|..];
  }
}
