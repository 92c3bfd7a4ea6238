/** Visit statistics: a list of time bins for every endpoint of every service, that is to agree
    with the log of accesses it summarises. */
module VisitStats {
  const DELTA := 240 // seconds in a bin

  // The start of the bin of a time; the division truncates toward zero.
  function Bin(t: int): int { if t >= 0 then t / DELTA * DELTA else -(-t / DELTA * DELTA) }

  // (signed) of an unsigned long.
  function Signed(n: nat): int {
    var m := n % 0x1_0000_0000;
    if m < 0x8000_0000 then m else m - 0x1_0000_0000
  }

  type Bins = seq<(int, nat)>

  // The bins after one more access; only the last bin may be counted up.
  function AddTo(bins: Bins, t: int): Bins {
    if bins != [] && bins[|bins| - 1].0 == Bin(t) then bins[|bins| - 1 := (Bin(t), bins[|bins| - 1].1 + 1)]
    else bins + [(Bin(t), 1)]
  }

  function BinsOf(ts: seq<int>): Bins {
    if ts == [] then [] else AddTo(BinsOf(ts[..|ts| - 1]), ts[|ts| - 1])
  }

  // What the bins from lo to hi hold together.
  function Total(bins: Bins, lo: int, hi: int): nat {
    if bins == [] then 0
    else
      var (time, count) := bins[|bins| - 1];
      Total(bins[..|bins| - 1], lo, hi) + if lo <= time <= hi then count else 0
  }

  // How many times fall in bins from lo to hi.
  function CountBins(ts: seq<int>, lo: int, hi: int): nat {
    if ts == [] then 0
    else CountBins(ts[..|ts| - 1], lo, hi) + if lo <= Bin(ts[|ts| - 1]) <= hi then 1 else 0
  }

  // How many times lie in the window from lo up to, not including, hi.
  function CountWindow(ts: seq<int>, lo: int, hi: int): nat {
    if ts == [] then 0
    else CountWindow(ts[..|ts| - 1], lo, hi) + if lo <= ts[|ts| - 1] < hi then 1 else 0
  }

  lemma TotalAdd(bins: Bins, t: int, lo: int, hi: int)
    ensures Total(AddTo(bins, t), lo, hi) == Total(bins, lo, hi) + if lo <= Bin(t) <= hi then 1 else 0
  {
    var added := AddTo(bins, t);
    if bins != [] && bins[|bins| - 1].0 == Bin(t) {
      assert added[..|added| - 1] == bins[..|bins| - 1];
    } else {
      assert added[..|added| - 1] == bins;
    }
  }

  /** The bins hold every access once, whatever the clock did: even when it steps back and a bin
      is opened twice. */
  lemma {:induction false} BinsAgree(ts: seq<int>, lo: int, hi: int)
    ensures Total(BinsOf(ts), lo, hi) == CountBins(ts, lo, hi)
  {
    if ts != [] {
      BinsAgree(ts[..|ts| - 1], lo, hi);
      TotalAdd(BinsOf(ts[..|ts| - 1]), ts[|ts| - 1], lo, hi);
    }
  }

  // ---------------------------------------------------------------- bins and windows

  lemma BinOf(t: int)
    requires t >= 0
    ensures Bin(t) % DELTA == 0 && Bin(t) <= t < Bin(t) + DELTA
  {
  }

  // start is the start of a bin and end fits in an int, or the window ends before 1970.
  predicate Exact(start: int, end: nat) {
    (start % 240 == 0 && end < 0x8000_0000) || start + 240 * (end + 1) <= 0
  }

  /** Then the bins counted are exactly the times of the window. */
  lemma {:induction false} ExactWindow(ts: seq<int>, start: int, end: nat)
    requires Exact(start, end) && forall i :: 0 <= i < |ts| ==> ts[i] >= 0
    ensures CountBins(ts, start, start + DELTA * Signed(end)) == CountWindow(ts, start, start + DELTA * (end + 1))
  {
    if ts != [] {
      ExactWindow(ts[..|ts| - 1], start, end);
      var t := ts[|ts| - 1];
      BinOf(t);
      InWindow(t, Bin(t), start, end);
    }
  }

  lemma InWindow(t: nat, b: int, start: int, end: nat)
    requires Exact(start, end) && b % DELTA == 0 && b <= t < b + DELTA
    ensures start <= b <= start + DELTA * Signed(end) <==> start <= t < start + DELTA * (end + 1)
  {
    assert Signed(end) <= end && (end < 0x8000_0000 ==> Signed(end) == end);
    assert b >= 0;
  }

  // The last second of the window: its bin is not counted.
  lemma Miscounted(start: int, end: nat)
    requires !Exact(start, end)
    ensures var t := start + DELTA * (end + 1) - 1;
            && t >= 0 && CountBins([t], start, start + DELTA * Signed(end)) == 0
            && CountWindow([t], start, start + DELTA * (end + 1)) == 1
  {
    var t := start + DELTA * (end + 1) - 1;
    assert [t][..0] == [];
    BinOf(t);
    LastSecond(Bin(t), start, end);
  }

  lemma LastSecond(b: int, start: int, end: nat)
    requires !Exact(start, end) && b % DELTA == 0
    requires var t := start + DELTA * (end + 1) - 1; b <= t < b + DELTA
    ensures start + DELTA * Signed(end) < b
  {
    StartsBin(b, start, end);
    assert Signed(end) <= end && (end >= 0x8000_0000 ==> Signed(end) < end);
  }

  lemma StartsBin(b: int, start: int, end: nat)
    requires b % DELTA == 0
    ensures b == start + DELTA * end ==> start % DELTA == 0
  {
  }

  // Where that is exact, the times counted are those of the window.
  lemma ExactCount(ts: seq<int>, start: int, end: nat)
    ensures Exact(start, end) && (forall i :: 0 <= i < |ts| ==> ts[i] >= 0) ==>
              CountBins(ts, start, start + DELTA * Signed(end)) == CountWindow(ts, start, start + DELTA * (end + 1))
  {
    if Exact(start, end) && forall i :: 0 <= i < |ts| ==> ts[i] >= 0 {
      ExactWindow(ts, start, end);
    }
  }

  predicate Agrees(ts: seq<nat>, start: int, end: nat) {
    CountBins(ts, start, start + DELTA * Signed(end)) == CountWindow(ts, start, start + DELTA * (end + 1))
  }

  /** The statistics agree with the log, for every log of times since 1970, exactly when the start
      is the start of a bin and the end fits in an int, or the window ends before 1970. */
  lemma AgreesIff(start: int, end: nat)
    ensures (forall ts: seq<nat> :: Agrees(ts, start, end)) <==> Exact(start, end)
  {
    if Exact(start, end) {
      forall ts: seq<nat> ensures Agrees(ts, start, end) {
        ExactWindow(ts, start, end);
      }
    } else {
      Miscounted(start, end);
      assert !Agrees([start + DELTA * (end + 1) - 1], start, end);
    }
  }

  // ---------------------------------------------------------------- the index in place

  datatype Access = Access(endpoint: string, t: int)

  // The times of the accesses to an endpoint.
  function Times(log: seq<Access>, endpoint: string): seq<int> {
    if log == [] then []
    else
      var a := log[|log| - 1];
      Times(log[..|log| - 1], endpoint) + if a.endpoint == endpoint then [a.t] else []
  }

  type Endpoints = map<string, Bins>

  datatype Entry = Entry(service: string, endpoints: Endpoints)

  function Of(endpoints: Endpoints, endpoint: string): Bins {
    if endpoint in endpoints then endpoints[endpoint] else []
  }

  // The endpoints' bins hold exactly the accesses of the log.
  ghost predicate Indexes(endpoints: Endpoints, log: seq<Access>) {
    forall endpoint :: Of(endpoints, endpoint) == BinsOf(Times(log, endpoint))
  }

  lemma IndexesMore(endpoints: Endpoints, log: seq<Access>, endpoint: string, t: int)
    requires Indexes(endpoints, log)
    ensures Indexes(endpoints[endpoint := AddTo(Of(endpoints, endpoint), t)], log + [Access(endpoint, t)])
  {
    var more := log + [Access(endpoint, t)];
    assert more[..|more| - 1] == log;
    forall e ensures Of(endpoints[endpoint := AddTo(Of(endpoints, endpoint), t)], e) == BinsOf(Times(more, e)) {
      assert Of(endpoints, e) == BinsOf(Times(log, e));
      if e == endpoint {
        var ts := Times(log, e) + [t];
        assert Times(more, e) == ts && ts[..|ts| - 1] == Times(log, e);
      } else {
        assert Times(more, e) == Times(log, e) + [] == Times(log, e);
      }
    }
  }

  // A service registered again finds no endpoint that its first entry does not have.
  ghost predicate FirstComplete(visits: seq<Entry>) {
    forall i, j :: 0 <= i < j < |visits| && visits[i].service == visits[j].service ==>
      visits[j].endpoints.Keys <= visits[i].endpoints.Keys
  }

  function First(visits: seq<Entry>, service: string): (i: nat)
    ensures i <= |visits| && (i < |visits| ==> visits[i].service == service)
    ensures forall k :: 0 <= k < i ==> visits[k].service != service
  {
    if visits == [] || visits[0].service == service then 0 else 1 + First(visits[1..], service)
  }

  // One access, as each entry of the service records it at the time its clock reading gives.
  function Record(e: Entry, service: string, endpoint: string, t: int): Entry {
    if e.service == service then e.(endpoints := e.endpoints[endpoint := AddTo(Of(e.endpoints, endpoint), t)]) else e
  }

  // Counts a time in the last bin of a list, or opens a bin.
  method CountIn(list0: Bins, now: int) returns (list: Bins)
    ensures list == AddTo(list0, now)
  {
    list := list0;
    var currBin := if now >= 0 then now / DELTA * DELTA else -(-now / DELTA * DELTA);
    if list == [] {
      list := [(currBin, 1)];
    } else {
      var (time, count) := list[|list| - 1];
      if currBin == time {
        list := list[|list| - 1 := (time, count + 1)];
      } else {
        list := list + [(currBin, 1)];
      }
    }
  }

  // Adds up the bins between two times.
  method SumBins(list: Bins, lo: int, hi: int) returns (total: nat)
    ensures total == Total(list, lo, hi)
  {
    total := 0;
    var j := 0;
    while j < |list|
      invariant j <= |list| && total == Total(list[..j], lo, hi)
    {
      var (time, count) := list[j];
      assert list[..j + 1][..j] == list[..j];
      if time >= lo && time <= hi {
        total := total + count;
      }
      j := j + 1;
    }
    assert list[..j] == list;
  }

  class VisitStats {
    var visits: seq<Entry>
    ghost var logs: seq<seq<Access>> // per entry, the accesses to its service since it was registered

    ghost predicate Valid()
      reads this
    {
      && |logs| == |visits|
      && (forall i :: 0 <= i < |visits| ==> Indexes(visits[i].endpoints, logs[i]))
      && FirstComplete(visits)
    }

    constructor ()
      ensures Valid() && visits == []
    {
      visits, logs := [], [];
    }

    method RegisterService(service: string)
      requires Valid()
      modifies this
      ensures Valid() && visits == old(visits) + [Entry(service, map[])] && logs == old(logs) + [[]]
    {
      visits := visits + [Entry(service, map[])];
      logs := logs + [[]];
    }

    // Counts an access in one entry.
    method CountAt(i: nat, endpoint: string, now: int)
      requires i < |visits| == |logs| && Indexes(visits[i].endpoints, logs[i])
      modifies this
      ensures visits == old(visits)[i := Record(old(visits[i]), old(visits[i]).service, endpoint, now)]
      ensures logs == old(logs)[i := old(logs[i]) + [Access(endpoint, now)]]
      ensures Indexes(visits[i].endpoints, logs[i])
    {
      var endpoints := visits[i].endpoints;
      var list := CountIn(if endpoint in endpoints then endpoints[endpoint] else [], now);
      IndexesMore(endpoints, logs[i], endpoint, now);
      visits := visits[i := Entry(visits[i].service, endpoints[endpoint := list])];
      logs := logs[i := logs[i] + [Access(endpoint, now)]];
    }

    /** Counts an access in every entry of the service; the clock is read anew for each, and may
        give anything. */
    method AddAccess(service: string, endpoint: string, clock: nat -> int)
      requires Valid()
      modifies this
      ensures Valid() && |visits| == |old(visits)|
      ensures forall i :: 0 <= i < |visits| ==> visits[i] == Record(old(visits[i]), service, endpoint, clock(i))
      ensures forall i :: 0 <= i < |visits| ==>
                logs[i] == if visits[i].service == service then old(logs[i]) + [Access(endpoint, clock(i))]
                           else old(logs[i])
    {
      var i := 0;
      while i < |visits|
        invariant i <= |visits| == |old(visits)| == |logs|
        invariant forall k :: 0 <= k < |visits| ==> Indexes(visits[k].endpoints, logs[k])
        invariant forall k :: 0 <= k < i ==> visits[k] == Record(old(visits[k]), service, endpoint, clock(k))
        invariant forall k :: 0 <= k < i ==>
                    logs[k] == if visits[k].service == service then old(logs[k]) + [Access(endpoint, clock(k))]
                               else old(logs[k])
        invariant forall k :: i <= k < |visits| ==> visits[k] == old(visits[k]) && logs[k] == old(logs[k])
      {
        if visits[i].service == service {
          CountAt(i, endpoint, clock(i));
        }
        i := i + 1;
      }
    }

    /** The number of recorded accesses whose bin starts between start and the end-th bin after
        it, by the first entry of the service: where that is exact, the accesses from start on,
        until the end-th bin after it is over. */
    method GetEndpointStats(service: string, endpoint: string, start: int, end: nat) returns (total: nat)
      requires Valid()
      ensures First(visits, service) == |visits| ==> total == 0
      ensures First(visits, service) < |visits| ==>
                var ts := Times(logs[First(visits, service)], endpoint);
                && total == CountBins(ts, start, start + DELTA * Signed(end))
                && (Exact(start, end) && (forall i :: 0 <= i < |ts| ==> ts[i] >= 0) ==>
                      total == CountWindow(ts, start, start + DELTA * (end + 1)))
    {
      var last := start + DELTA * Signed(end);
      var i := 0;
      total := 0;
      while i < |visits|
        invariant i <= |visits| && total == 0
        invariant forall k :: 0 <= k < i ==> visits[k].service != service || endpoint !in visits[k].endpoints
      {
        if visits[i].service == service && endpoint in visits[i].endpoints {
          total := SumBins(visits[i].endpoints[endpoint], start, last);
          assert i == First(visits, service);
          break;
        }
        i := i + 1;
      }
      ghost var f := First(visits, service);
      if f < |visits| {
        assert Indexes(visits[f].endpoints, logs[f]);
        BinsAgree(Times(logs[f], endpoint), start, last);
        ExactCount(Times(logs[f], endpoint), start, end);
      }
    }
  }
}
