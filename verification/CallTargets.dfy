/** Where a call goes that a handler queues among its other commands. */
module CallTargets {
  import opened Wrappers
  import opened Events
  import opened Dispatch
  import opened Lifetimes
  import opened DispatchLaws
  import opened FlushLaws
  import Ids

  // ---------------------------------------------------------------- the commands of a handler

  lemma {:induction false} PerformAllSplit(e: Event, cs: seq<Command>, k: nat)
    requires AllAllowed(e, cs) && k <= |cs|
    ensures AllAllowed(e, cs[..k]) && AllAllowed(PerformAll(e, cs[..k]), cs[k..])
    ensures PerformAll(e, cs) == PerformAll(PerformAll(e, cs[..k]), cs[k..])
    decreases k
  {
    if k > 0 {
      assert cs[..k][0] == cs[0] && cs[..k][1..] == cs[1..][..k - 1] && cs[1..][k - 1..] == cs[k..];
      PerformAllSplit(Perform(e, cs[0]), cs[1..], k - 1);
    } else {
      assert cs[k..] == cs;
    }
  }

  lemma {:induction false} QueuedStays(e: Event, cs: seq<Command>, f: QueuedFunction)
    requires AllAllowed(e, cs) && f in e.function_
    ensures f in PerformAll(e, cs).function_
    decreases |cs|
  {
    if cs != [] {
      QueuedStays(Perform(e, cs[0]), cs[1..], f);
    }
  }

  // Command k queues its call under the local id that is next when it is reached.
  lemma CallQueued(e: Event, cs: seq<Command>, k: nat, ty: nat, i: nat)
    requires AllAllowed(e, cs) && k < |cs| && cs[k] == C(ty, i) && AllAllowed(e, cs[..k])
    ensures QueuedFunction(ty, i, PerformAll(e, cs[..k]).localProcId) in PerformAll(e, cs).function_
  {
    PerformAllSplit(e, cs, k);
    var f := PerformAll(e, cs[..k]);
    QueuedStays(Perform(f, cs[k..][0]), cs[k..][1..], QueuedFunction(ty, i, f.localProcId));
  }

  // ---------------------------------------------------------------- the slots at the flush

  lemma {:induction false} NotReached(e: Event, fs: seq<QueuedFunction>, local: nat, n: nat)
    requires forall f :: f in fs ==> f.localId != local
    ensures (local, n) !in Reached(e, fs)
  {
    if fs != [] {
      NotReached(e, fs[1..], local, n);
    }
  }

  // A queued call reaches exactly the object that its slot names.
  lemma {:induction false} ReachedIff(e: Event, fs: seq<QueuedFunction>, f: QueuedFunction, n: nat)
    requires f in fs && forall k, l :: 0 <= k < l < |fs| ==> fs[k].localId != fs[l].localId
    ensures (f.localId, n) in Reached(e, fs) <==> Locator(e, f.idx, f.vidx) == Some(n)
  {
    if f == fs[0] {
      NotReached(e, fs[1..], f.localId, n);
    } else {
      assert fs[0].localId != f.localId;
      ReachedIff(e, fs[1..], f, n);
    }
  }

  // The constructs have unnamed slots of their own.
  ghost predicate Unnamed(e: Event, cs: seq<QueuedConstruct>) {
    && (forall c :: c in cs ==> At(e, c.idx, c.vidx) == Some(EventInfo(None)))
    && (forall k, l :: 0 <= k < l < |cs| ==> cs[k] != cs[l])
  }

  lemma NextUnnamed(e: Event, cs: seq<QueuedConstruct>, n: nat)
    requires cs != [] && Unnamed(e, cs)
    ensures cs[0].vidx < |SlotsOf(e, cs[0].idx)| && cs[0] !in cs[1..]
    ensures Unnamed(SetSlot(e, cs[0].idx, cs[0].vidx, Some(EventInfo(Some(n)))), cs[1..])
  {
    var c := cs[0];
    assert cs == [c] + cs[1..] && At(e, c.idx, c.vidx).Some?;
    SetSlotAt(e, c.idx, c.vidx, Some(EventInfo(Some(n))));
  }

  // Flushing constructs that have slots of their own names every one of them.
  lemma {:induction false} AllNamed(w: World, ti: TargetInfo, cs: seq<QueuedConstruct>)
    requires ti.objId in w.objInfo && HasCursors(w) && Unnamed(w.objInfo[ti.objId].event, cs)
    ensures |FlushConstruct(w, ti, cs).q| == |w.q| + |cs|
    decreases |cs|
  {
    if cs != [] {
      assert cs[0] in cs;
      NextUnnamed(w.objInfo[ti.objId].event, cs, Ids.Draw(w.objIds, THREAD).1);
      AllNamed(ConstructOne(w, ti, cs[0]), ti, cs[1..]);
    }
  }

  lemma {:induction false} NameAllAt(e: Event, cs: seq<QueuedConstruct>, ids: seq<nat>, ty: nat, i: nat)
    requires Unnamed(e, cs) && |ids| == |cs|
    ensures QueuedConstruct(ty, i) !in cs ==> Locator(NameAll(e, cs, ids), ty, i) == Locator(e, ty, i)
    ensures QueuedConstruct(ty, i) in cs ==>
              Locator(NameAll(e, cs, ids), ty, i).Some? && Locator(NameAll(e, cs, ids), ty, i).value in ids
    decreases |cs|
  {
    if cs != [] {
      var c, f := cs[0], SetSlot(e, cs[0].idx, cs[0].vidx, Some(EventInfo(Some(ids[0]))));
      assert c in cs && At(e, c.idx, c.vidx).Some?;
      NextUnnamed(e, cs, ids[0]);
      SetSlotAt(e, c.idx, c.vidx, Some(EventInfo(Some(ids[0]))));
      NameAllAt(f, cs[1..], ids[1..], ty, i);
    }
  }

  // ---------------------------------------------------------------- where the call goes

  // The event when command k of a handler is reached.
  function Before(e: Event, cs: seq<Command>, k: nat): Event
    requires AllAllowed(e, cs) && k <= |cs|
  {
    PerformAllSplit(e, cs, k);
    PerformAll(e, cs[..k])
  }

  /** The call under a local id goes to o if and only if its slot is kept; otherwise to one new
      object if and only if the slot is filled again. */
  ghost predicate Goes(calls: seq<(nat, nat)>, local: nat, o: nat, kept: bool, filled: bool, ids: seq<nat>) {
    && ((local, o) in calls <==> kept)
    && (forall n: nat :: (local, n) in calls && n != o ==> n in ids)
    && ((exists n: nat :: (local, n) in calls) <==> kept || filled)
    && (forall m: nat, n: nat :: (local, m) in calls && (local, n) in calls ==> m == n)
  }

  lemma GoesWhere(calls: seq<(nat, nat)>, local: nat, o: nat, kept: bool, filled: bool, ids: seq<nat>, slot: Option<nat>)
    requires forall n: nat :: (local, n) in calls <==> slot == Some(n)
    requires kept ==> slot == Some(o)
    requires !kept ==> if filled then slot.Some? && slot.value in ids else slot.None?
    requires o !in ids
    ensures Goes(calls, local, o, kept, filled, ids)
  {
    if slot.Some? {
      assert (local, slot.value) in calls;
    }
  }

  // The slot of command k of a handler, when the calls are flushed.
  lemma SlotTarget(e: Event, children: set<nat>, cs: seq<Command>, k: nat, ty: nat, i: nat, o: nat, ids: seq<nat>)
    requires EventOk(e, children) && AllAllowed(e, cs) && k < |cs| && cs[k] == C(ty, i)
    requires Locator(Before(e, cs, k), ty, i) == Some(o) && |ids| == |PerformAll(e, cs).construct|
    ensures o in children && Unnamed(PerformAll(e, cs), PerformAll(e, cs).construct)
    ensures var after := PerformAll(e, cs);
            var slot := Locator(NameAll(after, after.construct, ids), ty, i);
            && (D(ty, i) !in cs[k..] ==> slot == Some(o))
            && (D(ty, i) in cs[k..] ==> if At(after, ty, i).Some? then slot.Some? && slot.value in ids else slot.None?)
  {
    var before, after := Before(e, cs, k), PerformAll(e, cs);
    PerformAllSplit(e, cs, k);
    PerformAllOk(e, children, cs);
    PerformAllOk(e, children, cs[..k]);
    SlotKeptIff(before, ty, i, o, cs[k..]);
    NameAllAt(after, after.construct, ids, ty, i);
    assert At(after, ty, i).Some? && Locator(after, ty, i).None? ==> At(after, ty, i) == Some(EventInfo(None));
  }

  // The call of command k reaches what its slot names at the flush.
  lemma QueuedReaches(e: Event, children: set<nat>, cs: seq<Command>, k: nat, ty: nat, i: nat, named: Event)
    requires EventOk(e, children) && AllAllowed(e, cs) && k < |cs| && cs[k] == C(ty, i)
    ensures forall n: nat :: (Before(e, cs, k).localProcId, n) in Reached(named, PerformAll(e, cs).function_) <==>
                        Locator(named, ty, i) == Some(n)
  {
    var fs, f := PerformAll(e, cs).function_, QueuedFunction(ty, i, Before(e, cs, k).localProcId);
    PerformAllSplit(e, cs, k);
    PerformAllOk(e, children, cs);
    CallQueued(e, cs, k, ty, i);
    forall n: nat ensures (f.localId, n) in Reached(named, fs) <==> Locator(named, ty, i) == Some(n) {
      ReachedIff(named, fs, f, n);
    }
  }

  lemma EventTarget(e: Event, children: set<nat>, cs: seq<Command>, k: nat, ty: nat, i: nat, o: nat, ids: seq<nat>)
    requires EventOk(e, children) && AllAllowed(e, cs) && k < |cs| && cs[k] == C(ty, i)
    requires Locator(Before(e, cs, k), ty, i) == Some(o) && |ids| == |PerformAll(e, cs).construct| && o !in ids
    ensures var after := PerformAll(e, cs);
            Goes(Reached(NameAll(after, after.construct, ids), after.function_), Before(e, cs, k).localProcId, o,
                 D(ty, i) !in cs[k..], At(after, ty, i).Some?, ids)
  {
    var after, local := PerformAll(e, cs), Before(e, cs, k).localProcId;
    var named := NameAll(after, after.construct, ids);
    SlotTarget(e, children, cs, k, ty, i, o, ids);
    QueuedReaches(e, children, cs, k, ty, i, named);
    GoesWhere(Reached(named, after.function_), local, o, D(ty, i) !in cs[k..], At(after, ty, i).Some?, ids,
              Locator(named, ty, i));
  }

  /** A call queued while its slot names o goes to o if and only if the handler does not delete the
      slot afterwards. If it does, the call goes to a new object when the slot has been filled
      again, and to nobody when it has not. */
  lemma CallGoesTo(w: World, ti: TargetInfo, h: Handler, k: nat, ty: nat, i: nat, o: nat)
      returns (cs: seq<Message>, fs: seq<Message>)
    requires Inv(w) && ti.objId in w.objInfo && AllAllowed(w.objInfo[ti.objId].event, h.cmds)
    requires k < |h.cmds| && h.cmds[k] == C(ty, i)
    requires Locator(Before(w.objInfo[ti.objId].event, h.cmds, k), ty, i) == Some(o)
    ensures ProcessQueued(RunHandler(w, ti.objId, h), ti).Ok?
    ensures var v, e := ProcessQueued(RunHandler(w, ti.objId, h), ti).value, w.objInfo[ti.objId].event;
            && v.q == w.q + cs + fs + Deletes(Sender(ti), PerformAll(e, h.cmds).delete_)
            && Constructors(cs, Sender(ti)) && Calls(fs, Sender(ti))
            && (forall n :: n in Targets(cs) ==> n !in w.objIds.issued)
            && Goes(Addressed(fs), Before(e, h.cmds, k).localProcId, o,
                    D(ty, i) !in h.cmds[k..], At(PerformAll(e, h.cmds), ty, i).Some?, Targets(cs))
  {
    var obj, u := w.objInfo[ti.objId], RunHandler(w, ti.objId, h);
    assert ObjectOk(obj);
    HandleAt(w, ti, h);
    cs, fs := FlushOrder(u, ti);
    NewTargets(w, ProcessQueued(u, ti).value, cs);
    HandlerTargets(w, ti, h, cs);
    PerformAllSplit(obj.event, h.cmds, k);
    PerformAllOk(obj.event, obj.children.Keys, h.cmds[..k]);
    ChildIssued(w, ti.objId, o);
    EventTarget(obj.event, obj.children.Keys, h.cmds, k, ty, i, o, Targets(cs));
  }

  lemma HandlerTargets(w: World, ti: TargetInfo, h: Handler, cs: seq<Message>)
    requires HasCursors(w) && ti.objId in w.objInfo && ObjectOk(w.objInfo[ti.objId])
    requires AllAllowed(w.objInfo[ti.objId].event, h.cmds)
    requires var after := PerformAll(w.objInfo[ti.objId].event, h.cmds);
             FlushConstruct(RunHandler(w, ti.objId, h), ti, after.construct).q == w.q + cs
    ensures |Targets(cs)| == |PerformAll(w.objInfo[ti.objId].event, h.cmds).construct|
  {
    var obj := w.objInfo[ti.objId];
    PerformAllOk(obj.event, obj.children.Keys, h.cmds);
    AllNamed(RunHandler(w, ti.objId, h), ti, PerformAll(obj.event, h.cmds).construct);
  }

  /** Calling, deleting and constructing in the same handler sends the call to the new object: the
      handler [C(ty, 0), D(ty, 0), I(ty)] is allowed wherever slot 0 names an object, and never
      calls that object. */
  lemma CallRedirected(w: World, ti: TargetInfo, h: Handler, ty: nat, o: nat) returns (fs: seq<Message>, n: nat)
    requires Inv(w) && ti.objId in w.objInfo && h.cmds == [C(ty, 0), D(ty, 0), I(ty)]
    requires Locator(w.objInfo[ti.objId].event, ty, 0) == Some(o)
    ensures AllAllowed(w.objInfo[ti.objId].event, h.cmds) && ProcessQueued(RunHandler(w, ti.objId, h), ti).Ok?
    ensures var v := ProcessQueued(RunHandler(w, ti.objId, h), ti).value;
            && w.q <= v.q && (forall m :: m in fs ==> m in v.q) && n !in w.objIds.issued && n != o
    ensures var local := w.objInfo[ti.objId].event.localProcId;
            (local, n) in Addressed(fs) && (local, o) !in Addressed(fs)
  {
    var e := w.objInfo[ti.objId].event;
    var cs;
    RefillsSlot(e, ty, o);
    cs, fs := CallGoesTo(w, ti, h, 0, ty, 0, o);
    n :| (e.localProcId, n) in Addressed(fs);
  }

  lemma RefillsSlot(e: Event, ty: nat, o: nat)
    requires Locator(e, ty, 0) == Some(o)
    ensures var cs := [C(ty, 0), D(ty, 0), I(ty)];
            && AllAllowed(e, cs) && At(PerformAll(e, cs), ty, 0).Some?
            && Before(e, cs, 0) == e
  {
    var f := Perform(e, C(ty, 0));
    var g := Perform(f, D(ty, 0));
    assert Locator(f, ty, 0) == Some(o);
    SetSlotAt(f, ty, 0, None);
    SetSlotAt(g, ty, 0, Some(EventInfo(None)));
    var cs := [C(ty, 0), D(ty, 0), I(ty)];
    assert cs[1..] == [D(ty, 0), I(ty)] && cs[1..][1..] == [I(ty)] && cs[1..][1..][1..] == [];
    assert AllAllowed(Perform(g, I(ty)), []) && AllAllowed(g, cs[1..][1..]) && AllAllowed(f, cs[1..]);
    assert PerformAll(e, cs) == PerformAll(f, cs[1..]) == PerformAll(g, cs[1..][1..]) == Perform(g, I(ty));
  }

  lemma ChildIssued(w: World, p: nat, c: nat)
    requires Inv(w) && p in w.objInfo && c in w.objInfo[p].children
    ensures c in w.objIds.issued
  {
    assert Lists(w, p, c);
    if c !in w.objIds.issued {
      NotListed(w, c);
    }
  }

  lemma NewTargets(w: World, v: World, cs: seq<Message>)
    requires Ids.SourceOk(v.objIds) && v.objIds.issued == w.objIds.issued + Targets(cs)
    ensures forall n :: n in Targets(cs) ==> n !in w.objIds.issued
  {
    forall n | n in Targets(cs) ensures n !in w.objIds.issued {
      var before := w.objIds.issued;
      var j :| 0 <= j < |Targets(cs)| && Targets(cs)[j] == n;
      assert v.objIds.issued[|before| + j] == n;
      assert forall i :: 0 <= i < |before| ==> v.objIds.issued[i] == before[i];
    }
  }
}
