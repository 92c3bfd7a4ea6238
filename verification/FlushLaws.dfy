/** What a flush and a completion put on the queue. */
module FlushLaws {
  import opened Wrappers
  import Ids
  import opened Events
  import opened Dispatch
  import opened DispatchLaws
  import opened Lifetimes

  // The caller that a message queued for an object names.
  function Sender(ti: TargetInfo): CallerInfo { CallerInfo(THREAD, ti.objId, ti.procId) }

  predicate Constructors(ms: seq<Message>, ci: CallerInfo) {
    forall i :: 0 <= i < |ms| ==> ms[i].ConstructorCall? && ms[i].ci == ci && ms[i].ti.procId == NONE
  }

  predicate Calls(ms: seq<Message>, ci: CallerInfo) {
    forall i :: 0 <= i < |ms| ==> ms[i].FunctionCall? && ms[i].ci == ci
  }

  // The objects that messages are for, and their procedures.
  function Targets(ms: seq<Message>): seq<nat> { seq(|ms|, i requires 0 <= i < |ms| => ms[i].ti.objId) }

  function Procedures(ms: seq<Message>): seq<nat> { seq(|ms|, i requires 0 <= i < |ms| => ms[i].ti.procId) }

  // The local id and the object of every call among the messages.
  function Addressed(ms: seq<Message>): seq<(nat, nat)> {
    if ms == [] then []
    else (if ms[0].FunctionCall? then [(ms[0].call, ms[0].ti.objId)] else []) + Addressed(ms[1..])
  }

  // The queued calls whose slot names an object, with that object.
  function Reached(e: Event, fs: seq<QueuedFunction>): seq<(nat, nat)> {
    if fs == [] then []
    else
      (match Locator(e, fs[0].idx, fs[0].vidx) case Some(o) => [(fs[0].localId, o)] case None => [])
      + Reached(e, fs[1..])
  }

  // The event with the slots that its constructs left named by the given ids, in order.
  function NameAll(e: Event, cs: seq<QueuedConstruct>, ids: seq<nat>): Event
    decreases |cs|
  {
    if cs == [] || ids == [] then e
    else if At(e, cs[0].idx, cs[0].vidx).None? then NameAll(e, cs[1..], ids)
    else NameAll(SetSlot(e, cs[0].idx, cs[0].vidx, Some(EventInfo(Some(ids[0])))), cs[1..], ids[1..])
  }

  // v is w after constructors ms of new objects joined the queue, in the name of ti.
  ghost predicate AddsConstructors(w: World, v: World, ti: TargetInfo, ms: seq<Message>) {
    && v.q == w.q + ms && Constructors(ms, Sender(ti))
    && v.objIds.issued == w.objIds.issued + Targets(ms) && v.procIds == w.procIds
  }

  // v is w after calls ms as new procedures joined the queue, in the name of ti.
  ghost predicate AddsCalls(w: World, v: World, ti: TargetInfo, ms: seq<Message>) {
    && v.q == w.q + ms && Calls(ms, Sender(ti))
    && v.procIds.issued == w.procIds.issued + Procedures(ms) && v.objIds == w.objIds
  }

  lemma TargetsJoin(a: seq<Message>, b: seq<Message>)
    ensures Targets(a + b) == Targets(a) + Targets(b) && Procedures(a + b) == Procedures(a) + Procedures(b)
    ensures |a| == 1 ==> Targets(a + b)[0] == a[0].ti.objId && Targets(a + b)[1..] == Targets(b)
  {
  }

  lemma AddsConstructorsTrans(w: World, u: World, v: World, ti: TargetInfo, a: seq<Message>, b: seq<Message>)
    requires AddsConstructors(w, u, ti, a) && AddsConstructors(u, v, ti, b)
    ensures AddsConstructors(w, v, ti, a + b)
  {
    TargetsJoin(a, b);
  }

  lemma AddsCallsTrans(w: World, u: World, v: World, ti: TargetInfo, a: seq<Message>, b: seq<Message>)
    requires AddsCalls(w, u, ti, a) && AddsCalls(u, v, ti, b)
    ensures AddsCalls(w, v, ti, a + b)
  {
    TargetsJoin(a, b);
  }

  // One queued construct appends its message, or nothing if its slot was emptied.
  lemma ConstructAppended(w: World, ti: TargetInfo, c: QueuedConstruct) returns (ms: seq<Message>)
    requires ti.objId in w.objInfo && HasCursors(w)
    ensures AddsConstructors(w, ConstructOne(w, ti, c), ti, ms)
    ensures var v, e := ConstructOne(w, ti, c), w.objInfo[ti.objId].event;
            if At(e, c.idx, c.vidx).None? then ms == [] && v == w
            else |ms| == 1 && v.objInfo[ti.objId].event
                              == SetSlot(e, c.idx, c.vidx, Some(EventInfo(Some(ms[0].ti.objId))))
  {
    ms := [];
    if At(w.objInfo[ti.objId].event, c.idx, c.vidx).Some? {
      ms := [ConstructorCall(Sender(ti), TargetInfo(Ids.Draw(w.objIds, THREAD).1, NONE))];
    }
  }

  lemma NameNext(e: Event, cs: seq<QueuedConstruct>, first: seq<Message>, rest: seq<Message>)
    requires cs != [] && |first| == if At(e, cs[0].idx, cs[0].vidx).Some? then 1 else 0
    ensures NameAll(e, cs, Targets(first + rest)) ==
            NameAll(if first == [] then e else SetSlot(e, cs[0].idx, cs[0].vidx, Some(EventInfo(Some(first[0].ti.objId)))),
                    cs[1..], Targets(rest))
  {
    TargetsJoin(first, rest);
    if first == [] {
      assert first + rest == rest;
    }
  }

  lemma {:induction false} ConstructsAppended(w: World, ti: TargetInfo, cs: seq<QueuedConstruct>) returns (ms: seq<Message>)
    requires ti.objId in w.objInfo && HasCursors(w)
    ensures AddsConstructors(w, FlushConstruct(w, ti, cs), ti, ms) && |ms| <= |cs|
    ensures FlushConstruct(w, ti, cs).objInfo[ti.objId].event == NameAll(w.objInfo[ti.objId].event, cs, Targets(ms))
    decreases |cs|
  {
    ms := [];
    if cs != [] {
      var v := ConstructOne(w, ti, cs[0]);
      var first := ConstructAppended(w, ti, cs[0]);
      var rest := ConstructsAppended(v, ti, cs[1..]);
      ms := first + rest;
      AddsConstructorsTrans(w, v, FlushConstruct(v, ti, cs[1..]), ti, first, rest);
      NameNext(w.objInfo[ti.objId].event, cs, first, rest);
    }
  }

  // One queued call appends its message, or nothing if its slot is empty.
  lemma CallAppended(w: World, ti: TargetInfo, f: QueuedFunction) returns (ms: seq<Message>)
    requires ti.objId in w.objInfo && HasCursors(w) && FunctionOne(w, ti, f).Ok?
    ensures AddsCalls(w, FunctionOne(w, ti, f).value, ti, ms) && |ms| <= 1
    ensures FunctionOne(w, ti, f).value.objInfo[ti.objId].event.subEvents == w.objInfo[ti.objId].event.subEvents
    ensures Addressed(ms) == Reached(w.objInfo[ti.objId].event, [f])
  {
    var e := w.objInfo[ti.objId].event;
    ms := [];
    if At(e, f.idx, f.vidx).Some? {
      ms := [FunctionCall(f.localId, Sender(ti),
                          TargetInfo(Locator(e, f.idx, f.vidx).value, Ids.Draw(w.procIds, THREAD).1))];
    }
  }

  lemma {:induction false} AddressedJoin(a: seq<Message>, b: seq<Message>)
    ensures Addressed(a + b) == Addressed(a) + Addressed(b)
    decreases |a|
  {
    if a == [] {
      assert a + b == b;
    } else {
      assert (a + b)[1..] == a[1..] + b;
      AddressedJoin(a[1..], b);
      assert Addressed(a + b) == Addressed([a[0]]) + Addressed(a[1..] + b);
    }
  }

  lemma ReachedNext(e: Event, f: Event, fs: seq<QueuedFunction>)
    requires fs != [] && f.subEvents == e.subEvents
    ensures Reached(e, fs) == Reached(e, [fs[0]]) + Reached(f, fs[1..])
  {
    SameReached(e, f, fs[1..]);
  }

  lemma {:induction false} CallsAppended(w: World, ti: TargetInfo, fs: seq<QueuedFunction>) returns (ms: seq<Message>)
    requires ti.objId in w.objInfo && HasCursors(w) && FlushFunction(w, ti, fs).Ok?
    ensures AddsCalls(w, FlushFunction(w, ti, fs).value, ti, ms) && |ms| <= |fs|
    ensures Addressed(ms) == Reached(w.objInfo[ti.objId].event, fs)
    decreases |fs|
  {
    ms := [];
    if fs != [] {
      var v := FunctionOne(w, ti, fs[0]).value;
      var first := CallAppended(w, ti, fs[0]);
      var rest := CallsAppended(v, ti, fs[1..]);
      ms := first + rest;
      AddsCallsTrans(w, v, FlushFunction(v, ti, fs[1..]).value, ti, first, rest);
      AddressedJoin(first, rest);
      ReachedNext(w.objInfo[ti.objId].event, v.objInfo[ti.objId].event, fs);
    }
  }

  /** Flushing calls throws if and only if the slot of one of them holds an object without a name. */
  lemma {:induction false} FlushThrowsIff(w: World, ti: TargetInfo, fs: seq<QueuedFunction>)
    requires ti.objId in w.objInfo && HasCursors(w)
    ensures FlushFunction(w, ti, fs).Err? <==>
            exists f :: f in fs && At(w.objInfo[ti.objId].event, f.idx, f.vidx) == Some(EventInfo(None))
    ensures FlushFunction(w, ti, fs).Err? ==> FlushFunction(w, ti, fs) == Err(NotInitialized)
    decreases |fs|
  {
    if fs != [] {
      var e, first := w.objInfo[ti.objId].event, FunctionOne(w, ti, fs[0]);
      assert fs == [fs[0]] + fs[1..];
      if first.Ok? {
        FlushThrowsIff(first.value, ti, fs[1..]);
        SameAt(e, first.value.objInfo[ti.objId].event);
      }
    }
  }

  lemma SameAt(e: Event, f: Event)
    requires f.subEvents == e.subEvents
    ensures forall ty, i :: At(f, ty, i) == At(e, ty, i)
  {
  }

  lemma {:induction false} SameReached(e: Event, f: Event, fs: seq<QueuedFunction>)
    requires f.subEvents == e.subEvents
    ensures Reached(f, fs) == Reached(e, fs)
  {
    if fs != [] {
      assert Locator(f, fs[0].idx, fs[0].vidx) == Locator(e, fs[0].idx, fs[0].vidx);
      SameReached(e, f, fs[1..]);
    }
  }

  lemma {:induction false} DeletesAppended(w: World, ti: TargetInfo, ds: seq<nat>)
    requires ti.objId in w.objInfo
    ensures FlushDelete(w, ti, ds).q == w.q + Deletes(Sender(ti), ds)
    ensures FlushDelete(w, ti, ds).objIds == w.objIds && FlushDelete(w, ti, ds).procIds == w.procIds
    decreases |ds|
  {
    if ds != [] {
      DeletesAppended(DeleteOne(w, ti, ds[0]), ti, ds[1..]);
    }
  }

  /** A flush appends to the queue the constructors of new objects, then the calls, then exactly the
      deletions that were queued, in their order; nothing that was in the queue moves. The calls
      are exactly the queued ones whose slot names an object once the new objects are named, in
      order, each to that object under its local id and as a new procedure. */
  lemma FlushOrder(w: World, ti: TargetInfo) returns (cs: seq<Message>, fs: seq<Message>)
    requires ti.objId in w.objInfo && HasCursors(w) && ProcessQueued(w, ti).Ok?
    ensures var v, e := ProcessQueued(w, ti).value, w.objInfo[ti.objId].event;
            && Constructors(cs, Sender(ti)) && |cs| <= |e.construct| && Calls(fs, Sender(ti)) && |fs| <= |e.function_|
            && v.q == w.q + cs + fs + Deletes(Sender(ti), e.delete_)
            && FlushConstruct(w, ti, e.construct).q == w.q + cs
            && v.objIds.issued == w.objIds.issued + Targets(cs)
            && v.procIds.issued == w.procIds.issued + Procedures(fs)
            && Addressed(fs) == Reached(NameAll(e, e.construct, Targets(cs)), e.function_)
  {
    var e := w.objInfo[ti.objId].event;
    var c := FlushConstruct(w, ti, e.construct);
    cs := ConstructsAppended(w, ti, e.construct);
    fs := CallsAppended(c, ti, e.function_);
    DeletesAppended(FlushFunction(c, ti, e.function_).value, ti, e.delete_);
  }

  // The completion that a caller is sent for a procedure of an object.
  predicate Tells(m: Message, back: CallerInfo, ti: TargetInfo, ret: (bool, int)) {
    && m.Data? && m.ti == TargetInfo(back.objId, back.procId) && m.ci == Sender(ti)
    && m.data == ChildTaskCompletion(back.procId, ti.procId, if ret.0 then Failed else Finished, ret.1)
  }

  // The last message of the queue.
  function Latest(w: World): Message
    requires w.q != []
  {
    w.q[|w.q| - 1]
  }

  // The object that m is for, unless it is gone, sees its completion under a local id of its own.
  ghost predicate SeenAs(w: World, m: Message, local: nat)
    requires m.Data? && m.data.ChildTaskCompletion?
  {
    m.ti.objId in w.objInfo ==>
      MapEventData(w.objInfo[m.ti.objId].event, m.data) == (w.objInfo[m.ti.objId].event, m.data.(taskId := local))
  }

  lemma LatestSeen(v: World)
    requires Inv(v) && v.q != [] && Latest(v).Data? && Latest(v).data.ChildTaskCompletion?
    ensures SeenAs(v, Latest(v), Latest(v).call)
  {
    var m := Latest(v);
    if m.ti.objId in v.objInfo {
      TaskIdRoundTrip(v, m.ti, m.ci, m.data, m.call);
    }
  }

  /** A call that returns at once tells its caller on this thread the outcome and the code, behind
      everything else it queued, under the local id that the caller's c returned; and the
      procedure's record says the same. */
  lemma CallTellsCaller(w: World, h: Handler)
    requires Inv(w) && w.q != [] && w.q[0].FunctionCall? && Legal(w, Dequeue(h, [])) && h.ret.Some?
    ensures Step(w, Dequeue(h, [])).Ok?
    ensures var v, ci, ti := Step(w, Dequeue(h, [])).value, w.q[0].ci, w.q[0].ti;
            && (ci.threadId == THREAD ==>
                  v.q != [] && Tells(Latest(v), ci, ti, h.ret.value) && SeenAs(v, Latest(v), w.q[0].call))
            && ti.procId in v.procToDat
            && v.procToDat[ti.procId].status == (if h.ret.value.0 then Failed else Finished)
            && v.procToDat[ti.procId].returnCode == h.ret.value.1 && v.procToDat[ti.procId].backNotify == ci
  {
    FunctionStepOk(w, h);
    var v, call, ci, ti := Step(w, Dequeue(h, [])).value, w.q[0].call, w.q[0].ci, w.q[0].ti;
    var flushed := ProcessQueued(RunHandler(Begun(Popped(w), call, ci, ti), ti.objId, h), ti);
    assert v == Returned(flushed.value, call, ci, ti, h);
    ReturnedLatest(flushed.value, call, ci, ti, h);
    if ci.threadId == THREAD {
      LatestSeen(v);
    }
  }

  lemma ReturnedLatest(v: World, call: nat, ci: CallerInfo, ti: TargetInfo, h: Handler)
    requires h.ret.Some?
    ensures var u := Returned(v, call, ci, ti, h);
            && (ci.threadId == THREAD ==>
                  u.q != [] && Tells(Latest(u), ci, ti, h.ret.value) && Latest(u).call == call)
            && ti.procId in u.procToDat && u.procToDat[ti.procId].status == EndStatus(h.ret.value.0)
            && u.procToDat[ti.procId].returnCode == h.ret.value.1 && u.procToDat[ti.procId].backNotify == ci
  {
  }

  /** A procedure that completes later tells the caller that its call recorded, under the local id
      of that call. */
  lemma YieldTellsCaller(w: World, h: Handler)
    requires Inv(w) && w.q != [] && w.q[0].Data? && Legal(w, Dequeue(h, [])) && h.ret.Some?
    requires w.q[0].ti.objId in w.objInfo && w.q[0].ti.procId in w.procToDat
    ensures Step(w, Dequeue(h, [])).Ok?
    ensures var v, p := Step(w, Dequeue(h, [])).value, w.q[0].ti.procId;
            && v.q != [] && Tells(Latest(v), w.procToDat[p].backNotify, w.q[0].ti, h.ret.value)
            && SeenAs(v, Latest(v), w.procToDat[p].call)
            && v.procToDat[p] == w.procToDat[p].(status := if h.ret.value.0 then Failed else Finished)
  {
    DataStepOk(w, h, []);
    var v, ti := Step(w, Dequeue(h, [])).value, w.q[0].ti;
    var flushed := ProcessQueued(RunHandler(Yielding(Popped(w), ti.objId, w.q[0].data), ti.objId, h), ti);
    assert v == Yielded(flushed.value, w.procToDat[ti.procId], ti, h);
    YieldedLatest(flushed.value, w.procToDat[ti.procId], ti, h);
    LatestSeen(v);
  }

  lemma YieldedLatest(v: World, p: CallData, ti: TargetInfo, h: Handler)
    requires h.ret.Some?
    ensures var u := Yielded(v, p, ti, h);
            && u.q != [] && Tells(Latest(u), p.backNotify, ti, h.ret.value) && Latest(u).call == p.call
            && ti.procId in u.procToDat && u.procToDat[ti.procId] == p.(status := EndStatus(h.ret.value.0))
  {
  }

  // ---------------------------------------------------------------- which completions are delivered

  // The object that the oldest message is for is alive, and its procedure is recorded.
  predicate Awaited(w: World)
    requires w.q != [] && w.q[0].Data?
  {
    w.q[0].ti.objId in w.objInfo && w.q[0].ti.procId in w.procToDat
  }

  /** Data is ignored, whatever the handler would do, if and only if its object is gone or its
      procedure is not recorded. */
  lemma DeliveredIff(w: World)
    requires Inv(w) && w.q != [] && w.q[0].Data?
    ensures (forall h :: Legal(w, Dequeue(h, [])) ==> Step(w, Dequeue(h, [])) == Ok(Popped(w))) <==> !Awaited(w)
  {
    if Awaited(w) {
      WitnessReacts(w);
    }
  }

  // A handler that constructs something and does not complete.
  const CONSTRUCTS := Handler([I(0)], true, None)

  lemma WitnessReacts(w: World)
    requires Inv(w) && w.q != [] && w.q[0].Data? && Awaited(w)
    ensures Legal(w, Dequeue(CONSTRUCTS, [])) && Step(w, Dequeue(CONSTRUCTS, [])) != Ok(Popped(w))
  {
    var ti, data := w.q[0].ti, w.q[0].data;
    var u := Yielding(Popped(w), ti.objId, data);
    PerformOne(u.objInfo[ti.objId].event, I(0));
    assert ObjectOk(w.objInfo[ti.objId]);
    ConstructIsSeen(u, ti);
    assert Step(w, Dequeue(CONSTRUCTS, [])) == DataStep(Popped(w), ti, data, CONSTRUCTS);
  }

  // A handler that constructs leaves a message behind, unless the flush fails.
  lemma ConstructIsSeen(u: World, ti: TargetInfo)
    requires HasCursors(u) && ti.objId in u.objInfo && AllAllowed(u.objInfo[ti.objId].event, CONSTRUCTS.cmds)
    requires Flushed(u.objInfo[ti.objId].event)
    ensures var r := ProcessQueued(RunHandler(u, ti.objId, CONSTRUCTS), ti); r.Ok? ==> |r.value.q| > |u.q|
  {
    var v, e := RunHandler(u, ti.objId, CONSTRUCTS), u.objInfo[ti.objId].event;
    PerformOne(e, I(0));
    var f := PerformAll(e, CONSTRUCTS.cmds);
    SetSlotAt(e, 0, FirstFree(SlotsOf(e, 0)), Some(EventInfo(None)));
    if ProcessQueued(v, ti).Ok? {
      assert FlushConstruct(v, ti, f.construct) == ConstructOne(v, ti, f.construct[0]);
      var cs, fs := FlushOrder(v, ti);
    }
  }
}
