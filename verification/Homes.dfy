/** Where procedures belong: every recorded procedure is listed by one living object, whose
    completions therefore find it. */
module Homes {
  import opened Wrappers
  import opened Events
  import opened Dispatch
  import opened Lifetimes
  import opened TaskIds
  import opened DispatchLaws
  import opened DispatchRuns
  import opened FlushLaws
  import opened CallOrder
  import Ids

  // The procedures that calls and root starts of the queue are going to begin.
  function Pending(q: seq<Message>): seq<nat> {
    if q == [] then []
    else (if q[0].FunctionCall? || q[0].RootStart? then [q[0].ti.procId] else []) + Pending(q[1..])
  }

  ghost predicate Distinct(s: seq<nat>) { forall i, j :: 0 <= i < j < |s| ==> s[i] != s[j] }

  // Procedure g is no procedure, or one that object o lists unless it is gone.
  ghost predicate Home(w: World, o: nat, g: nat) {
    g == NONE || (o in w.started && (o in w.objInfo ==> g in w.objInfo[o].assocProcs))
  }

  ghost predicate CallerHome(w: World, ci: CallerInfo) { ci.threadId == NO_THREAD || Home(w, ci.objId, ci.procId) }

  ghost predicate MessageHome(w: World, m: Message) {
    match m
    case FunctionCall(_, ci, _) => CallerHome(w, ci)
    case Data(_, ti, _, _) => Home(w, ti.objId, ti.procId)
    case _ => true
  }

  // A recorded procedure is listed by its object, which is alive.
  ghost predicate Recorded(w: World, g: nat) {
    g in w.procToDat ==>
      && w.procToDat[g].assocObj in w.objInfo && g in w.objInfo[w.procToDat[g].assocObj].assocProcs
      && CallerHome(w, w.procToDat[g].backNotify)
  }

  // What an object lists is recorded, as its own.
  ghost predicate Listed(w: World, o: nat) {
    o in w.objInfo ==>
      forall g :: g in w.objInfo[o].assocProcs ==> g in w.procToDat && w.procToDat[g].assocObj == o
  }

  // A procedure that is going to begin is not recorded, and begins only once.
  ghost predicate PendingOk(w: World) {
    && Distinct(Pending(w.q))
    && (forall g :: g in Pending(w.q) ==> g in w.procIds.issued && g !in w.procToDat)
  }

  ghost predicate HomesOk(w: World) {
    && PendingOk(w)
    && (forall g {:trigger Recorded(w, g)} :: g in w.procToDat ==> Recorded(w, g))
    && (forall o {:trigger Listed(w, o)} :: o in w.objInfo ==> Listed(w, o))
    && (forall m {:trigger MessageHome(w, m)} :: m in w.q ==> MessageHome(w, m))
  }

  // ---------------------------------------------------------------- growing worlds

  // Objects that stay list what they listed.
  ghost predicate Grows(w: World, v: World) {
    && w.started <= v.started
    && (forall o {:trigger o in v.objInfo} :: o in v.objInfo && o in w.started ==>
          o in w.objInfo && forall g :: g in w.objInfo[o].assocProcs ==> g in v.objInfo[o].assocProcs)
  }

  lemma HomeKept(w: World, v: World, o: nat, g: nat)
    requires Grows(w, v) && Home(w, o, g)
    ensures Home(v, o, g)
  {
  }

  lemma CallerHomeKept(w: World, v: World, ci: CallerInfo)
    requires Grows(w, v) && CallerHome(w, ci)
    ensures CallerHome(v, ci)
  {
  }

  lemma MessageHomeKept(w: World, v: World, m: Message)
    requires Grows(w, v) && MessageHome(w, m)
    ensures MessageHome(v, m)
  {
  }

  // The messages stay in order when the world grows and each new one is in order by itself.
  lemma MessagesKept(w: World, v: World)
    requires HomesOk(w) && Grows(w, v) && forall m :: m in v.q ==> m in w.q || MessageHome(v, m)
    ensures forall m :: m in v.q ==> MessageHome(v, m)
  {
    forall m | m in v.q ensures MessageHome(v, m) {
      if m in w.q {
        assert MessageHome(w, m);
        MessageHomeKept(w, v, m);
      }
    }
  }

  // Nothing is recorded or listed anew.
  ghost predicate SameHomes(w: World, v: World) {
    && v.procToDat == w.procToDat && v.started == w.started && v.objInfo.Keys == w.objInfo.Keys
    && (forall o {:trigger v.objInfo[o]} :: o in w.objInfo ==> v.objInfo[o].assocProcs == w.objInfo[o].assocProcs)
  }

  lemma SameKept(w: World, v: World)
    requires HomesOk(w) && SameHomes(w, v) && PendingOk(v)
    requires forall m :: m in v.q ==> m in w.q || MessageHome(v, m)
    ensures HomesOk(v)
  {
    SameGrows(w, v);
    MessagesKept(w, v);
    forall g | g in v.procToDat ensures Recorded(v, g) {
      assert Recorded(w, g);
      CallerHomeKept(w, v, w.procToDat[g].backNotify);
    }
    forall o | o in v.objInfo ensures Listed(v, o) { assert Listed(w, o); }
  }

  lemma SameGrows(w: World, v: World)
    requires SameHomes(w, v)
    ensures Grows(w, v)
  {
  }

  // ---------------------------------------------------------------- the procedures to begin

  lemma {:induction false} PendingJoin(q: seq<Message>, r: seq<Message>)
    ensures Pending(q + r) == Pending(q) + Pending(r)
    decreases |q|
  {
    if q == [] {
      assert q + r == r;
    } else {
      assert (q + r)[0] == q[0] && (q + r)[1..] == q[1..] + r;
      PendingJoin(q[1..], r);
      assert Pending(q + r) == Pending([q[0]]) + Pending(q[1..] + r);
    }
  }

  lemma {:induction false} NonePending(r: seq<Message>)
    requires forall m :: m in r ==> !m.FunctionCall? && !m.RootStart?
    ensures Pending(r) == []
  {
    if r != [] {
      NonePending(r[1..]);
    }
  }

  lemma {:induction false} CallsPending(fs: seq<Message>, ci: CallerInfo)
    requires Calls(fs, ci)
    ensures Pending(fs) == Procedures(fs)
  {
    if fs != [] {
      CallsPending(fs[1..], ci);
      assert Procedures(fs) == [fs[0].ti.procId] + Procedures(fs[1..]);
    }
  }

  // Newly issued procedures join those that are going to begin.
  lemma PendingMore(w: World, v: World, more: seq<nat>)
    requires PendingOk(w) && Pending(v.q) == Pending(w.q) + more && v.procToDat == w.procToDat
    requires v.procIds.issued == w.procIds.issued + more && Distinct(v.procIds.issued)
    requires forall g :: g in w.procToDat ==> g in w.procIds.issued
    ensures PendingOk(v)
  {
    var before, n := w.procIds.issued, |w.procIds.issued|;
    forall k | 0 <= k < |more| ensures more[k] !in before {
      assert v.procIds.issued[n + k] == more[k];
      assert forall i :: 0 <= i < n ==> v.procIds.issued[i] == before[i];
    }
    assert forall i, j :: 0 <= i < j < |more| ==> v.procIds.issued[n + i] == more[i] && v.procIds.issued[n + j] == more[j];
    assert Distinct(more);
  }

  lemma PendingSame(w: World, v: World)
    requires PendingOk(w) && Pending(v.q) == Pending(w.q) && v.procToDat.Keys == w.procToDat.Keys
    requires v.procIds.issued == w.procIds.issued
    ensures PendingOk(v)
  {
  }

  // ---------------------------------------------------------------- a flush

  lemma SameHomesTrans(w: World, u: World, v: World)
    requires SameHomes(w, u) && SameHomes(u, v)
    ensures SameHomes(w, v)
  {
  }

  lemma {:induction false} ConstructsSameHomes(w: World, ti: TargetInfo, cs: seq<QueuedConstruct>)
    requires ti.objId in w.objInfo && HasCursors(w)
    ensures SameHomes(w, FlushConstruct(w, ti, cs))
    decreases |cs|
  {
    if cs != [] {
      ConstructsSameHomes(ConstructOne(w, ti, cs[0]), ti, cs[1..]);
      assert SameHomes(w, ConstructOne(w, ti, cs[0]));
      SameHomesTrans(w, ConstructOne(w, ti, cs[0]), FlushConstruct(w, ti, cs));
    }
  }

  lemma {:induction false} CallsSameHomes(w: World, ti: TargetInfo, fs: seq<QueuedFunction>)
    requires ti.objId in w.objInfo && HasCursors(w) && FlushFunction(w, ti, fs).Ok?
    ensures SameHomes(w, FlushFunction(w, ti, fs).value)
    decreases |fs|
  {
    if fs != [] {
      var v := FunctionOne(w, ti, fs[0]).value;
      CallsSameHomes(v, ti, fs[1..]);
      assert SameHomes(w, v);
      SameHomesTrans(w, v, FlushFunction(w, ti, fs).value);
    }
  }

  lemma {:induction false} DeletesSameHomes(w: World, ti: TargetInfo, ds: seq<nat>)
    requires ti.objId in w.objInfo
    ensures SameHomes(w, FlushDelete(w, ti, ds))
    decreases |ds|
  {
    if ds != [] {
      DeletesSameHomes(DeleteOne(w, ti, ds[0]), ti, ds[1..]);
      assert SameHomes(w, DeleteOne(w, ti, ds[0]));
      SameHomesTrans(w, DeleteOne(w, ti, ds[0]), FlushDelete(w, ti, ds));
    }
  }

  lemma FlushSameHomes(w: World, ti: TargetInfo)
    requires ti.objId in w.objInfo && HasCursors(w) && ProcessQueued(w, ti).Ok?
    ensures SameHomes(w, ProcessQueued(w, ti).value)
  {
    var e := w.objInfo[ti.objId].event;
    var a := FlushConstruct(w, ti, e.construct);
    ConstructsSameHomes(w, ti, e.construct);
    CallsSameHomes(a, ti, e.function_);
    var b := FlushFunction(a, ti, e.function_).value;
    DeletesSameHomes(b, ti, e.delete_);
    SameHomesTrans(w, a, b);
    SameHomesTrans(w, b, FlushDelete(b, ti, e.delete_));
  }

  // Flushing the commands of a procedure of its object, or of a constructor.
  lemma FlushHomes(u: World, ti: TargetInfo)
    requires HomesOk(u) && Home(u, ti.objId, ti.procId) && ti.objId in u.objInfo && HasCursors(u)
    requires forall g :: g in u.procToDat ==> g in u.procIds.issued
    requires ProcessQueued(u, ti).Ok? && Ids.SourceOk(ProcessQueued(u, ti).value.procIds)
    ensures HomesOk(ProcessQueued(u, ti).value) && SameHomes(u, ProcessQueued(u, ti).value)
  {
    var v, ds := ProcessQueued(u, ti).value, u.objInfo[ti.objId].event.delete_;
    FlushSameHomes(u, ti);
    var cs, fs := FlushOrder(u, ti);
    FlushPending(u, v, ti, cs, fs, ds);
    SameGrows(u, v);
    HomeKept(u, v, ti.objId, ti.procId);
    DeleteMessages(u.q + cs + fs, Sender(ti), ds);
    forall m | m in v.q && m !in u.q ensures MessageHome(v, m) {
      assert m in cs || m in fs || m.Delete?;
    }
    SameKept(u, v);
  }

  lemma FlushPending(u: World, v: World, ti: TargetInfo, cs: seq<Message>, fs: seq<Message>, ds: seq<nat>)
    requires PendingOk(u) && v.q == u.q + cs + fs + Deletes(Sender(ti), ds)
    requires Constructors(cs, Sender(ti)) && Calls(fs, Sender(ti))
    requires v.procIds.issued == u.procIds.issued + Procedures(fs) && Distinct(v.procIds.issued)
    requires v.procToDat == u.procToDat && forall g :: g in u.procToDat ==> g in u.procIds.issued
    ensures PendingOk(v)
  {
    PendingJoin(u.q + cs + fs, Deletes(Sender(ti), ds));
    PendingJoin(u.q + cs, fs);
    PendingJoin(u.q, cs);
    DeleteMessages([], Sender(ti), ds);
    assert [] + Deletes(Sender(ti), ds) == Deletes(Sender(ti), ds);
    NonePending(Deletes(Sender(ti), ds));
    NonePending(cs);
    CallsPending(fs, Sender(ti));
    PendingMore(u, v, Procedures(fs));
  }

  // Running and flushing a handler of a procedure of its object.
  lemma HandleHomes(w: World, ti: TargetInfo, h: Handler)
    requires Inv(w) && HomesOk(w) && Home(w, ti.objId, ti.procId)
    requires ti.objId in w.objInfo && AllAllowed(w.objInfo[ti.objId].event, h.cmds)
    ensures ProcessQueued(RunHandler(w, ti.objId, h), ti).Ok?
    ensures var v := ProcessQueued(RunHandler(w, ti.objId, h), ti).value; HomesOk(v) && SameHomes(w, v) && Inv(v)
  {
    var u := RunHandler(w, ti.objId, h);
    HandleTaken(w, ti, h);
    RecordsIssued(w);
    ProcSource(ProcessQueued(u, ti).value);
    RunHomes(w, ti, h);
    FlushHomes(u, ti);
    SameHomesTrans(w, u, ProcessQueued(u, ti).value);
  }

  lemma RunHomes(w: World, ti: TargetInfo, h: Handler)
    requires HomesOk(w) && Home(w, ti.objId, ti.procId)
    requires ti.objId in w.objInfo && AllAllowed(w.objInfo[ti.objId].event, h.cmds)
    ensures var u := RunHandler(w, ti.objId, h); HomesOk(u) && SameHomes(w, u) && Home(u, ti.objId, ti.procId)
  {
    SameKept(w, RunHandler(w, ti.objId, h));
  }

  lemma ProcSource(v: World)
    requires Inv(v)
    ensures Ids.SourceOk(v.procIds)
  {
  }

  lemma RecordsIssued(w: World)
    requires TagsOk(w)
    ensures forall g :: g in w.procToDat ==> g in w.procIds.issued
  {
    forall g | g in w.procToDat ensures g in w.procIds.issued { assert RecordOk(w, g); }
  }

  // ---------------------------------------------------------------- every step

  lemma PopHomes(w: World)
    requires HomesOk(w) && w.q != []
    ensures MessageHome(w, w.q[0])
    ensures w.q[0].FunctionCall? || w.q[0].RootStart? ==>
              && w.q[0].ti.procId !in w.procToDat && w.q[0].ti.procId in w.procIds.issued
              && w.q[0].ti.procId !in Pending(w.q[1..])
    ensures HomesOk(Popped(w))
  {
    var v := Popped(w);
    assert w.q[0] in w.q && w.q == [w.q[0]] + v.q;
    if w.q[0].FunctionCall? || w.q[0].RootStart? {
      assert Pending(w.q)[0] == w.q[0].ti.procId;
      assert Pending(w.q)[1..] == Pending(v.q);
      TailDistinct(Pending(w.q));
    } else {
      assert Pending(w.q) == Pending(v.q);
    }
    SameKept(w, v);
  }

  lemma TailDistinct(s: seq<nat>)
    requires s != [] && Distinct(s)
    ensures Distinct(s[1..]) && s[0] !in s[1..]
  {
  }

  lemma BegunHomes(u: World, call: nat, ci: CallerInfo, ti: TargetInfo)
    requires HomesOk(u) && ti.objId in u.objInfo && ti.objId in u.started && CallerHome(u, ci)
    requires ti.procId !in u.procToDat && ti.procId !in Pending(u.q)
    ensures HomesOk(Begun(u, call, ci, ti)) && Home(Begun(u, call, ci, ti), ti.objId, ti.procId)
    ensures Grows(u, Begun(u, call, ci, ti))
  {
    var v := Begun(u, call, ci, ti);
    MessagesKept(u, v);
    forall g | g in v.procToDat ensures Recorded(v, g) {
      if g == ti.procId {
        CallerHomeKept(u, v, ci);
      } else {
        assert Recorded(u, g);
        CallerHomeKept(u, v, u.procToDat[g].backNotify);
      }
    }
    forall o | o in v.objInfo ensures Listed(v, o) { assert Listed(u, o); }
  }

  // A record is updated, and a completion may be sent to its caller.
  lemma UpdateHomes(v: World, x: World, g: nat, d: CallData, tail: seq<Message>)
    requires HomesOk(v) && g in v.procToDat && d.assocObj == v.procToDat[g].assocObj
    requires d.backNotify == v.procToDat[g].backNotify
    requires x == v.(procToDat := v.procToDat[g := d], q := v.q + tail)
    requires forall m :: m in tail ==> m.Data? && MessageHome(v, m)
    ensures HomesOk(x)
  {
    PendingJoin(v.q, tail);
    NonePending(tail);
    assert Pending(v.q) + [] == Pending(v.q);
    PendingSame(v, x);
    assert Grows(v, x);
    forall m | m in tail ensures MessageHome(x, m) { MessageHomeKept(v, x, m); }
    MessagesKept(v, x);
    forall k | k in x.procToDat ensures Recorded(x, k) { assert Recorded(v, k); }
    forall o | o in x.objInfo ensures Listed(x, o) { assert Listed(v, o); }
  }

  lemma ReturnedHomes(v: World, call: nat, ci: CallerInfo, ti: TargetInfo, h: Handler)
    requires HomesOk(v) && ti.procId in v.procToDat && v.procToDat[ti.procId] == Started(call, ci, ti.objId)
    ensures HomesOk(Returned(v, call, ci, ti, h))
  {
    var x, d := Returned(v, call, ci, ti, h), Returned(v, call, ci, ti, h).procToDat[ti.procId];
    assert Recorded(v, ti.procId);
    var tail := if h.ret.Some? && ci.threadId == THREAD
                then [Completion(ti, ci, EndStatus(h.ret.value.0), h.ret.value.1, call)] else [];
    assert x.q == v.q + tail;
    UpdateHomes(v, x, ti.procId, d, tail);
  }

  lemma YieldedHomes(v: World, ti: TargetInfo, h: Handler)
    requires HomesOk(v) && ti.procId in v.procToDat
    requires v.procToDat[ti.procId].backNotify.threadId == NO_THREAD ==> h.ret.None?
    ensures HomesOk(Yielded(v, v.procToDat[ti.procId], ti, h))
  {
    var p := v.procToDat[ti.procId];
    assert Recorded(v, ti.procId);
    if h.ret.Some? {
      var ended := p.(status := EndStatus(h.ret.value.0));
      UpdateHomes(v, Yielded(v, p, ti, h), ti.procId, ended,
                  [Completion(ti, p.backNotify, ended.status, h.ret.value.1, p.call)]);
    }
  }

  lemma FunctionHomes(w: World, h: Handler)
    requires Inv(w) && HomesOk(w) && w.q != [] && w.q[0].FunctionCall?
    requires w.q[0].ti.objId in w.objInfo && AllAllowed(w.objInfo[w.q[0].ti.objId].event, h.cmds)
    requires FunctionCallStep(Popped(w), w.q[0].call, w.q[0].ci, w.q[0].ti, h).Ok?
    ensures HomesOk(FunctionCallStep(Popped(w), w.q[0].call, w.q[0].ci, w.q[0].ti, h).value)
  {
    var call, ci, ti := w.q[0].call, w.q[0].ci, w.q[0].ti;
    CallTaken(w);
    PopHomes(w);
    BegunHomes(Popped(w), call, ci, ti);
    HandleHomes(Begun(Popped(w), call, ci, ti), ti, h);
    ReturnedHomes(ProcessQueued(RunHandler(Begun(Popped(w), call, ci, ti), ti.objId, h), ti).value, call, ci, ti, h);
  }

  lemma DataHomes(w: World, h: Handler)
    requires Inv(w) && HomesOk(w) && w.q != [] && w.q[0].Data? && Legal(w, Dequeue(h, []))
    requires DataStep(Popped(w), w.q[0].ti, w.q[0].data, h).Ok?
    ensures HomesOk(DataStep(Popped(w), w.q[0].ti, w.q[0].data, h).value)
  {
    var ti, u := w.q[0].ti, Popped(w);
    PopHomes(w);
    DataTaken(w);
    if ti.objId in u.objInfo && ti.procId in u.procToDat {
      HandleHomes(u, ti, h);
      YieldedHomes(ProcessQueued(RunHandler(u, ti.objId, h), ti).value, ti, h);
    }
  }

  lemma EnteredHomes(u: World, v: World, o: nat, obj: ObjectData)
    requires HomesOk(u) && o !in u.objInfo && o !in u.started && obj.assocProcs == []
    requires v == u.(objInfo := u.objInfo[o := obj], started := u.started + {o})
    ensures HomesOk(v)
  {
    assert Grows(u, v);
    PendingSame(u, v);
    MessagesKept(u, v);
    forall g | g in v.procToDat ensures Recorded(v, g) {
      assert Recorded(u, g);
      CallerHomeKept(u, v, u.procToDat[g].backNotify);
    }
    forall p | p in v.objInfo ensures Listed(v, p) { assert p != o ==> Listed(u, p); }
  }

  lemma ConstructHomes(w: World, h: Handler)
    requires Inv(w) && OrderOk(w) && HomesOk(w) && w.q != [] && w.q[0].ConstructorCall? && AllAllowed(NEW_EVENT, h.cmds)
    requires ConstructCall(Popped(w), w.q[0].ci, w.q[0].ti, h).Ok?
    ensures HomesOk(ConstructCall(Popped(w), w.q[0].ci, w.q[0].ti, h).value)
  {
    var ci, ti := w.q[0].ci, w.q[0].ti;
    var obj := ObjectData(NEW_EVENT, [], {(ci.threadId, ci.objId)}, map[]);
    var v := Popped(w).(objInfo := w.objInfo[ti.objId := obj], started := w.started + {ti.objId});
    PopOrder(w);
    PopHomes(w);
    ConstructLife(w, v, ti.objId, obj);
    EnteredOk(w, v, ti.objId, obj);
    EnteredHomes(Popped(w), v, ti.objId, obj);
    EnterThenRun(Popped(w), ci, ti, h, v);
    assert ObjectOk(v.objInfo[ti.objId]) && Inv(v);
    HandleHomes(v, ti, h);
  }

  // The records erased are those that the object lists.
  lemma DeleteHomes(w: World, order: seq<nat>)
    requires HomesOk(w) && w.q != [] && w.q[0].Delete?
    ensures HomesOk(DeleteStep(Popped(w), w.q[0].ci, w.q[0].ti.objId, order))
  {
    var o, u := w.q[0].ti.objId, Popped(w);
    PopHomes(w);
    if o in u.objInfo {
      var v := DeleteStep(u, w.q[0].ci, o, order);
      DeletesPending(u, v, w.q[0].ci, order);
      assert Grows(u, v);
      DeleteMessages(u.q, w.q[0].ci, order);
      MessagesKept(u, v);
      forall g | g in v.procToDat ensures Recorded(v, g) {
        assert Recorded(u, g);
        CallerHomeKept(u, v, u.procToDat[g].backNotify);
      }
      forall p | p in v.objInfo ensures Listed(v, p) { assert Listed(u, p) && Listed(u, o); }
    }
  }

  lemma DeletesPending(u: World, v: World, ci: CallerInfo, order: seq<nat>)
    requires PendingOk(u) && v.q == u.q + Deletes(ci, order) && v.procIds == u.procIds
    requires v.procToDat.Keys <= u.procToDat.Keys
    ensures PendingOk(v)
  {
    PendingJoin(u.q, Deletes(ci, order));
    DeleteMessages([], ci, order);
    assert [] + Deletes(ci, order) == Deletes(ci, order);
    NonePending(Deletes(ci, order));
    assert Pending(u.q) + [] == Pending(u.q);
  }

  lemma RootHomes(w: World)
    requires HomesOk(w) && w.q != [] && w.q[0].RootStart?
    ensures HomesOk(RootStartStep(Popped(w), w.q[0].ti))
  {
    var ti, u := w.q[0].ti, Popped(w);
    var a, b := ConstructorCall(NOBODY, TargetInfo(ti.objId, NONE)), FunctionCall(0, NOBODY, ti);
    var v := RootStartStep(u, ti);
    PopHomes(w);
    assert v.q == u.q + [a] + [b];
    RootPending(u.q, a, b);
    SnocDistinct(Pending(u.q), ti.procId);
    SameKept(u, v);
  }

  lemma RootPending(q: seq<Message>, a: Message, b: Message)
    requires a.ConstructorCall? && b.FunctionCall?
    ensures Pending(q + [a] + [b]) == Pending(q) + [b.ti.procId]
  {
    PendingJoin(q, [a]);
    PendingJoin(q + [a], [b]);
    assert [a][1..] == [] && [b][1..] == [];
    assert Pending([a]) == [] && Pending([b]) == [b.ti.procId];
    assert Pending(q) + [] == Pending(q);
  }

  lemma SnocDistinct(s: seq<nat>, g: nat)
    requires Distinct(s) && g !in s
    ensures Distinct(s + [g]) && forall k :: k in s + [g] ==> k in s || k == g
  {
  }

  lemma InitializedHomes(w: World, v: World, o: nat, p: nat)
    requires HomesOk(w) && SameHomes(w, v) && forall g :: g in w.procToDat ==> g in w.procIds.issued
    requires v.q == w.q + [RootStart(TargetInfo(o, p))]
    requires v.procIds.issued == w.procIds.issued + [p] && Distinct(v.procIds.issued)
    ensures HomesOk(v)
  {
    PendingJoin(w.q, [RootStart(TargetInfo(o, p))]);
    assert Pending([RootStart(TargetInfo(o, p))]) == [p];
    PendingMore(w, v, [p]);
    SameKept(w, v);
  }

  lemma InitializeHomes(w: World)
    requires Inv(w) && HomesOk(w)
    ensures HomesOk(Step(w, InitializeRoot).value)
  {
    Ids.DrawFresh(w.procIds, HANDLER);
    RecordsIssued(w);
    InitializedHomes(w, Step(w, InitializeRoot).value,
                     Ids.Draw(w.objIds, HANDLER).1, Ids.Draw(w.procIds, HANDLER).1);
  }

  lemma DataPushed(w: World, m: Message)
    requires HomesOk(w) && m.Data? && MessageHome(w, m)
    ensures HomesOk(Push(w, m))
  {
    PendingJoin(w.q, [m]);
    assert Pending([m]) == [] && Pending(w.q) + [] == Pending(w.q);
    PendingSame(w, Push(w, m));
    assert MessageHome(Push(w, m), m);
    SameKept(w, Push(w, m));
  }

  /** What the kernel does: it completes only operations that a procedure of the object, or its
      constructor, has submitted. */
  ghost predicate Faithful(w: World, i: Input) { i.Completes? ==> Home(w, i.ti.objId, i.ti.procId) }

  ghost predicate Housed(w: World) { Inv(w) && OrderOk(w) && HomesOk(w) }

  /** Every step keeps each recorded procedure with one living object. */
  lemma StepHomes(w: World, i: Input)
    requires Housed(w) && Legal(w, i) && Faithful(w, i)
    ensures Step(w, i).Ok? && Housed(Step(w, i).value)
  {
    StepOrder(w, i);
    match i
    case InitializeRoot => InitializeHomes(w);
    case Completes(ti, data) => DataPushed(w, Data(NOBODY, ti, data, 0));
    case Dequeue(h, order) =>
      if w.q != [] {
        HeadFindsObject(w);
        assert Popped(w) == w.(q := w.q[1..]);
        match w.q[0] {
          case RootStart(_) => RootHomes(w);
          case ConstructorCall(_, _) => ConstructHomes(w, h);
          case FunctionCall(_, _, _) => FunctionHomes(w, h);
          case Delete(_, _) => DeleteHomes(w, order);
          case Data(_, _, _, _) => DataHomes(w, h);
        }
      }
  }

  // ---------------------------------------------------------------- every run

  ghost predicate FaithfulRun(w: World, inputs: seq<Input>)
    requires LegalRun(w, inputs)
    decreases |inputs|
  {
    inputs != [] ==>
      Faithful(w, inputs[0]) && (Step(w, inputs[0]).Ok? ==> FaithfulRun(Step(w, inputs[0]).value, inputs[1..]))
  }

  lemma {:induction false} RunHoused(w: World, inputs: seq<Input>)
    requires Housed(w) && LegalRun(w, inputs) && FaithfulRun(w, inputs)
    ensures Run(w, inputs).Ok? && Housed(Run(w, inputs).value)
    decreases |inputs|
  {
    if inputs != [] {
      StepHomes(w, inputs[0]);
      RunHoused(Step(w, inputs[0]).value, inputs[1..]);
    }
  }

  // A queued completion finds its procedure recorded just when its object is alive, unless it is
  // for a constructor's call.
  lemma HousedAwaits(w: World, m: Message)
    requires Housed(w) && NONE !in w.procIds.issued && m in w.q && m.Data? && m.ti.objId in w.objInfo
    ensures m.ti.procId in w.procToDat <==> m.ti.procId != NONE
  {
    RecordsIssued(w);
    assert MessageHome(w, m) && Listed(w, m.ti.objId);
  }

  /** Delivery: wherever a run leads, the oldest completion is ignored, whatever the handler would do,
      if and only if its object is gone or it is for a call that a constructor made. */
  lemma IgnoredIff(inputs: seq<Input>)
    requires LegalRun(Initial(), inputs) && FaithfulRun(Initial(), inputs)
    ensures Run(Initial(), inputs).Ok? && Housed(Run(Initial(), inputs).value)
    ensures var w := Run(Initial(), inputs).value;
            NONE !in w.procIds.issued && w.q != [] && w.q[0].Data? ==>
              ((forall h :: Legal(w, Dequeue(h, [])) ==> Step(w, Dequeue(h, [])) == Ok(Popped(w))) <==>
               w.q[0].ti.objId !in w.objInfo || w.q[0].ti.procId == NONE)
  {
    InitialHoused();
    RunHoused(Initial(), inputs);
    var w := Run(Initial(), inputs).value;
    if NONE !in w.procIds.issued && w.q != [] && w.q[0].Data? {
      DeliveredIff(w);
      if w.q[0].ti.objId in w.objInfo {
        HousedAwaits(w, w.q[0]);
      }
    }
  }

  lemma InitialHoused()
    ensures Housed(Initial())
  {
    InitialOk();
  }

  /** Ownership of procedures: wherever a run leads, a recorded procedure is listed by one living
      object and by no other. */
  lemma OneHome(inputs: seq<Input>, g: nat, o: nat)
    requires LegalRun(Initial(), inputs) && FaithfulRun(Initial(), inputs)
    ensures Run(Initial(), inputs).Ok?
    ensures var w := Run(Initial(), inputs).value;
            && (g in w.procToDat ==> w.procToDat[g].assocObj in w.objInfo)
            && (o in w.objInfo ==>
                  (g in w.objInfo[o].assocProcs <==> g in w.procToDat && w.procToDat[g].assocObj == o))
  {
    InitialHoused();
    RunHoused(Initial(), inputs);
    var w := Run(Initial(), inputs).value;
    assert g in w.procToDat ==> Recorded(w, g);
    assert o in w.objInfo ==> Listed(w, o);
  }
}
