/** What every dispatched message keeps, and what follows for every run of the dispatcher. */
module DispatchLaws {
  import opened Wrappers
  import opened Events
  import opened Dispatch
  import opened Lifetimes
  import opened TaskIds
  import Ids

  // ---------------------------------------------------------------- parents before children

  ghost predicate Precedes(s: seq<nat>, p: nat, c: nat) {
    exists i, j :: 0 <= i < j < |s| && s[i] == p && s[j] == c
  }

  /** Every object was issued after the object that lists it: there are no cycles. */
  ghost predicate ForestOk(w: World) {
    forall p, c {:trigger Lists(w, p, c)} :: Lists(w, p, c) ==> Precedes(w.objIds.issued, p, c)
  }

  lemma PrecedesKept(s: seq<nat>, t: seq<nat>, p: nat, c: nat)
    requires s <= t && Precedes(s, p, c)
    ensures Precedes(t, p, c)
  {
    var i, j :| 0 <= i < j < |s| && s[i] == p && s[j] == c;
    assert t[i] == p && t[j] == c;
  }

  lemma NewPrecedes(s: seq<nat>, t: seq<nat>, p: nat, c: nat)
    requires s <= t && p in s && c in t && c !in s
    ensures Precedes(t, p, c)
  {
    var i :| 0 <= i < |s| && s[i] == p;
    var j :| 0 <= j < |t| && t[j] == c;
    assert s == t[..|s|];
    assert j >= |s| && t[i] == p;
  }

  lemma ForestKept(w: World, v: World, p: nat)
    requires ForestOk(w) && Adopts(w, v, p) && p in w.objIds.issued
    ensures ForestOk(v)
  {
    forall r, c | Lists(v, r, c) ensures Precedes(v.objIds.issued, r, c) {
      if Lists(w, r, c) {
        PrecedesKept(w.objIds.issued, v.objIds.issued, r, c);
      } else {
        NewPrecedes(w.objIds.issued, v.objIds.issued, r, c);
      }
    }
  }

  /** What the dispatcher keeps between messages. */
  ghost predicate Inv(w: World) { WorldOk(w) && ForestOk(w) }

  // ---------------------------------------------------------------- taking a message

  function Popped(w: World): World
    requires w.q != []
  {
    w.(q := w.q[1..])
  }

  lemma PopTags(w: World)
    requires w.q != [] && TagsOk(w)
    ensures TagsOk(Popped(w)) && MessageOk(w, w.q[0])
  {
    var v := Popped(w);
    assert w.q == [w.q[0]] + v.q;
    assert w.q[0] in w.q;
    forall p | p in v.objInfo ensures Issued(v, p) { assert Issued(w, p); }
    TagsKept(w, v);
  }

  // A call or a completion is taken: the objects and what is introduced stay the same.
  lemma PopIdle(w: World)
    requires w.q != [] && LifeOk(w) && (w.q[0].FunctionCall? || w.q[0].Data?)
    ensures LifeOk(Popped(w))
    ensures w.q[0].FunctionCall? ==> w.q[0].ti.objId in w.objInfo
  {
    var v := Popped(w);
    assert w.q == [w.q[0]] + v.q;
    SameLists(w, v);
  }

  // The record of procedure p may be started or updated.
  lemma RecordTags(w: World, v: World, p: nat, d: CallData)
    requires TagsOk(w) && v.q == w.q && v.procToDat == w.procToDat[p := d]
    requires v.procIds == w.procIds && v.started == w.started && v.objInfo.Keys == w.objInfo.Keys
    requires forall o :: o in w.objInfo ==> v.objInfo[o].event == w.objInfo[o].event
    requires p in w.procIds.issued && CallerKnows(w, d.backNotify, p, d.call)
    ensures TagsOk(v)
  {
    forall o | o in v.objInfo ensures Issued(v, o) { assert Issued(w, o); }
    assert CallerKnows(v, d.backNotify, p, d.call);
    TagsKept(w, v);
  }

  // Changing a record touches nothing but the task ids.
  lemma RecordWorldOk(w: World, p: nat, d: CallData)
    requires Inv(w) && p in w.procIds.issued && CallerKnows(w, d.backNotify, p, d.call)
    ensures Inv(w.(procToDat := w.procToDat[p := d]))
  {
    var v := w.(procToDat := w.procToDat[p := d]);
    RecordTags(w, v, p, d);
    SameLists(w, v);
  }

  lemma PushTags(w: World, m: Message)
    requires TagsOk(w) && MessageOk(w, m)
    ensures TagsOk(Push(w, m))
  {
    var v := Push(w, m);
    assert MessageOk(v, m);
    forall p | p in v.objInfo ensures Issued(v, p) { assert Issued(w, p); }
    TagsKept(w, v);
  }

  lemma PushDataOk(w: World, m: Message)
    requires Inv(w) && m.Data? && MessageOk(w, m)
    ensures Inv(Push(w, m))
  {
    PushTags(w, m);
    PushIntro(w, m, Push(w, m));
    SameLists(w, Push(w, m));
  }

  // ---------------------------------------------------------------- running a handler

  // An event of p changes, and keeps the ids it knew: the task ids stay in order.
  lemma EventTags(w: World, v: World, p: nat)
    requires TagsOk(w) && SameButFor(w, v, p) && v.q == w.q && v.procIds == w.procIds && v.procToDat == w.procToDat
    requires v.objInfo[p].event.globalToLocal == w.objInfo[p].event.globalToLocal
    ensures TagsOk(v) && Extends(w, v)
  {
    forall o | o in v.objInfo ensures Issued(v, o) { assert Issued(w, o); }
    TagsKept(w, v);
  }

  // p has run a handler: v is w but for p's event, and what that leaves to flush is in order.
  lemma EventReady(w: World, v: World, p: nat)
    requires LifeOk(w) && SourcesOk(w) && TagsOk(w) && OthersOk(w, p) && p in w.objInfo
    requires SameButFor(w, v, p) && v.q == w.q && v.objIds == w.objIds
    requires v.procIds == w.procIds && v.procToDat == w.procToDat
    requires v.objInfo[p].children == w.objInfo[p].children
    requires EventOk(v.objInfo[p].event, w.objInfo[p].children.Keys)
    requires v.objInfo[p].event.globalToLocal == w.objInfo[p].event.globalToLocal
    ensures Ready(v, p) && Extends(w, v)
  {
    EventTags(w, v, p);
    EventLife(w, v, p);
    OthersKept(w, v, p);
  }

  lemma OthersKept(w: World, v: World, p: nat)
    requires OthersOk(w, p) && SameButFor(w, v, p)
    ensures OthersOk(v, p)
  {
    forall o | o in v.objInfo && o != p ensures ObjectOk(v.objInfo[o]) { assert ObjectOk(w.objInfo[o]); }
  }

  /** An object in order may run any allowed handler. */
  lemma RunHandlerReady(w: World, p: nat, h: Handler)
    requires LifeOk(w) && SourcesOk(w) && TagsOk(w) && OthersOk(w, p)
    requires p in w.objInfo && ObjectOk(w.objInfo[p]) && AllAllowed(w.objInfo[p].event, h.cmds)
    ensures Ready(RunHandler(w, p, h), p)
    ensures Extends(w, RunHandler(w, p, h)) && Adopts(w, RunHandler(w, p, h), p)
  {
    var v := RunHandler(w, p, h);
    PerformAllOk(w.objInfo[p].event, w.objInfo[p].children.Keys, h.cmds);
    EventReady(w, v, p);
    SameAdopts(w, v, p);
  }

  // Flushing u, which is w after running a handler of p.
  lemma FlushReady(w: World, u: World, ti: TargetInfo)
    requires ForestOk(w) && Extends(w, u) && Adopts(w, u, ti.objId) && ti.objId in w.objIds.issued
    requires Ready(u, ti.objId)
    ensures ProcessQueued(u, ti).Ok?
    ensures var v := ProcessQueued(u, ti).value;
            Inv(v) && Flushes(u, v, ti.objId)
  {
    ProcessQueuedOk(u, ti);
    ForestKept(w, u, ti.objId);
    ForestKept(u, ProcessQueued(u, ti).value, ti.objId);
  }

  lemma ExtendsTrans(w: World, u: World, v: World, p: nat)
    requires Extends(w, u) && Flushes(u, v, p)
    ensures Extends(w, v)
  {
  }

  // Running and flushing a handler of p.
  lemma HandleAt(w: World, ti: TargetInfo, h: Handler)
    requires LifeOk(w) && SourcesOk(w) && TagsOk(w) && ForestOk(w) && OthersOk(w, ti.objId)
    requires ti.objId in w.objInfo && ObjectOk(w.objInfo[ti.objId]) && AllAllowed(w.objInfo[ti.objId].event, h.cmds)
    ensures ProcessQueued(RunHandler(w, ti.objId, h), ti).Ok?
    ensures var v := ProcessQueued(RunHandler(w, ti.objId, h), ti).value;
            && Inv(v) && Extends(w, v) && v.procToDat == w.procToDat && Adopts(w, v, ti.objId)
            && v.objInfo.Keys == w.objInfo.Keys && v.roots == w.roots
  {
    var u := RunHandler(w, ti.objId, h);
    RunHandlerReady(w, ti.objId, h);
    FlushReady(w, u, ti);
    ExtendsTrans(w, u, ProcessQueued(u, ti).value, ti.objId);
    AdoptsTrans(w, u, ProcessQueued(u, ti).value, ti.objId);
  }

  lemma AdoptsTrans(w: World, u: World, v: World, p: nat)
    requires Adopts(w, u, p) && Adopts(u, v, p) && u.objIds == w.objIds
    ensures Adopts(w, v, p)
  {
  }

  // ---------------------------------------------------------------- constructor calls

  lemma ConstructLife(w: World, v: World, o: nat, obj: ObjectData)
    requires w.q != [] && LifeOk(w) && w.q[0].ConstructorCall? && w.q[0].ti.objId == o
    requires v == Popped(w).(objInfo := w.objInfo[o := obj], started := w.started + {o})
    requires obj.children == map[]
    ensures o !in w.objInfo && o !in w.started
    ensures LifeOk(v) && (forall p, c :: Lists(v, p, c) == Lists(w, p, c))
  {
    assert w.q == [w.q[0]] + v.q;
    assert o in Intro(w.q);
    assert v.objInfo.Keys == After(w.q[0], w.objInfo.Keys);
    assert forall p, c :: Lists(v, p, c) == Lists(w, p, c);
    assert forall c :: Owned(v, c) == Owned(w, c) by {
      forall c ensures Owned(v, c) == Owned(w, c) {
        if Owned(w, c) { var p :| Lists(w, p, c); assert Lists(v, p, c); }
        if Owned(v, c) { var p :| Lists(v, p, c); assert Lists(w, p, c); }
      }
    }
  }

  lemma ConstructTagsOk(w: World, v: World, o: nat, obj: ObjectData)
    requires TagsOk(w) && w.q != [] && o !in w.started
    requires v == Popped(w).(objInfo := w.objInfo[o := obj], started := w.started + {o})
    requires obj.event.globalToLocal == map[]
    ensures TagsOk(v)
  {
    assert w.q == [w.q[0]] + v.q;
    forall p | p in v.objInfo ensures Issued(v, p) {
      if p != o { assert Issued(w, p); }
    }
    TagsKept(w, v);
  }

  // The world with the object of a constructor call entered, before its constructor runs.
  lemma EnteredOk(w: World, v: World, o: nat, obj: ObjectData)
    requires Inv(w) && w.q != [] && w.q[0].ConstructorCall? && w.q[0].ti.objId == o
    requires v == Popped(w).(objInfo := w.objInfo[o := obj], started := w.started + {o})
    requires obj.children == map[] && obj.event == NEW_EVENT
    ensures o !in w.objInfo
    ensures LifeOk(v) && SourcesOk(v) && TagsOk(v) && ForestOk(v) && OthersOk(v, o) && ObjectOk(v.objInfo[o])
  {
    ConstructLife(w, v, o, obj);
    ConstructTagsOk(w, v, o, obj);
    NewEventOk();
    assert obj.children.Keys == {};
    forall p, c | Lists(v, p, c) ensures Precedes(v.objIds.issued, p, c) { assert Lists(w, p, c); }
  }

  lemma ConstructStepOk(w: World, h: Handler)
    requires Inv(w) && w.q != [] && w.q[0].ConstructorCall? && AllAllowed(NEW_EVENT, h.cmds)
    ensures ConstructCall(Popped(w), w.q[0].ci, w.q[0].ti, h).Ok?
    ensures Inv(ConstructCall(Popped(w), w.q[0].ci, w.q[0].ti, h).value)
  {
    var ci, ti := w.q[0].ci, w.q[0].ti;
    var obj := ObjectData(NEW_EVENT, [], {(ci.threadId, ci.objId)}, map[]);
    var v := Popped(w).(objInfo := w.objInfo[ti.objId := obj], started := w.started + {ti.objId});
    EnteredOk(w, v, ti.objId, obj);
    HandleAt(v, ti, h);
    EnterThenRun(Popped(w), ci, ti, h, v);
  }

  // Entering the object and then running the constructor is entering what it builds.
  lemma EnterThenRun(u: World, ci: CallerInfo, ti: TargetInfo, h: Handler, v: World)
    requires ti.objId !in u.objInfo && AllAllowed(NEW_EVENT, h.cmds) && HasCursors(u)
    requires v == u.(objInfo := u.objInfo[ti.objId := ObjectData(NEW_EVENT, [], {(ci.threadId, ci.objId)}, map[])],
                     started := u.started + {ti.objId})
    ensures ConstructCall(u, ci, ti, h) == ProcessQueued(RunHandler(v, ti.objId, h), ti)
  {
    var built := ObjectData(PerformAll(NEW_EVENT, h.cmds), [], {(ci.threadId, ci.objId)}, map[]);
    assert RunHandler(v, ti.objId, h).objInfo == u.objInfo[ti.objId := built];
  }

  lemma NewEventOk()
    ensures EventOk(NEW_EVENT, {}) && Flushed(NEW_EVENT)
  {
    assert forall ty, i :: At(NEW_EVENT, ty, i) == None;
    assert forall ty, i :: Locator(NEW_EVENT, ty, i) == None;
  }

  // ---------------------------------------------------------------- function calls

  // A procedure joins the list of its object, which changes nothing that the invariant speaks of.
  lemma AssocOk(w: World, v: World, o: nat)
    requires Inv(w) && SameButFor(w, v, o)
    requires v.q == w.q && v.objIds == w.objIds && v.procIds == w.procIds && v.procToDat == w.procToDat
    requires v.objInfo[o].children == w.objInfo[o].children && v.objInfo[o].event == w.objInfo[o].event
    ensures Inv(v) && Extends(w, v)
  {
    EventTags(w, v, o);
    EventLife(w, v, o);
    assert o in w.started;
    SameAdopts(w, v, o);
    ForestKept(w, v, o);
    assert ObjectOk(w.objInfo[o]);
    OthersKept(w, v, o);
  }

  lemma BegunOk(w: World, call: nat, ci: CallerInfo, ti: TargetInfo)
    requires Inv(w) && ti.objId in w.objInfo && ti.procId in w.procIds.issued && CallerKnows(w, ci, ti.procId, call)
    ensures Inv(Begun(w, call, ci, ti)) && Extends(w, Begun(w, call, ci, ti))
  {
    var obj := w.objInfo[ti.objId];
    var listed := w.(objInfo := w.objInfo[ti.objId := obj.(assocProcs := obj.assocProcs + [ti.procId])]);
    AssocOk(w, listed, ti.objId);
    RecordWorldOk(listed, ti.procId, Started(call, ci, ti.objId));
  }

  // The record of a finished procedure is closed and its caller is told.
  lemma EndCall(v: World, ti: TargetInfo, d: CallData, code: int)
    requires Inv(v) && ti.procId in v.procIds.issued && CallerKnows(v, d.backNotify, ti.procId, d.call)
    requires d.backNotify.threadId == THREAD
    ensures Inv(Push(v.(procToDat := v.procToDat[ti.procId := d]),
                     Completion(ti, d.backNotify, d.status, code, d.call)))
  {
    var u := v.(procToDat := v.procToDat[ti.procId := d]);
    RecordWorldOk(v, ti.procId, d);
    assert Knows(u, d.backNotify.objId, ti.procId, d.call);
    PushDataOk(u, Completion(ti, d.backNotify, d.status, code, d.call));
  }

  lemma ReturnedOk(v: World, call: nat, ci: CallerInfo, ti: TargetInfo, h: Handler)
    requires Inv(v) && ti.procId in v.procIds.issued && CallerKnows(v, ci, ti.procId, call)
    ensures Inv(Returned(v, call, ci, ti, h))
  {
    var d := Started(call, ci, ti.objId);
    match h.ret {
      case None => RecordWorldOk(v, ti.procId, d.(status := if h.success then Running else Degraded));
      case Some((failed, code)) =>
        var ended := d.(status := EndStatus(failed), returnCode := code);
        if ci.threadId == THREAD {
          EndCall(v, ti, ended, code);
        } else {
          RecordWorldOk(v, ti.procId, ended);
        }
    }
  }

  // The oldest call is taken, and its function may run.
  lemma CallTaken(w: World)
    requires Inv(w) && w.q != [] && w.q[0].FunctionCall?
    ensures var u, m := Popped(w), w.q[0];
            && m.ti.objId in u.objInfo && MessageOk(u, m)
            && Inv(Begun(u, m.call, m.ci, m.ti)) && Extends(u, Begun(u, m.call, m.ci, m.ti))
  {
    PopIdle(w);
    PopTags(w);
    SameLists(w, Popped(w));
    MessageKept(w, Popped(w), w.q[0]);
    BegunOk(Popped(w), w.q[0].call, w.q[0].ci, w.q[0].ti);
  }

  lemma FunctionStepOk(w: World, h: Handler)
    requires Inv(w) && w.q != [] && w.q[0].FunctionCall?
    requires w.q[0].ti.objId in w.objInfo && AllAllowed(w.objInfo[w.q[0].ti.objId].event, h.cmds)
    ensures FunctionCallStep(Popped(w), w.q[0].call, w.q[0].ci, w.q[0].ti, h).Ok?
    ensures Inv(FunctionCallStep(Popped(w), w.q[0].call, w.q[0].ci, w.q[0].ti, h).value)
  {
    var call, ci, ti := w.q[0].call, w.q[0].ci, w.q[0].ti;
    CallTaken(w);
    var begun := Begun(Popped(w), call, ci, ti);
    HandleTaken(begun, ti, h);
    var v := ProcessQueued(RunHandler(begun, ti.objId, h), ti).value;
    MessageKept(Popped(w), begun, w.q[0]);
    MessageKept(begun, v, w.q[0]);
    ReturnedOk(v, call, ci, ti, h);
  }

  // HandleAt where everything is in order.
  lemma HandleTaken(w: World, ti: TargetInfo, h: Handler)
    requires Inv(w) && ti.objId in w.objInfo && AllAllowed(w.objInfo[ti.objId].event, h.cmds)
    ensures ProcessQueued(RunHandler(w, ti.objId, h), ti).Ok?
    ensures var v := ProcessQueued(RunHandler(w, ti.objId, h), ti).value;
            && Inv(v) && Extends(w, v) && v.procToDat == w.procToDat && Adopts(w, v, ti.objId)
            && v.objInfo.Keys == w.objInfo.Keys && v.roots == w.roots
  {
    assert ObjectOk(w.objInfo[ti.objId]);
    HandleAt(w, ti, h);
  }

  // ---------------------------------------------------------------- completions

  /** A queued completion translates, in a caller that is alive, to the local id of the call it
      completes; the maps that translate it back and forth agree on it. */
  lemma TaskIdRoundTrip(w: World, ti: TargetInfo, ci: CallerInfo, data: EventType, call: nat)
    requires Inv(w) && Data(ci, ti, data, call) in w.q
    requires data.ChildTaskCompletion? && ti.objId in w.objInfo
    ensures var e := w.objInfo[ti.objId].event;
            && MapEventData(e, data) == (e, data.(taskId := call))
            && call in e.localToGlobal && e.localToGlobal[call] == data.taskId
  {
    assert MessageOk(w, Data(ci, ti, data, call));
    assert ObjectOk(w.objInfo[ti.objId]);
  }

  // The oldest completion is taken; its task id is known, so translating it changes nothing.
  lemma DataTaken(w: World)
    requires Inv(w) && w.q != [] && w.q[0].Data?
    ensures Inv(Popped(w))
    ensures w.q[0].ti.objId in w.objInfo ==> Yielding(Popped(w), w.q[0].ti.objId, w.q[0].data) == Popped(w)
  {
    var ti, data := w.q[0].ti, w.q[0].data;
    PopIdle(w);
    PopTags(w);
    SameLists(w, Popped(w));
    if ti.objId in w.objInfo && data.ChildTaskCompletion? {
      TaskIdRoundTrip(w, ti, w.q[0].ci, data, w.q[0].call);
    }
  }

  lemma YieldedOk(u: World, v: World, ti: TargetInfo, h: Handler)
    requires Inv(u) && Inv(v) && Extends(u, v) && v.procToDat == u.procToDat && ti.procId in u.procToDat
    requires u.procToDat[ti.procId].backNotify.threadId == NO_THREAD ==> h.ret.None?
    ensures Inv(Yielded(v, u.procToDat[ti.procId], ti, h))
  {
    assert RecordOk(u, ti.procId);
    RecordKept(u, v, ti.procId);
    if h.ret.Some? {
      EndCall(v, ti, u.procToDat[ti.procId].(status := EndStatus(h.ret.value.0)), h.ret.value.1);
    }
  }

  lemma DataStepOk(w: World, h: Handler, order: seq<nat>)
    requires Inv(w) && w.q != [] && w.q[0].Data? && Legal(w, Dequeue(h, order))
    ensures Handle(Popped(w), w.q[0], h, order).Ok?
    ensures Inv(Handle(Popped(w), w.q[0], h, order).value)
  {
    var ti, u := w.q[0].ti, Popped(w);
    DataTaken(w);
    if ti.objId in u.objInfo && ti.procId in u.procToDat {
      HandleTaken(u, ti, h);
      YieldedOk(u, ProcessQueued(RunHandler(u, ti.objId, h), ti).value, ti, h);
    }
  }

  // ---------------------------------------------------------------- deletions

  lemma {:induction false} PushDeletes(q: seq<Message>, alive: set<nat>, ci: CallerInfo, os: seq<nat>)
    requires Safe(q, alive) && (forall o :: o in os ==> o in Final(q, alive))
    requires forall i, j :: 0 <= i < j < |os| ==> os[i] != os[j]
    ensures Safe(q + Deletes(ci, os), alive) && Intro(q + Deletes(ci, os)) == Intro(q)
    ensures forall o :: o in Final(q + Deletes(ci, os), alive) <==> o in Final(q, alive) && o !in os
    decreases |os|
  {
    if os == [] {
      assert q + [] == q;
    } else {
      var m := Delete(ci, TargetInfo(os[0], NONE));
      SafePush(q, alive, m);
      assert os[0] in os;
      assert forall o :: o in os[1..] ==> o in os && o != os[0];
      assert forall i :: 0 <= i < |os[1..]| ==> os[1..][i] == os[i + 1];
      PushDeletes(q + [m], alive, ci, os[1..]);
      assert q + Deletes(ci, os) == (q + [m]) + Deletes(ci, os[1..]);
      assert forall o :: o in os <==> o == os[0] || o in os[1..];
    }
  }

  lemma DeleteLife(w: World, v: World, order: seq<nat>)
    requires LifeOk(w) && w.q != [] && w.q[0].Delete?
    requires w.q[0].ti.objId in w.objInfo && Enumerates(order, w.objInfo[w.q[0].ti.objId].children.Keys)
    requires v.q == w.q[1..] + Deletes(w.q[0].ci, order) && v.objInfo == w.objInfo - {w.q[0].ti.objId}
    requires v.objIds == w.objIds && v.roots == w.roots && v.started == w.started
    ensures LifeOk(v)
  {
    var o, rest := w.q[0].ti.objId, w.q[1..];
    assert w.q == [w.q[0]] + rest;
    assert v.objInfo.Keys == After(w.q[0], w.objInfo.Keys);
    forall c | c in order ensures c in Final(rest, v.objInfo.Keys) {
      assert Lists(w, o, c) && Owned(w, c);
    }
    PushDeletes(rest, v.objInfo.Keys, w.q[0].ci, order);
    DeleteMessages(rest, w.q[0].ci, order);
    assert forall p, c :: Lists(v, p, c) <==> Lists(w, p, c) && p != o;
    forall c ensures Owned(v, c) <==> Owned(w, c) && c !in order {
      if Owned(v, c) { var p :| Lists(v, p, c); assert Lists(w, p, c) && (c in order ==> Lists(w, o, c)); }
      if Owned(w, c) && c !in order { var p :| Lists(w, p, c); assert Lists(v, p, c); }
    }
  }

  lemma DeleteStepOk(w: World, order: seq<nat>)
    requires Inv(w) && w.q != [] && w.q[0].Delete?
    requires w.q[0].ti.objId in w.objInfo && Enumerates(order, w.objInfo[w.q[0].ti.objId].children.Keys)
    ensures Inv(DeleteStep(Popped(w), w.q[0].ci, w.q[0].ti.objId, order))
  {
    var v := DeleteStep(Popped(w), w.q[0].ci, w.q[0].ti.objId, order);
    DeleteLife(w, v, order);
    DeleteMessages(w.q[1..], w.q[0].ci, order);
    assert w.q == [w.q[0]] + w.q[1..];
    forall p | p in v.objInfo ensures Issued(v, p) { assert Issued(w, p); }
    TagsKept(w, v);
    forall p, c | Lists(v, p, c) ensures Precedes(v.objIds.issued, p, c) { assert Lists(w, p, c); }
  }

  lemma DeleteMessages(q: seq<Message>, ci: CallerInfo, os: seq<nat>)
    ensures forall m :: m in q + Deletes(ci, os) ==> m in q || m.Delete?
  {
  }

  // ---------------------------------------------------------------- root events

  lemma RootLife(w: World, v: World)
    requires LifeOk(w) && w.q != [] && w.q[0].RootStart? && v == RootStartStep(Popped(w), w.q[0].ti)
    ensures LifeOk(v)
  {
    var ti, u := w.q[0].ti, Popped(w);
    var a, b := ConstructorCall(NOBODY, TargetInfo(ti.objId, NONE)), FunctionCall(0, NOBODY, ti);
    assert w.q == [w.q[0]] + u.q && w.q[0] in w.q;
    FinalBound(u.q, u.objInfo.Keys);
    SafePush(u.q, u.objInfo.Keys, a);
    SafePush(u.q + [a], u.objInfo.Keys, b);
    assert v.q == u.q + [a] + [b];
    SameLists(w, v);
  }

  lemma RootTags(w: World, v: World)
    requires TagsOk(w) && w.q != [] && w.q[0].RootStart? && v == RootStartStep(Popped(w), w.q[0].ti)
    ensures TagsOk(v)
  {
    var ti := w.q[0].ti;
    PopTags(w);
    assert w.q == [w.q[0]] + w.q[1..];
    assert MessageOk(v, ConstructorCall(NOBODY, TargetInfo(ti.objId, NONE)));
    assert MessageOk(v, FunctionCall(0, NOBODY, ti));
    forall p | p in v.objInfo ensures Issued(v, p) { assert Issued(w, p); }
    TagsKept(w, v);
  }

  lemma RootStepOk(w: World)
    requires Inv(w) && w.q != [] && w.q[0].RootStart?
    ensures Inv(RootStartStep(Popped(w), w.q[0].ti))
  {
    var v := RootStartStep(Popped(w), w.q[0].ti);
    RootLife(w, v);
    RootTags(w, v);
    forall p, c | Lists(v, p, c) ensures Precedes(v.objIds.issued, p, c) { assert Lists(w, p, c); }
  }

  lemma InitializeRootLife(w: World, v: World, o: nat, p: nat)
    requires LifeOk(w) && o !in w.objIds.issued && v.objIds.issued == w.objIds.issued + [o]
    requires v.q == w.q + [RootStart(TargetInfo(o, p))] && v.objInfo == w.objInfo
    requires v.roots == w.roots + {o} && v.started == w.started
    ensures LifeOk(v)
  {
    FinalBound(w.q, w.objInfo.Keys);
    PushIntro(w, RootStart(TargetInfo(o, p)), v);
    NotListed(w, o);
    SameLists(w, v);
  }

  lemma InitializeRootTags(w: World, v: World, o: nat, p: nat)
    requires TagsOk(w) && v.q == w.q + [RootStart(TargetInfo(o, p))] && v.objInfo == w.objInfo
    requires v.procIds.issued == w.procIds.issued + [p] && v.started == w.started && v.procToDat == w.procToDat
    ensures TagsOk(v)
  {
    forall r | r in v.objInfo ensures Issued(v, r) { assert Issued(w, r); }
    assert MessageOk(v, RootStart(TargetInfo(o, p)));
    TagsKept(w, v);
  }

  lemma SameListsForest(w: World, v: World)
    requires ForestOk(w) && v.objInfo == w.objInfo && w.objIds.issued <= v.objIds.issued
    ensures ForestOk(v)
  {
    forall r, c | Lists(v, r, c) ensures Precedes(v.objIds.issued, r, c) {
      assert Lists(w, r, c);
      PrecedesKept(w.objIds.issued, v.objIds.issued, r, c);
    }
  }

  lemma InitializedOk(w: World, v: World, o: nat, p: nat)
    requires Inv(w) && SourcesOk(v) && o !in w.objIds.issued
    requires v.objIds.issued == w.objIds.issued + [o] && v.procIds.issued == w.procIds.issued + [p]
    requires v.q == w.q + [RootStart(TargetInfo(o, p))] && v.objInfo == w.objInfo && v.procToDat == w.procToDat
    requires v.roots == w.roots + {o} && v.started == w.started
    ensures Inv(v)
  {
    InitializeRootLife(w, v, o, p);
    InitializeRootTags(w, v, o, p);
    SameListsForest(w, v);
  }

  lemma InitializeRootOk(w: World)
    requires Inv(w)
    ensures Step(w, InitializeRoot).Ok? && Inv(Step(w, InitializeRoot).value)
  {
    Ids.DrawFresh(w.objIds, HANDLER);
    Ids.DrawFresh(w.procIds, HANDLER);
    InitializedOk(w, Step(w, InitializeRoot).value, Ids.Draw(w.objIds, HANDLER).1, Ids.Draw(w.procIds, HANDLER).1);
  }
}
