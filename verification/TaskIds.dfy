/** Task ids: a completion reaches the caller under the local id that its call returned. */
module TaskIds {
  import opened Wrappers
  import opened Events
  import opened Dispatch
  import opened Lifetimes
  import Ids

  // Object p, unless it is gone, knows procedure g as its own call l.
  ghost predicate Knows(w: World, p: nat, g: nat, l: nat) {
    && p in w.started
    && (p in w.objInfo ==>
          g in w.objInfo[p].event.globalToLocal && w.objInfo[p].event.globalToLocal[g] == l)
  }

  ghost predicate CallerKnows(w: World, ci: CallerInfo, g: nat, l: nat) {
    ci.threadId == NO_THREAD || (ci.threadId == THREAD && Knows(w, ci.objId, g, l))
  }

  ghost predicate MessageOk(w: World, m: Message) {
    match m
    case RootStart(ti) => ti.procId in w.procIds.issued
    case FunctionCall(call, ci, ti) => ti.procId in w.procIds.issued && CallerKnows(w, ci, ti.procId, call)
    case Data(_, ti, data, call) => data.ChildTaskCompletion? ==> Knows(w, ti.objId, data.taskId, call)
    case _ => true
  }

  ghost predicate RecordOk(w: World, g: nat) {
    g in w.procToDat ==>
      g in w.procIds.issued && CallerKnows(w, w.procToDat[g].backNotify, g, w.procToDat[g].call)
  }

  ghost predicate TagsOk(w: World) {
    && (forall m {:trigger MessageOk(w, m)} :: m in w.q ==> MessageOk(w, m))
    && (forall g {:trigger RecordOk(w, g)} :: g in w.procToDat ==> RecordOk(w, g))
    && (forall p {:trigger Issued(w, p)} :: p in w.objInfo ==> Issued(w, p))
  }

  // ---------------------------------------------------------------- growing worlds

  ghost predicate Includes(a: map<nat, nat>, b: map<nat, nat>) {
    forall g :: g in b ==> g in a && a[g] == b[g]
  }

  /** v still has whatever w knew: ids stay issued, and objects that stay keep their ids. */
  ghost predicate Extends(w: World, v: World) {
    && w.started <= v.started
    && (forall g :: g in w.procIds.issued ==> g in v.procIds.issued)
    && (forall p {:trigger p in v.objInfo} :: p in v.objInfo && p in w.started ==>
          p in w.objInfo && Includes(v.objInfo[p].event.globalToLocal, w.objInfo[p].event.globalToLocal))
  }

  lemma MessageKept(w: World, v: World, m: Message)
    requires Extends(w, v) && MessageOk(w, m)
    ensures MessageOk(v, m)
  {
  }

  lemma RecordKept(w: World, v: World, g: nat)
    requires Extends(w, v) && RecordOk(w, g) && g in w.procToDat && g in v.procToDat
    requires v.procToDat[g].backNotify == w.procToDat[g].backNotify && v.procToDat[g].call == w.procToDat[g].call
    ensures RecordOk(v, g)
  {
  }

  /** The ids stay in order when the world grows, old records keep caller and call, and each new
      message, record and object is in order by itself. */
  lemma TagsKept(w: World, v: World)
    requires TagsOk(w) && Extends(w, v)
    requires forall m :: m in v.q ==> m in w.q || MessageOk(v, m)
    requires forall g :: g in v.procToDat ==>
               || (g in w.procToDat && v.procToDat[g].backNotify == w.procToDat[g].backNotify
                     && v.procToDat[g].call == w.procToDat[g].call)
               || RecordOk(v, g)
    requires forall p :: p in v.objInfo ==> Issued(v, p)
    ensures TagsOk(v)
  {
    forall m | m in v.q ensures MessageOk(v, m) {
      if m in w.q {
        assert MessageOk(w, m);
        MessageKept(w, v, m);
      }
    }
    forall g | g in v.procToDat ensures RecordOk(v, g) {
      if g in w.procToDat && v.procToDat[g].backNotify == w.procToDat[g].backNotify
         && v.procToDat[g].call == w.procToDat[g].call {
        assert RecordOk(w, g);
        RecordKept(w, v, g);
      }
    }
  }

  lemma AppendTags(w: World, v: World, m: Message)
    requires TagsOk(w) && Extends(w, v) && v.q == w.q + [m] && v.procToDat == w.procToDat
    requires MessageOk(v, m) && forall p :: p in v.objInfo ==> Issued(v, p)
    ensures TagsOk(v)
  {
    TagsKept(w, v);
  }

  // ---------------------------------------------------------------- the three flushes

  // The children that p gained are new objects, issued after every object of w.
  ghost predicate Adopts(w: World, v: World, p: nat) {
    && w.objIds.issued <= v.objIds.issued
    && (forall r, c {:trigger Lists(v, r, c)} :: Lists(v, r, c) ==>
          Lists(w, r, c) || (r == p && c in v.objIds.issued && c !in w.objIds.issued))
  }

  // v differs from w by flushing something of object p.
  ghost predicate Flushes(w: World, v: World, p: nat) {
    SameButFor(w, v, p) && Extends(w, v) && v.procToDat == w.procToDat && Adopts(w, v, p)
  }

  lemma FlushesTrans(w: World, v: World, u: World, p: nat)
    requires Flushes(w, v, p) && Flushes(v, u, p)
    ensures Flushes(w, u, p)
  {
  }

  lemma FlushesRefl(w: World, p: nat)
    requires p in w.objInfo
    ensures Flushes(w, w, p)
  {
  }

  lemma NamedAdopts(w: World, v: World, ti: TargetInfo, c: QueuedConstruct, n: nat)
    requires Named(w, v, ti, c, n)
    ensures Adopts(w, v, ti.objId)
  {
    forall r, d | Lists(v, r, d) && !Lists(w, r, d) ensures r == ti.objId && d == n {
      assert d in v.objInfo[r].children.Keys;
    }
  }

  lemma SameAdopts(w: World, v: World, p: nat)
    requires SameButFor(w, v, p) && v.objInfo[p].children.Keys <= w.objInfo[p].children.Keys
    requires v.objIds == w.objIds
    ensures Adopts(w, v, p)
  {
    forall r, d | Lists(v, r, d) ensures Lists(w, r, d) {
      assert d in v.objInfo[r].children.Keys;
    }
  }

  lemma ConstructTags(w: World, v: World, ti: TargetInfo, c: QueuedConstruct, n: nat)
    requires TagsOk(w) && Named(w, v, ti, c, n) && v.procIds == w.procIds && v.procToDat == w.procToDat
    ensures TagsOk(v) && Flushes(w, v, ti.objId)
  {
    NamedAdopts(w, v, ti, c, n);
    assert v.objInfo[ti.objId].event.globalToLocal == w.objInfo[ti.objId].event.globalToLocal;
    forall p | p in v.objInfo ensures Issued(v, p) {
      assert Issued(w, p);
    }
    TagsKept(w, v);
  }

  lemma CallExtends(w: World, v: World, ti: TargetInfo, f: QueuedFunction, target: nat, g: nat)
    requires TagsOk(w) && LifeOk(w) && Called(w, v, ti, f, target, g)
    ensures Extends(w, v) && Knows(v, ti.objId, g, f.localId)
  {
    assert Issued(w, ti.objId);
    assert g !in w.objInfo[ti.objId].event.globalToLocal;
  }

  lemma CallIssues(w: World, v: World, ti: TargetInfo, f: QueuedFunction, target: nat, g: nat)
    requires TagsOk(w) && Called(w, v, ti, f, target, g)
    ensures forall p :: p in v.objInfo ==> Issued(v, p)
  {
    forall p | p in v.objInfo ensures Issued(v, p) {
      assert Issued(w, p);
    }
  }

  lemma CallTags(w: World, v: World, ti: TargetInfo, f: QueuedFunction, target: nat, g: nat)
    requires TagsOk(w) && LifeOk(w) && Called(w, v, ti, f, target, g)
    ensures TagsOk(v) && Flushes(w, v, ti.objId)
  {
    CallExtends(w, v, ti, f, target, g);
    SameAdopts(w, v, ti.objId);
    CallIssues(w, v, ti, f, target, g);
    AppendTags(w, v, FunctionCall(f.localId, CallerInfo(THREAD, ti.objId, ti.procId), TargetInfo(target, g)));
  }

  lemma DeleteTags(w: World, ti: TargetInfo, d: nat)
    requires TagsOk(w) && ti.objId in w.objInfo
    ensures TagsOk(DeleteOne(w, ti, d)) && Flushes(w, DeleteOne(w, ti, d), ti.objId)
  {
    var v := DeleteOne(w, ti, d);
    SameAdopts(w, v, ti.objId);
    forall p | p in v.objInfo ensures Issued(v, p) {
      assert Issued(w, p);
    }
    TagsKept(w, v);
  }

  lemma {:induction false} FlushConstructOk(w: World, ti: TargetInfo, cs: seq<QueuedConstruct>,
                                            fs: seq<QueuedFunction>, ds: seq<nat>)
    requires Flushing(w, ti.objId, cs, fs, ds) && TagsOk(w)
    ensures var v := FlushConstruct(w, ti, cs);
            Flushing(v, ti.objId, [], fs, ds) && TagsOk(v) && Flushes(w, v, ti.objId)
    decreases |cs|
  {
    if cs == [] {
      FlushesRefl(w, ti.objId);
    } else {
      assert cs[0] in cs && At(w.objInfo[ti.objId].event, cs[0].idx, cs[0].vidx) == Some(EventInfo(None));
      var v, n := ConstructOne(w, ti, cs[0]), Ids.Draw(w.objIds, THREAD).1;
      ConstructOneNames(w, ti, cs[0]);
      NamedOk(w, v, ti, cs, fs, ds, n);
      ConstructTags(w, v, ti, cs[0], n);
      FlushConstructOk(v, ti, cs[1..], fs, ds);
      FlushesTrans(w, v, FlushConstruct(v, ti, cs[1..]), ti.objId);
    }
  }

  /** The flush of the calls never throws. */
  lemma {:induction false} FlushFunctionOk(w: World, ti: TargetInfo, fs: seq<QueuedFunction>, ds: seq<nat>)
    requires Flushing(w, ti.objId, [], fs, ds) && TagsOk(w)
    ensures FlushFunction(w, ti, fs).Ok?
    ensures var v := FlushFunction(w, ti, fs).value;
            Flushing(v, ti.objId, [], [], ds) && TagsOk(v) && Flushes(w, v, ti.objId)
    decreases |fs|
  {
    if fs == [] {
      FlushesRefl(w, ti.objId);
    } else {
      assert Issued(w, ti.objId);
      FunctionOneOk(w, ti, fs, ds);
      var obj, f := w.objInfo[ti.objId], fs[0];
      var v := FunctionOne(w, ti, f).value;
      CallFindsChild(obj.event, obj.children.Keys, fs, ds);
      if At(obj.event, f.idx, f.vidx).Some? {
        FunctionOneCalls(w, ti, f);
        CallTags(w, v, ti, f, At(obj.event, f.idx, f.vidx).value.locator.value, Ids.Draw(w.procIds, THREAD).1);
      } else {
        FlushesRefl(w, ti.objId);
      }
      FlushFunctionOk(v, ti, fs[1..], ds);
      FlushesTrans(w, v, FlushFunction(v, ti, fs[1..]).value, ti.objId);
    }
  }

  lemma {:induction false} FlushDeleteOk(w: World, ti: TargetInfo, ds: seq<nat>)
    requires Flushing(w, ti.objId, [], [], ds) && TagsOk(w)
    ensures var v := FlushDelete(w, ti, ds);
            Flushing(v, ti.objId, [], [], []) && TagsOk(v) && Flushes(w, v, ti.objId)
    decreases |ds|
  {
    if ds == [] {
      FlushesRefl(w, ti.objId);
    } else {
      var v := DeleteOne(w, ti, ds[0]);
      DeleteOneOk(w, ti, ds);
      DeleteTags(w, ti, ds[0]);
      FlushDeleteOk(v, ti, ds[1..]);
      FlushesTrans(w, v, FlushDelete(v, ti, ds[1..]), ti.objId);
    }
  }

  /** Everything the dispatcher keeps between messages. */
  ghost predicate WorldOk(w: World) {
    && LifeOk(w) && SourcesOk(w) && TagsOk(w)
    && (forall o {:trigger ObjectOk(w.objInfo[o])} :: o in w.objInfo ==> ObjectOk(w.objInfo[o]))
  }

  lemma ClearTags(w: World, v: World, p: nat)
    requires TagsOk(w) && p in w.objInfo && v == WithEvent(w, p, Clear(w.objInfo[p].event))
    ensures TagsOk(v) && Extends(w, v)
  {
    forall o | o in v.objInfo ensures Issued(v, o) {
      assert Issued(w, o);
    }
    TagsKept(w, v);
  }

  lemma ClearObjectOk(obj: ObjectData)
    requires SlotsOk(obj.event, obj.children.Keys, [], []) && IdsOk(obj.event)
    ensures ObjectOk(obj.(event := Clear(obj.event)))
  {
    SameSlots(obj.event, Clear(obj.event), obj.children.Keys, [], []);
  }

  lemma ClearOk(w: World, p: nat)
    requires Flushing(w, p, [], [], []) && TagsOk(w)
    ensures var v := WithEvent(w, p, Clear(w.objInfo[p].event)); WorldOk(v) && Flushes(w, v, p)
  {
    var v := WithEvent(w, p, Clear(w.objInfo[p].event));
    ClearObjectOk(w.objInfo[p]);
    EventLife(w, v, p);
    SameAdopts(w, v, p);
    ClearTags(w, v, p);
  }

  // The object p has run a handler: its commands wait to be flushed.
  ghost predicate Ready(w: World, p: nat) {
    && p in w.objInfo && TagsOk(w)
    && var e := w.objInfo[p].event; Flushing(w, p, e.construct, e.function_, e.delete_)
  }

  /** Flushing after a handler succeeds and leaves the world in order. */
  lemma ProcessQueuedOk(w: World, ti: TargetInfo)
    requires Ready(w, ti.objId)
    ensures ProcessQueued(w, ti).Ok?
    ensures WorldOk(ProcessQueued(w, ti).value) && Flushes(w, ProcessQueued(w, ti).value, ti.objId)
  {
    var e := w.objInfo[ti.objId].event;
    FlushConstructOk(w, ti, e.construct, e.function_, e.delete_);
    var a := FlushConstruct(w, ti, e.construct);
    FlushFunctionOk(a, ti, e.function_, e.delete_);
    var b := FlushFunction(a, ti, e.function_).value;
    FlushDeleteOk(b, ti, e.delete_);
    var c := FlushDelete(b, ti, e.delete_);
    ClearOk(c, ti.objId);
    FlushesTrans(w, a, b, ti.objId);
    FlushesTrans(w, b, c, ti.objId);
    FlushesTrans(w, c, ProcessQueued(w, ti).value, ti.objId);
  }
}
