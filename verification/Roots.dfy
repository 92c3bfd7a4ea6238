/** No call is lost: every call that is queued begins and stays recorded while its object lives, and
    every root is constructed, called, and never deleted. */
module Roots {
  import opened Events
  import opened Dispatch
  import opened Lifetimes
  import opened TaskIds
  import opened DispatchLaws
  import opened DispatchRuns
  import opened FlushLaws
  import opened Homes
  import opened Handlers
  import opened QueueOrder
  import Ids

  // ---------------------------------------------------------------- records and objects

  // No object of w is handed to another parent, or becomes a root, and each keeps its origin.
  ghost predicate Settled(w: World, v: World) {
    && (forall r, o {:trigger Lists(v, r, o)} :: Lists(v, r, o) && o in w.objIds.issued ==> Lists(w, r, o))
    && (forall o :: o in v.roots && o in w.objIds.issued ==> o in w.roots)
    && (forall o :: o in v.objInfo && o in w.objInfo ==> v.objInfo[o].parents == w.objInfo[o].parents)
  }

  // v still has the records of w, but for those of objects that are gone; and what is gone stays so.
  ghost predicate Keeps(w: World, v: World) {
    && w.started <= v.started && w.roots <= v.roots && Settled(w, v)
    && (forall o :: o in w.started && o !in w.objInfo ==> o !in v.objInfo)
    && (forall g :: g in w.procToDat ==>
          || (g in v.procToDat && v.procToDat[g].assocObj == w.procToDat[g].assocObj
                && v.procToDat[g].backNotify == w.procToDat[g].backNotify)
          || w.procToDat[g].assocObj !in v.objInfo)
  }

  // Procedure p runs on o for caller ci.
  ghost predicate RunsFor(w: World, ci: CallerInfo, ti: TargetInfo) {
    ti.procId in w.procToDat && w.procToDat[ti.procId].assocObj == ti.objId && w.procToDat[ti.procId].backNotify == ci
  }

  // ---------------------------------------------------------------- a flush keeps origins

  ghost predicate SameParents(w: World, v: World) {
    && v.objInfo.Keys == w.objInfo.Keys
    && (forall o {:trigger v.objInfo[o]} :: o in w.objInfo ==> v.objInfo[o].parents == w.objInfo[o].parents)
  }

  lemma {:induction false} ConstructsParents(w: World, ti: TargetInfo, cs: seq<QueuedConstruct>)
    requires ti.objId in w.objInfo && HasCursors(w)
    ensures SameParents(w, FlushConstruct(w, ti, cs))
    decreases |cs|
  {
    if cs != [] {
      ConstructsParents(ConstructOne(w, ti, cs[0]), ti, cs[1..]);
      assert SameParents(w, ConstructOne(w, ti, cs[0]));
    }
  }

  lemma {:induction false} CallsParents(w: World, ti: TargetInfo, fs: seq<QueuedFunction>)
    requires ti.objId in w.objInfo && HasCursors(w) && FlushFunction(w, ti, fs).Ok?
    ensures SameParents(w, FlushFunction(w, ti, fs).value)
    decreases |fs|
  {
    if fs != [] {
      CallsParents(FunctionOne(w, ti, fs[0]).value, ti, fs[1..]);
      assert SameParents(w, FunctionOne(w, ti, fs[0]).value);
    }
  }

  lemma {:induction false} DeletesParents(w: World, ti: TargetInfo, ds: seq<nat>)
    requires ti.objId in w.objInfo
    ensures SameParents(w, FlushDelete(w, ti, ds))
    decreases |ds|
  {
    if ds != [] {
      DeletesParents(DeleteOne(w, ti, ds[0]), ti, ds[1..]);
      assert SameParents(w, DeleteOne(w, ti, ds[0]));
    }
  }

  lemma HandlerParents(w: World, ti: TargetInfo, h: Handler)
    requires HasCursors(w) && ti.objId in w.objInfo && AllAllowed(w.objInfo[ti.objId].event, h.cmds)
    requires ProcessQueued(RunHandler(w, ti.objId, h), ti).Ok?
    ensures SameParents(w, ProcessQueued(RunHandler(w, ti.objId, h), ti).value)
  {
    var u, e := RunHandler(w, ti.objId, h), RunHandler(w, ti.objId, h).objInfo[ti.objId].event;
    var a := FlushConstruct(u, ti, e.construct);
    var b := FlushFunction(a, ti, e.function_).value;
    ConstructsParents(u, ti, e.construct);
    CallsParents(a, ti, e.function_);
    DeletesParents(b, ti, e.delete_);
  }

  // ---------------------------------------------------------------- each message

  // x is u after a handler of p.
  ghost predicate Handled(u: World, x: World, p: nat) {
    u.started <= x.started && x.roots == u.roots && Adopts(u, x, p) && SameParents(u, x) && x.procToDat == u.procToDat
  }

  // u has the children, the roots and the origins of w; v is x but for the queue and the records.
  lemma HandledSettled(w: World, u: World, x: World, v: World, p: nat)
    requires u.objIds == w.objIds && u.roots == w.roots && Handled(u, x, p) && v.objInfo == x.objInfo && v.roots == x.roots
    requires forall r, o :: Lists(u, r, o) == Lists(w, r, o)
    requires forall o :: o in w.objInfo ==> o in u.objInfo && u.objInfo[o].parents == w.objInfo[o].parents
    ensures Settled(w, v)
  {
    assert forall r, o :: Lists(v, r, o) == Lists(x, r, o);
    forall r, o | Lists(v, r, o) && o in w.objIds.issued ensures Lists(w, r, o) {
      assert Lists(x, r, o) && Lists(u, r, o);
    }
    forall o | o in v.objInfo && o in w.objInfo ensures v.objInfo[o].parents == w.objInfo[o].parents {
      assert x.objInfo[o].parents == u.objInfo[o].parents;
    }
  }

  lemma HandlerHandles(w: World, ti: TargetInfo, h: Handler)
    requires Inv(w) && ti.objId in w.objInfo && AllAllowed(w.objInfo[ti.objId].event, h.cmds)
    ensures ProcessQueued(RunHandler(w, ti.objId, h), ti).Ok?
    ensures Handled(w, ProcessQueued(RunHandler(w, ti.objId, h), ti).value, ti.objId)
  {
    HandleTaken(w, ti, h);
    HandlerParents(w, ti, h);
  }

  lemma FunctionKeeps(w: World, h: Handler)
    requires Inv(w) && HomesOk(w) && w.q != [] && w.q[0].FunctionCall?
    requires w.q[0].ti.objId in w.objInfo && AllAllowed(w.objInfo[w.q[0].ti.objId].event, h.cmds)
    requires FunctionCallStep(Popped(w), w.q[0].call, w.q[0].ci, w.q[0].ti, h).Ok?
    ensures var v := FunctionCallStep(Popped(w), w.q[0].call, w.q[0].ci, w.q[0].ti, h).value;
            Keeps(w, v) && RunsFor(v, w.q[0].ci, w.q[0].ti) && v.objInfo.Keys == w.objInfo.Keys
  {
    CallTaken(w);
    PopHomes(w);
    var u := Begun(Popped(w), w.q[0].call, w.q[0].ci, w.q[0].ti);
    HandlerHandles(u, w.q[0].ti, h);
    ReturnedKeeps(w, u, ProcessQueued(RunHandler(u, w.q[0].ti.objId, h), w.q[0].ti).value, h);
  }

  lemma ReturnedKeeps(w: World, u: World, x: World, h: Handler)
    requires w.q != [] && w.q[0].FunctionCall? && w.q[0].ti.objId in w.objInfo && w.q[0].ti.procId !in w.procToDat
    requires u == Begun(Popped(w), w.q[0].call, w.q[0].ci, w.q[0].ti)
    requires Handled(u, x, w.q[0].ti.objId)
    ensures var v := Returned(x, w.q[0].call, w.q[0].ci, w.q[0].ti, h);
            Keeps(w, v) && RunsFor(v, w.q[0].ci, w.q[0].ti) && v.objInfo.Keys == w.objInfo.Keys
  {
    HandledSettled(w, u, x, Returned(x, w.q[0].call, w.q[0].ci, w.q[0].ti, h), w.q[0].ti.objId);
  }

  lemma DataKeeps(w: World, h: Handler)
    requires Inv(w) && w.q != [] && w.q[0].Data? && Legal(w, Dequeue(h, []))
    requires DataStep(Popped(w), w.q[0].ti, w.q[0].data, h).Ok?
    ensures var v := DataStep(Popped(w), w.q[0].ti, w.q[0].data, h).value;
            Keeps(w, v) && v.objInfo.Keys == w.objInfo.Keys
  {
    DataTaken(w);
    if Awaited(w) {
      DataStarts(w, h);
      HandlerHandles(Popped(w), w.q[0].ti, h);
      YieldedKeeps(w, ProcessQueued(RunHandler(Popped(w), w.q[0].ti.objId, h), w.q[0].ti).value, h);
    }
  }

  lemma YieldedKeeps(w: World, x: World, h: Handler)
    requires w.q != [] && w.q[0].Data? && Awaited(w)
    requires Handled(Popped(w), x, w.q[0].ti.objId)
    ensures var v := Yielded(x, w.procToDat[w.q[0].ti.procId], w.q[0].ti, h);
            Keeps(w, v) && v.objInfo.Keys == w.objInfo.Keys
  {
    var v := Yielded(x, w.procToDat[w.q[0].ti.procId], w.q[0].ti, h);
    HandledSettled(w, Popped(w), x, v, w.q[0].ti.objId);
  }

  lemma ConstructKeeps(w: World, h: Handler)
    requires Inv(w) && w.q != [] && w.q[0].ConstructorCall? && AllAllowed(NEW_EVENT, h.cmds)
    requires ConstructCall(Popped(w), w.q[0].ci, w.q[0].ti, h).Ok?
    ensures var v := ConstructCall(Popped(w), w.q[0].ci, w.q[0].ti, h).value;
            && Keeps(w, v) && v.objInfo.Keys == w.objInfo.Keys + {w.q[0].ti.objId}
            && v.objInfo[w.q[0].ti.objId].parents == {(w.q[0].ci.threadId, w.q[0].ci.objId)}
  {
    NotStarted(w);
    BuiltOk(w);
    BuiltStarts(w, h);
    HandlerHandles(Built(w), w.q[0].ti, h);
    BuiltKeeps(w, ProcessQueued(RunHandler(Built(w), w.q[0].ti.objId, h), w.q[0].ti).value);
  }

  lemma NotStarted(w: World)
    requires LifeOk(w) && w.q != [] && w.q[0].ConstructorCall?
    ensures w.q[0].ti.objId !in w.started
  {
    assert w.q[0].ti.objId in Intro(w.q);
  }

  lemma BuiltKeeps(w: World, x: World)
    requires w.q != [] && w.q[0].ConstructorCall? && w.q[0].ti.objId !in w.started && w.q[0].ti.objId !in w.objInfo
    requires Handled(Built(w), x, w.q[0].ti.objId)
    ensures Keeps(w, x) && x.objInfo.Keys == w.objInfo.Keys + {w.q[0].ti.objId}
    ensures x.objInfo[w.q[0].ti.objId].parents == {(w.q[0].ci.threadId, w.q[0].ci.objId)}
  {
    HandledSettled(w, Built(w), x, x, w.q[0].ti.objId);
    assert w.q[0].ti.objId in Built(w).objInfo;
  }

  lemma DeleteKeeps(w: World, order: seq<nat>)
    requires HomesOk(w) && LifeOk(w) && w.q != [] && w.q[0].Delete?
    ensures Keeps(w, DeleteStep(Popped(w), w.q[0].ci, w.q[0].ti.objId, order))
  {
    var o, v := w.q[0].ti.objId, DeleteStep(Popped(w), w.q[0].ci, w.q[0].ti.objId, order);
    if o in w.objInfo {
      assert Listed(w, o);
    }
  }

  // What a step does to the objects that there are.
  ghost predicate Alive(w: World, i: Input, v: World) {
    if i.Dequeue? && w.q != [] && w.q[0].ConstructorCall? then
      && v.objInfo.Keys == w.objInfo.Keys + {w.q[0].ti.objId}
      && v.objInfo[w.q[0].ti.objId].parents == {(w.q[0].ci.threadId, w.q[0].ci.objId)}
    else if i.Dequeue? && w.q != [] && w.q[0].Delete? then v.objInfo.Keys == w.objInfo.Keys - {w.q[0].ti.objId}
    else v.objInfo.Keys == w.objInfo.Keys
  }

  lemma IdleKeeps(w: World, v: World)
    requires v.objInfo == w.objInfo && v.procToDat == w.procToDat && v.started == w.started && w.roots <= v.roots
    requires forall o :: o in v.roots && o !in w.roots ==> o !in w.objIds.issued
    ensures Keeps(w, v)
  {
    assert forall r, o :: Lists(v, r, o) == Lists(w, r, o);
  }

  lemma InitializeKeeps(w: World)
    requires SourcesOk(w)
    ensures Step(w, InitializeRoot).Ok? && Keeps(w, Step(w, InitializeRoot).value)
    ensures Step(w, InitializeRoot).value.objInfo == w.objInfo
  {
    Ids.DrawFresh(w.objIds, HANDLER);
    IdleKeeps(w, Step(w, InitializeRoot).value);
  }

  lemma StepKeeps(w: World, i: Input)
    requires Housed(w) && Legal(w, i)
    ensures Step(w, i).Ok? && Keeps(w, Step(w, i).value) && Alive(w, i, Step(w, i).value)
    ensures i.Dequeue? && w.q != [] && w.q[0].FunctionCall? ==> RunsFor(Step(w, i).value, w.q[0].ci, w.q[0].ti)
  {
    match i
    case InitializeRoot => InitializeKeeps(w);
    case Completes(ti, data) => IdleKeeps(w, Step(w, i).value);
    case Dequeue(h, order) =>
      if w.q == [] {
        IdleKeeps(w, w);
      } else {
        DequeueKeeps(w, h, order);
      }
  }

  lemma DequeueKeeps(w: World, h: Handler, order: seq<nat>)
    requires Housed(w) && w.q != [] && Legal(w, Dequeue(h, order))
    ensures var i := Dequeue(h, order); Step(w, i).Ok? && Keeps(w, Step(w, i).value) && Alive(w, i, Step(w, i).value)
    ensures w.q[0].FunctionCall? ==> RunsFor(Step(w, Dequeue(h, order)).value, w.q[0].ci, w.q[0].ti)
  {
    StepOk(w, Dequeue(h, order));
    HeadFindsObject(w);
    assert Popped(w) == w.(q := w.q[1..]);
    match w.q[0]
    case RootStart(ti) => IdleKeeps(w, RootStartStep(Popped(w), ti));
    case ConstructorCall(_, _) => ConstructKeeps(w, h);
    case FunctionCall(_, _, _) => FunctionKeeps(w, h);
    case Delete(_, _) => DeleteKeeps(w, order);
    case Data(_, _, _, _) => DataKeeps(w, h);
  }

  // ---------------------------------------------------------------- no call is lost

  // The call or the root start of ti for ci is queued, or recorded, or its object is gone.
  ghost predicate Proceeds(w: World, ci: CallerInfo, ti: TargetInfo) {
    || (exists m :: m in w.q && m.RootStart? && m.ti == ti && ci == NOBODY)
    || (exists m :: m in w.q && m.FunctionCall? && m.ti == ti && m.ci == ci)
    || RunsFor(w, ci, ti)
    || (ti.objId in w.started && ti.objId !in w.objInfo)
  }

  lemma MovesOn(w: World, i: Input, v: World, added: seq<Message>, m: Message)
    requires m in w.q && v.q == Rest(w, i) + added
    ensures m in v.q || (i.Dequeue? && w.q[0] == m)
  {
    assert w.q == [w.q[0]] + w.q[1..];
  }

  lemma QueuedProceeds(w: World, i: Input, v: World, added: seq<Message>, ci: CallerInfo, m: Message)
    requires m in w.q && v.q == Rest(w, i) + added && Adds(w, i, added)
    requires (m.RootStart? && ci == NOBODY) || (m.FunctionCall? && ci == m.ci)
    requires i.Dequeue? && w.q[0].FunctionCall? ==> RunsFor(v, w.q[0].ci, w.q[0].ti)
    ensures Proceeds(v, ci, m.ti)
  {
    MovesOn(w, i, v, added, m);
    if m !in v.q && m.RootStart? {
      assert StartsRoot(added, m.ti) && added[1] in v.q;
    }
  }

  lemma RunsProceeds(w: World, v: World, ci: CallerInfo, ti: TargetInfo)
    requires Keeps(w, v) && RunsFor(w, ci, ti) && ti.objId in w.started
    ensures Proceeds(v, ci, ti)
  {
  }

  lemma RunnerStarted(w: World, ci: CallerInfo, ti: TargetInfo)
    requires Housed(w) && RunsFor(w, ci, ti)
    ensures ti.objId in w.started
  {
    assert Recorded(w, ti.procId);
  }

  lemma StepProceeds(w: World, i: Input, ci: CallerInfo, ti: TargetInfo)
    requires Housed(w) && Legal(w, i) && Proceeds(w, ci, ti)
    ensures Step(w, i).Ok? && Proceeds(Step(w, i).value, ci, ti)
  {
    StepKeeps(w, i);
    var added := StepAdds(w, i);
    var v := Step(w, i).value;
    if m :| m in w.q && m.RootStart? && m.ti == ti && ci == NOBODY {
      QueuedProceeds(w, i, v, added, ci, m);
    } else if m :| m in w.q && m.FunctionCall? && m.ti == ti && m.ci == ci {
      QueuedProceeds(w, i, v, added, ci, m);
    } else if RunsFor(w, ci, ti) {
      RunnerStarted(w, ci, ti);
      RunsProceeds(w, v, ci, ti);
    }
  }

  /** Over every run, a call that has been queued is still queued, or recorded for its object and
      its caller, unless its object is gone. */
  lemma {:induction false} NoCallLost(w: World, inputs: seq<Input>, ci: CallerInfo, ti: TargetInfo)
    requires Housed(w) && LegalRun(w, inputs) && FaithfulRun(w, inputs) && Proceeds(w, ci, ti)
    ensures Run(w, inputs).Ok? && Proceeds(Run(w, inputs).value, ci, ti)
    decreases |inputs|
  {
    if inputs != [] {
      StepProceeds(w, inputs[0], ci, ti);
      StepHomes(w, inputs[0]);
      NoCallLost(Step(w, inputs[0]).value, inputs[1..], ci, ti);
    }
  }

  // ---------------------------------------------------------------- roots are not deleted

  // Root o is not going to be deleted, and is alive or going to be constructed.
  ghost predicate Standing(w: World, o: nat) {
    o in w.roots && Count(w.q, o) == 0 && (o in Intro(w.q) || o in w.objInfo)
  }

  lemma RootUnlisted(w: World, p: nat, o: nat)
    requires LifeOk(w) && o in w.roots
    ensures !Lists(w, p, o)
  {
    if Lists(w, p, o) {
      assert Owned(w, o);
    }
  }

  lemma {:induction false} IntroBy(q: seq<Message>, o: nat) returns (m: Message)
    requires o in Intro(q)
    ensures m in q && Introduced(m) == {o}
  {
    m := q[0];
    if o !in Introduced(m) {
      m := IntroBy(q[1..], o);
    }
  }

  // No deletion of a root is queued.
  lemma AddedSpares(w: World, i: Input, added: seq<Message>, o: nat)
    requires LifeOk(w) && Legal(w, i) && Adds(w, i, added) && o in w.roots
    requires !(i.Dequeue? && Runs(w)) && (i.Dequeue? && w.q != [] && w.q[0].Delete? ==> w.q[0].ti.objId in w.objInfo)
    ensures Count(added, o) == 0
  {
    if i.Dequeue? && w.q != [] && w.q[0].Delete? {
      RootUnlisted(w, w.q[0].ti.objId, o);
      OthersCount(added, w.q[0].ci, i.order, o);
    } else {
      NoneCounted(added, o);
    }
  }

  lemma {:induction false} OthersCount(ms: seq<Message>, ci: CallerInfo, os: seq<nat>, o: nat)
    requires DeletionsOf(ms, ci, os) && o !in os
    ensures Count(ms, o) == 0
  {
    if ms != [] {
      assert DeletionsOf(ms[1..], ci, os[1..]) && os[0] in os && forall k :: k in os[1..] ==> k in os;
      OthersCount(ms[1..], ci, os[1..], o);
    }
  }

  lemma StepSpares(w: World, i: Input, o: nat)
    requires Inv(w) && Legal(w, i) && o in w.roots && Count(w.q, o) == 0
    ensures Step(w, i).Ok? && Count(Step(w, i).value.q, o) == 0
  {
    StepOk(w, i);
    if i.Dequeue? && Runs(w) {
      DroppedOnce(w, i.h, o);
      RootUnlisted(w, w.q[0].ti.objId, o);
    } else {
      if w.q != [] {
        HeadFindsObject(w);
      }
      var added := StepAdds(w, i);
      AddedSpares(w, i, added, o);
      CountJoin(Rest(w, i), added, o);
    }
  }

  // A root is constructed once its start and its constructor have been handled.
  lemma RootComes(w: World, i: Input, v: World, added: seq<Message>, o: nat)
    requires v.q == Rest(w, i) + added && Adds(w, i, added) && Alive(w, i, v)
    requires Count(w.q, o) == 0 && (o in Intro(w.q) || o in w.objInfo)
    ensures o in Intro(v.q) || o in v.objInfo
  {
    if o in Intro(w.q) {
      var m := IntroBy(w.q, o);
      MovesOn(w, i, v, added, m);
      if m in v.q {
        IntroHas(v.q, m);
      } else if m.RootStart? {
        assert added[0] in v.q;
        IntroHas(v.q, added[0]);
      }
    } else {
      assert i.Dequeue? && w.q != [] && w.q[0].Delete? ==> w.q[0].ti.objId != o;
    }
  }

  lemma StepStanding(w: World, i: Input, o: nat)
    requires Housed(w) && Legal(w, i) && Standing(w, o)
    ensures Step(w, i).Ok? && Standing(Step(w, i).value, o)
  {
    StepKeeps(w, i);
    StepSpares(w, i, o);
    var added := StepAdds(w, i);
    RootComes(w, i, Step(w, i).value, added, o);
  }

  lemma {:induction false} RunStanding(w: World, inputs: seq<Input>, o: nat)
    requires Housed(w) && LegalRun(w, inputs) && FaithfulRun(w, inputs) && Standing(w, o)
    ensures Run(w, inputs).Ok? && Standing(Run(w, inputs).value, o) && Housed(Run(w, inputs).value)
    decreases |inputs|
  {
    if inputs != [] {
      StepStanding(w, inputs[0], o);
      StepHomes(w, inputs[0]);
      RunStanding(Step(w, inputs[0]).value, inputs[1..], o);
    }
  }

  lemma StartedStanding(w: World) returns (ti: TargetInfo)
    requires Housed(w)
    ensures Step(w, InitializeRoot).Ok? && ti.objId !in w.objIds.issued && ti.procId !in w.procIds.issued
    ensures var u := Step(w, InitializeRoot).value; Housed(u) && Standing(u, ti.objId) && Proceeds(u, NOBODY, ti)
  {
    StepHomes(w, InitializeRoot);
    ti := InitializeAdds(w);
    RootQueued(w, Step(w, InitializeRoot).value, RootStart(ti));
  }

  lemma RootQueued(w: World, u: World, m: Message)
    requires Housed(w) && m.RootStart? && m.ti.objId !in w.objIds.issued && u.q == w.q + [m] && Housed(u)
    ensures Standing(u, m.ti.objId) && Proceeds(u, NOBODY, m.ti)
  {
    assert m in u.q;
    IntroHas(u.q, m);
    NewUncounted(w, m.ti.objId);
    CountJoin(w.q, [m], m.ti.objId);
  }

  lemma NewUncounted(w: World, o: nat)
    requires LifeOk(w) && o !in w.objIds.issued
    ensures Count(w.q, o) == 0
  {
    CountAbsent(w.q, w.objInfo.Keys, o);
  }

  /** Roots run: a root event is started under new ids, and wherever a run leads from there, its start
      or the call of its first procedure is queued, or that procedure is recorded for the root,
      which is alive; the root is never deleted. */
  lemma RootRuns(w: World, inputs: seq<Input>) returns (ti: TargetInfo)
    requires Housed(w) && LegalRun(w, [InitializeRoot] + inputs) && FaithfulRun(w, [InitializeRoot] + inputs)
    ensures ti.objId !in w.objIds.issued && ti.procId !in w.procIds.issued
    ensures Run(w, [InitializeRoot] + inputs).Ok?
    ensures var v := Run(w, [InitializeRoot] + inputs).value;
            && (|| (exists m :: m in v.q && m.RootStart? && m.ti == ti)
                || (exists m :: m in v.q && m.FunctionCall? && m.ti == ti && m.ci == NOBODY)
                || (RunsFor(v, NOBODY, ti) && ti.objId in v.objInfo))
            && Count(v.q, ti.objId) == 0
  {
    ti := StartedStanding(w);
    var u := Step(w, InitializeRoot).value;
    assert ([InitializeRoot] + inputs)[1..] == inputs;
    RunStanding(u, inputs, ti.objId);
    NoCallLost(u, inputs, NOBODY, ti);
    RootAlive(Run(u, inputs).value, ti);
  }

  lemma RootAlive(v: World, ti: TargetInfo)
    requires Housed(v) && Standing(v, ti.objId) && Proceeds(v, NOBODY, ti)
    ensures ti.objId in v.started ==> ti.objId in v.objInfo
    ensures RunsFor(v, NOBODY, ti) ==> ti.objId in v.objInfo
  {
    if RunsFor(v, NOBODY, ti) {
      RunnerStarted(v, NOBODY, ti);
    }
  }
}
