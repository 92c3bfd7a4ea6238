/** The chain of callers: a procedure is issued after the procedure that called it. */
module CallOrder {
  import opened Wrappers
  import opened Events
  import opened Dispatch
  import opened DispatchLaws
  import opened DispatchRuns
  import opened FlushLaws
  import Ids

  // Procedure g was called by nobody, by a constructor, or by a procedure that was issued before it.
  ghost predicate CalledBy(issued: seq<nat>, ci: CallerInfo, g: nat) {
    g in issued && (ci.threadId == NO_THREAD || ci.procId == NONE || Precedes(issued, ci.procId, g))
  }

  ghost predicate MessageOrder(issued: seq<nat>, m: Message) {
    match m
    case ConstructorCall(_, ti) => ti.procId == NONE
    case FunctionCall(_, ci, ti) => CalledBy(issued, ci, ti.procId)
    case _ => true
  }

  /** Constructors run as no procedure, and every call and every record names an earlier caller. */
  ghost predicate OrderOk(w: World) {
    && (forall m {:trigger MessageOrder(w.procIds.issued, m)} :: m in w.q ==> MessageOrder(w.procIds.issued, m))
    && (forall g :: g in w.procToDat ==> CalledBy(w.procIds.issued, w.procToDat[g].backNotify, g))
  }

  lemma CalledByKept(s: seq<nat>, t: seq<nat>, ci: CallerInfo, g: nat)
    requires s <= t && CalledBy(s, ci, g)
    ensures CalledBy(t, ci, g)
  {
    if ci.threadId != NO_THREAD && ci.procId != NONE {
      PrecedesKept(s, t, ci.procId, g);
    }
  }

  lemma MessageOrderKept(s: seq<nat>, t: seq<nat>, m: Message)
    requires s <= t && MessageOrder(s, m)
    ensures MessageOrder(t, m)
  {
    if m.FunctionCall? {
      CalledByKept(s, t, m.ci, m.ti.procId);
    }
  }

  // The order is kept when ids are drawn, old records keep their caller, and each new message and
  // record is in order by itself.
  lemma OrderKept(w: World, v: World)
    requires OrderOk(w) && w.procIds.issued <= v.procIds.issued
    requires forall m :: m in v.q ==> m in w.q || MessageOrder(v.procIds.issued, m)
    requires forall g :: g in v.procToDat ==>
               || (g in w.procToDat && v.procToDat[g].backNotify == w.procToDat[g].backNotify)
               || CalledBy(v.procIds.issued, v.procToDat[g].backNotify, g)
    ensures OrderOk(v)
  {
    forall m | m in v.q ensures MessageOrder(v.procIds.issued, m) {
      if m in w.q {
        MessageOrderKept(w.procIds.issued, v.procIds.issued, m);
      }
    }
    forall g | g in v.procToDat ensures CalledBy(v.procIds.issued, v.procToDat[g].backNotify, g) {
      if g in w.procToDat && v.procToDat[g].backNotify == w.procToDat[g].backNotify {
        CalledByKept(w.procIds.issued, v.procIds.issued, w.procToDat[g].backNotify, g);
      }
    }
  }

  lemma CallsInOrder(s: seq<nat>, t: seq<nat>, ti: TargetInfo, fs: seq<Message>)
    requires t == s + Procedures(fs) && Calls(fs, Sender(ti)) && (ti.procId == NONE || ti.procId in s)
    requires forall i, j :: 0 <= i < j < |t| ==> t[i] != t[j]
    ensures forall m :: m in fs ==> MessageOrder(t, m)
  {
    forall m | m in fs ensures MessageOrder(t, m) {
      var i :| 0 <= i < |fs| && fs[i] == m;
      assert t[|s| + i] == m.ti.procId;
      if ti.procId != NONE {
        var j :| 0 <= j < |s| && s[j] == ti.procId;
        assert t[j] == s[j];
      }
    }
  }

  // Flushing the commands of a procedure, or of a constructor, keeps the order.
  lemma FlushKeepsOrder(u: World, ti: TargetInfo)
    requires OrderOk(u) && ti.objId in u.objInfo && HasCursors(u) && (ti.procId == NONE || ti.procId in u.procIds.issued)
    requires ProcessQueued(u, ti).Ok?
    requires var v := ProcessQueued(u, ti).value; Ids.SourceOk(v.procIds) && v.procToDat == u.procToDat
    ensures OrderOk(ProcessQueued(u, ti).value) && u.procIds.issued <= ProcessQueued(u, ti).value.procIds.issued
  {
    var v, ds := ProcessQueued(u, ti).value, u.objInfo[ti.objId].event.delete_;
    var cs, fs := FlushOrder(u, ti);
    CallsInOrder(u.procIds.issued, v.procIds.issued, ti, fs);
    DeleteMessages(u.q + cs + fs, Sender(ti), ds);
    forall m | m in v.q && m !in u.q ensures MessageOrder(v.procIds.issued, m) {
      assert m in cs || m in fs || m.Delete?;
    }
    OrderKept(u, v);
  }

  // ---------------------------------------------------------------- every step

  lemma PushOrder(w: World, m: Message)
    requires OrderOk(w) && MessageOrder(w.procIds.issued, m)
    ensures OrderOk(Push(w, m))
  {
    OrderKept(w, Push(w, m));
  }

  lemma PopOrder(w: World)
    requires OrderOk(w) && w.q != []
    ensures OrderOk(Popped(w)) && MessageOrder(w.procIds.issued, w.q[0])
  {
    assert w.q[0] in w.q && w.q == [w.q[0]] + Popped(w).q;
    OrderKept(w, Popped(w));
  }

  // Running and flushing a handler.
  lemma HandleOrder(w: World, ti: TargetInfo, h: Handler)
    requires Inv(w) && OrderOk(w) && ti.objId in w.objInfo && AllAllowed(w.objInfo[ti.objId].event, h.cmds)
    requires ti.procId == NONE || ti.procId in w.procIds.issued
    ensures ProcessQueued(RunHandler(w, ti.objId, h), ti).Ok?
    ensures var v := ProcessQueued(RunHandler(w, ti.objId, h), ti).value;
            OrderOk(v) && w.procIds.issued <= v.procIds.issued
  {
    HandleTaken(w, ti, h);
    OrderKept(w, RunHandler(w, ti.objId, h));
    FlushKeepsOrder(RunHandler(w, ti.objId, h), ti);
  }

  lemma FunctionOrder(w: World, h: Handler)
    requires Inv(w) && OrderOk(w) && w.q != [] && w.q[0].FunctionCall?
    requires w.q[0].ti.objId in w.objInfo && AllAllowed(w.objInfo[w.q[0].ti.objId].event, h.cmds)
    requires FunctionCallStep(Popped(w), w.q[0].call, w.q[0].ci, w.q[0].ti, h).Ok?
    ensures OrderOk(FunctionCallStep(Popped(w), w.q[0].call, w.q[0].ci, w.q[0].ti, h).value)
  {
    var call, ci, ti := w.q[0].call, w.q[0].ci, w.q[0].ti;
    var begun := Begun(Popped(w), call, ci, ti);
    CallTaken(w);
    PopOrder(w);
    OrderKept(Popped(w), begun);
    HandleOrder(begun, ti, h);
    var v := ProcessQueued(RunHandler(begun, ti.objId, h), ti).value;
    CalledByKept(w.procIds.issued, v.procIds.issued, ci, ti.procId);
    ReturnedOrder(v, call, ci, ti, h);
  }

  lemma ReturnedOrder(v: World, call: nat, ci: CallerInfo, ti: TargetInfo, h: Handler)
    requires OrderOk(v) && CalledBy(v.procIds.issued, ci, ti.procId)
    ensures OrderOk(Returned(v, call, ci, ti, h))
  {
    OrderKept(v, Returned(v, call, ci, ti, h));
  }

  lemma DataOrder(w: World, h: Handler)
    requires Inv(w) && OrderOk(w) && w.q != [] && w.q[0].Data? && Legal(w, Dequeue(h, []))
    requires DataStep(Popped(w), w.q[0].ti, w.q[0].data, h).Ok?
    ensures OrderOk(DataStep(Popped(w), w.q[0].ti, w.q[0].data, h).value)
  {
    var ti, u := w.q[0].ti, Popped(w);
    PopOrder(w);
    DataTaken(w);
    if ti.objId in u.objInfo && ti.procId in u.procToDat {
      HandleOrder(u, ti, h);
      HandleTaken(u, ti, h);
      var v := ProcessQueued(RunHandler(u, ti.objId, h), ti).value;
      YieldedOrder(v, ti, h);
    }
  }

  lemma YieldedOrder(v: World, ti: TargetInfo, h: Handler)
    requires OrderOk(v) && ti.procId in v.procToDat
    ensures OrderOk(Yielded(v, v.procToDat[ti.procId], ti, h))
  {
    OrderKept(v, Yielded(v, v.procToDat[ti.procId], ti, h));
  }

  lemma ConstructOrder(w: World, h: Handler)
    requires Inv(w) && OrderOk(w) && w.q != [] && w.q[0].ConstructorCall? && AllAllowed(NEW_EVENT, h.cmds)
    requires ConstructCall(Popped(w), w.q[0].ci, w.q[0].ti, h).Ok?
    ensures OrderOk(ConstructCall(Popped(w), w.q[0].ci, w.q[0].ti, h).value)
  {
    var ci, ti := w.q[0].ci, w.q[0].ti;
    var obj := ObjectData(NEW_EVENT, [], {(ci.threadId, ci.objId)}, map[]);
    var v := Popped(w).(objInfo := w.objInfo[ti.objId := obj], started := w.started + {ti.objId});
    PopOrder(w);
    EnteredOk(w, v, ti.objId, obj);
    OrderKept(Popped(w), v);
    EnterThenRun(Popped(w), ci, ti, h, v);
    HandleAt(v, ti, h);
    OrderKept(v, RunHandler(v, ti.objId, h));
    FlushKeepsOrder(RunHandler(v, ti.objId, h), ti);
  }

  lemma DeleteOrder(w: World, order: seq<nat>)
    requires OrderOk(w) && w.q != [] && w.q[0].Delete?
    ensures OrderOk(DeleteStep(Popped(w), w.q[0].ci, w.q[0].ti.objId, order))
  {
    PopOrder(w);
    DeleteMessages(Popped(w).q, w.q[0].ci, order);
    OrderKept(Popped(w), DeleteStep(Popped(w), w.q[0].ci, w.q[0].ti.objId, order));
  }

  lemma RootOrder(w: World)
    requires Inv(w) && OrderOk(w) && w.q != [] && w.q[0].RootStart?
    ensures OrderOk(RootStartStep(Popped(w), w.q[0].ti))
  {
    PopOrder(w);
    PopTags(w);
    OrderKept(Popped(w), RootStartStep(Popped(w), w.q[0].ti));
  }

  lemma InitializeOrder(w: World)
    requires Inv(w) && OrderOk(w)
    ensures OrderOk(Step(w, InitializeRoot).value)
  {
    Ids.DrawFresh(w.procIds, HANDLER);
    OrderKept(w, Step(w, InitializeRoot).value);
  }

  /** Every step keeps callers before callees. */
  lemma StepOrder(w: World, i: Input)
    requires Inv(w) && OrderOk(w) && Legal(w, i)
    ensures Step(w, i).Ok? && Inv(Step(w, i).value) && OrderOk(Step(w, i).value)
  {
    StepOk(w, i);
    match i
    case InitializeRoot => InitializeOrder(w);
    case Completes(ti, data) => PushOrder(w, Data(NOBODY, ti, data, 0));
    case Dequeue(h, order) =>
      if w.q != [] {
        HeadFindsObject(w);
        assert Popped(w) == w.(q := w.q[1..]);
        match w.q[0] {
          case RootStart(_) => RootOrder(w);
          case ConstructorCall(_, _) => ConstructOrder(w, h);
          case FunctionCall(_, _, _) => FunctionOrder(w, h);
          case Delete(_, _) => DeleteOrder(w, order);
          case Data(_, _, _, _) => DataOrder(w, h);
        }
      }
  }

  /** Wherever a run leads, callers come before callees. */
  lemma {:induction false} RunOrder(w: World, inputs: seq<Input>)
    requires Inv(w) && OrderOk(w) && LegalRun(w, inputs)
    ensures Run(w, inputs).Ok? && Inv(Run(w, inputs).value) && OrderOk(Run(w, inputs).value)
    decreases |inputs|
  {
    if inputs != [] {
      StepOrder(w, inputs[0]);
      RunOrder(Step(w, inputs[0]).value, inputs[1..]);
    }
  }

  // Whatever a constructor calls, it calls as no procedure.
  lemma ConstructorsCallAsNobody(w: World, h: Handler) returns (cs: seq<Message>, fs: seq<Message>)
    requires Inv(w) && OrderOk(w) && w.q != [] && w.q[0].ConstructorCall? && Legal(w, Dequeue(h, []))
    ensures Step(w, Dequeue(h, [])).Ok?
    ensures var caller := CallerInfo(THREAD, w.q[0].ti.objId, NONE);
            && Step(w, Dequeue(h, [])).value.q
               == w.q[1..] + cs + fs + Deletes(caller, PerformAll(NEW_EVENT, h.cmds).delete_)
            && Constructors(cs, caller) && Calls(fs, caller)
  {
    var ci, ti := w.q[0].ci, w.q[0].ti;
    HeadFindsObject(w);
    PopOrder(w);
    ConstructStepOk(w, h);
    var built := ObjectData(PerformAll(NEW_EVENT, h.cmds), [], {(ci.threadId, ci.objId)}, map[]);
    var u := Popped(w).(objInfo := w.objInfo[ti.objId := built], started := w.started + {ti.objId});
    assert ConstructCall(Popped(w), ci, ti, h) == ProcessQueued(u, ti);
    cs, fs := FlushOrder(u, ti);
    assert Step(w, Dequeue(h, [])) == ConstructCall(Popped(w), ci, ti, h);
  }

  /** The completion of a call that a constructor queued is dropped: it is addressed to no
      procedure, and nothing is recorded under that id until it has been issued. */
  lemma ConstructorsGetNothing(w: World, h: Handler)
    requires Inv(w) && OrderOk(w) && NONE !in w.procIds.issued
    requires w.q != [] && w.q[0].Data? && w.q[0].ti.procId == NONE
    requires Legal(w, Dequeue(h, []))
    ensures Step(w, Dequeue(h, [])) == Ok(Popped(w))
  {
    DeliveredIff(w);
  }
}
