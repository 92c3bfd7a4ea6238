/** Deletion cascades: while handlers neither construct nor call, working off the queue ends. */
module Cascades {
  import opened Wrappers
  import opened Events
  import opened Dispatch
  import opened Lifetimes
  import opened TaskIds
  import opened DispatchLaws
  import opened DispatchRuns
  import opened FlushLaws
  import opened CallOrder
  import Ids

  // ---------------------------------------------------------------- handlers that add nothing

  predicate OnlyDeletes(cs: seq<Command>) { forall c :: c in cs ==> c.D? }

  // Handles the oldest message with a handler that at most deletes and completes.
  ghost predicate Tame(w: World, i: Input) { i.Dequeue? && OnlyDeletes(i.h.cmds) && Legal(w, i) }

  lemma {:induction false} EnumerationExists(s: set<nat>) returns (os: seq<nat>)
    ensures Enumerates(os, s)
  {
    if s == {} {
      os := [];
    } else {
      var x :| x in s;
      var rest := EnumerationExists(s - {x});
      os := [x] + rest;
      forall i, j | 0 <= i < j < |os| ensures os[i] != os[j] {
        assert os[j] == rest[j - 1] && os[j] in rest;
      }
    }
  }

  // Some order of the children that the oldest message deletes.
  ghost function OrderOf(w: World): (os: seq<nat>)
    requires w.q != [] && w.q[0].Delete? && w.q[0].ti.objId in w.objInfo
    ensures Enumerates(os, w.objInfo[w.q[0].ti.objId].children.Keys)
  {
    var s := w.objInfo[w.q[0].ti.objId].children.Keys;
    assert exists os :: Enumerates(os, s) by { var os := EnumerationExists(s); }
    var os :| Enumerates(os, s); os
  }

  const QUIET := Handler([], true, None)  // a handler that issues no command and does not complete

  ghost function QuietInput(w: World): (i: Input)
    requires w.q != []
    ensures Tame(w, i)
  {
    Dequeue(QUIET, if w.q[0].Delete? && w.q[0].ti.objId in w.objInfo then OrderOf(w) else [])
  }

  // What happens next: choice, if it is tame here.
  ghost function TameInput(w: World, choice: Input): (i: Input)
    requires w.q != []
    ensures Tame(w, i)
  {
    if Tame(w, choice) then choice else QuietInput(w)
  }

  lemma {:induction false} OnlyDeletesQueued(e: Event, cs: seq<Command>)
    requires AllAllowed(e, cs) && OnlyDeletes(cs)
    ensures PerformAll(e, cs).construct == e.construct && PerformAll(e, cs).function_ == e.function_
    decreases |cs|
  {
    if cs != [] {
      assert cs == [cs[0]] + cs[1..] && cs[0] in cs;
      OnlyDeletesQueued(Perform(e, cs[0]), cs[1..]);
    }
  }

  lemma NothingToDelete(cs: seq<Command>)
    requires AllAllowed(NEW_EVENT, cs) && OnlyDeletes(cs)
    ensures cs == []
  {
    assert forall c :: c in cs ==> !Allowed(NEW_EVENT, c);
  }

  lemma TameFlush(u: World, ti: TargetInfo)
    requires ti.objId in u.objInfo && HasCursors(u) && ProcessQueued(u, ti).Ok?
    requires u.objInfo[ti.objId].event.construct == [] && u.objInfo[ti.objId].event.function_ == []
    ensures var v := ProcessQueued(u, ti).value;
            && v.q == u.q + Deletes(Sender(ti), u.objInfo[ti.objId].event.delete_)
            && v.objIds.issued == u.objIds.issued && v.procIds.issued == u.procIds.issued
  {
    var cs, fs := FlushOrder(u, ti);
    assert cs == [] && fs == [] && Targets(cs) == [] && Procedures(fs) == [];
    assert u.q + cs + fs == u.q;
  }

  // Such a handler queues deletions and nothing else.
  lemma TameHandle(w: World, ti: TargetInfo, h: Handler) returns (ds: seq<nat>)
    requires Inv(w) && ti.objId in w.objInfo && AllAllowed(w.objInfo[ti.objId].event, h.cmds) && OnlyDeletes(h.cmds)
    ensures ProcessQueued(RunHandler(w, ti.objId, h), ti).Ok?
    ensures var v := ProcessQueued(RunHandler(w, ti.objId, h), ti).value;
            && v.q == w.q + Deletes(Sender(ti), ds) && v.procIds.issued == w.procIds.issued
            && v.objInfo.Keys == w.objInfo.Keys && v.roots == w.roots && v.procToDat == w.procToDat && Sheds(w, v)
    ensures h.cmds == [] ==> ds == []
  {
    var e := w.objInfo[ti.objId].event;
    assert ObjectOk(w.objInfo[ti.objId]);
    HandleTaken(w, ti, h);
    OnlyDeletesQueued(e, h.cmds);
    ds := PerformAll(e, h.cmds).delete_;
    TameFlush(RunHandler(w, ti.objId, h), ti);
    AdoptsNone(w, ProcessQueued(RunHandler(w, ti.objId, h), ti).value, ti.objId);
  }

  // No object gains a child.
  ghost predicate Sheds(w: World, v: World) {
    forall p, c {:trigger Lists(v, p, c)} :: Lists(v, p, c) ==> Lists(w, p, c)
  }

  lemma AdoptsNone(w: World, v: World, p: nat)
    requires Adopts(w, v, p) && v.objIds.issued == w.objIds.issued
    ensures Sheds(w, v)
  {
  }

  // ---------------------------------------------------------------- the measure

  // Objects constructed or about to be.
  ghost function Alive(w: World): nat { |w.objInfo.Keys + Intro(w.q)| }

  // A procedure's place among those issued.
  function Rank(issued: seq<nat>, g: nat): nat {
    if g in issued then Position(issued, g) + 1 else 0
  }

  // A completion may bring one to the caller, a call may bring a completion, and a root start
  // brings a constructor and a call; a deletion costs an object instead.
  function Cost(issued: seq<nat>, m: Message): nat {
    match m
    case Delete(_, _) => 0
    case ConstructorCall(_, _) => 1
    case Data(_, ti, _, _) => 1 + Rank(issued, ti.procId)
    case FunctionCall(_, _, ti) => 2 + Rank(issued, ti.procId)
    case RootStart(ti) => 4 + Rank(issued, ti.procId)
  }

  function Weight(issued: seq<nat>, q: seq<Message>): nat {
    if q == [] then 0 else Cost(issued, q[0]) + Weight(issued, q[1..])
  }

  lemma {:induction false} Append(issued: seq<nat>, q: seq<Message>, r: seq<Message>, alive: set<nat>)
    ensures Weight(issued, q + r) == Weight(issued, q) + Weight(issued, r)
    ensures Intro(q + r) == Intro(q) + Intro(r)
    ensures Final(q + r, alive) == Final(r, Final(q, alive))
    decreases |q|
  {
    if q == [] {
      assert q + r == r;
    } else {
      assert (q + r)[0] == q[0] && (q + r)[1..] == q[1..] + r;
      Append(issued, q[1..], r, After(q[0], alive));
    }
  }

  lemma {:induction false} DeletesWeigh(issued: seq<nat>, ci: CallerInfo, ds: seq<nat>, alive: set<nat>)
    ensures Weight(issued, Deletes(ci, ds)) == 0 && Intro(Deletes(ci, ds)) == {}
    ensures Final(Deletes(ci, ds), alive) <= alive
    decreases |ds|
  {
    if ds != [] {
      DeletesWeigh(issued, ci, ds[1..], alive - {ds[0]});
    }
  }

  // The caller of a procedure ranks below it.
  lemma CallerRanksBelow(issued: seq<nat>, ci: CallerInfo, g: nat)
    requires CalledBy(issued, ci, g) && ci.threadId != NO_THREAD && NONE !in issued
    requires forall i, j :: 0 <= i < j < |issued| ==> issued[i] != issued[j]
    ensures Rank(issued, ci.procId) < Rank(issued, g)
  {
    if ci.procId != NONE {
      PositionOrder(issued, ci.procId, g);
    }
  }

  // ---------------------------------------------------------------- one message

  ghost predicate Settled(w: World) { Inv(w) && OrderOk(w) && NONE !in w.procIds.issued }

  // The oldest message made way for deletions and at most one completion that costs less.
  ghost predicate Worked(w: World, v: World, ci: CallerInfo, ds: seq<nat>, tail: seq<Message>)
    requires w.q != []
  {
    && !w.q[0].Delete? && !w.q[0].RootStart?
    && v.q == w.q[1..] + Deletes(ci, ds) + tail
    && v.objInfo.Keys == After(w.q[0], w.objInfo.Keys) && v.roots == w.roots && v.procIds.issued == w.procIds.issued
    && Sheds(w, v)
    && (tail == [] || (|tail| == 1 && tail[0].Data? && Cost(w.procIds.issued, tail[0]) < Cost(w.procIds.issued, w.q[0])))
  }

  // A step leaves fewer objects, or as many and less to do, and saves no object from deletion.
  ghost predicate Progress(w: World, v: World) {
    && v.roots == w.roots
    && (Alive(v) < Alive(w) ||
        (Alive(v) == Alive(w) && Weight(v.procIds.issued, v.q) < Weight(w.procIds.issued, w.q)))
    && (forall o :: o in Final(v.q, v.objInfo.Keys) ==> o in Final(w.q, w.objInfo.Keys) || o in w.roots)
    && v.procIds.issued == w.procIds.issued
  }

  // Taking the oldest message off a queue.
  lemma HeadWeighs(issued: seq<nat>, q: seq<Message>, alive: set<nat>)
    requires q != []
    ensures Weight(issued, q) == Cost(issued, q[0]) + Weight(issued, q[1..])
    ensures Final(q, alive) == Final(q[1..], After(q[0], alive))
    ensures !q[0].RootStart? && !q[0].Delete? ==> alive + Intro(q) == After(q[0], alive) + Intro(q[1..])
  {
  }

  lemma WorkedProgress(w: World, v: World, ci: CallerInfo, ds: seq<nat>, tail: seq<Message>)
    requires w.q != [] && Worked(w, v, ci, ds, tail)
    ensures Progress(w, v)
  {
    HeadWeighs(w.procIds.issued, w.q, w.objInfo.Keys);
    WorkedQueue(w.procIds.issued, w.q[1..], ci, ds, tail, v.objInfo.Keys);
    Progresses(w, v);
  }

  lemma Progresses(w: World, v: World)
    requires v.roots == w.roots && v.procIds.issued == w.procIds.issued
    requires w.objInfo.Keys + Intro(w.q) == v.objInfo.Keys + Intro(v.q)
    requires Weight(v.procIds.issued, v.q) < Weight(w.procIds.issued, w.q)
    requires Final(v.q, v.objInfo.Keys) <= Final(w.q, w.objInfo.Keys) + w.roots
    ensures Progress(w, v)
  {
  }

  // What deletions and a completion add to a queue.
  lemma WorkedQueue(issued: seq<nat>, q: seq<Message>, ci: CallerInfo, ds: seq<nat>, tail: seq<Message>, alive: set<nat>)
    requires tail == [] || (|tail| == 1 && tail[0].Data?)
    ensures var r := q + Deletes(ci, ds) + tail;
            && Weight(issued, r) == Weight(issued, q) + (if tail == [] then 0 else Cost(issued, tail[0]))
            && Intro(r) == Intro(q) && Final(r, alive) <= Final(q, alive)
  {
    Append(issued, q, Deletes(ci, ds), alive);
    Append(issued, q + Deletes(ci, ds), tail, alive);
    DeletesWeigh(issued, ci, ds, Final(q, alive));
    TailWeighs(issued, tail, Final(q + Deletes(ci, ds), alive));
  }

  lemma OneWeighs(issued: seq<nat>, m: Message, alive: set<nat>)
    ensures Weight(issued, [m]) == Cost(issued, m) && Intro([m]) == Introduced(m) && Final([m], alive) == After(m, alive)
  {
    HeadWeighs(issued, [m], alive);
    assert [m][1..] == [];
  }

  lemma TailWeighs(issued: seq<nat>, tail: seq<Message>, alive: set<nat>)
    requires tail == [] || (|tail| == 1 && tail[0].Data?)
    ensures Weight(issued, tail) == if tail == [] then 0 else Cost(issued, tail[0])
    ensures Intro(tail) == {} && Final(tail, alive) == alive
  {
    if tail != [] {
      assert tail == [tail[0]];
      OneWeighs(issued, tail[0], alive);
    }
  }

  // v is what the handler of the oldest message leaves; x is v with the completion.
  lemma TailWorked(w: World, v: World, x: World, ci: CallerInfo, ds: seq<nat>, tail: seq<Message>)
    requires w.q != [] && (w.q[0].FunctionCall? || w.q[0].Data?)
    requires v.q == w.q[1..] + Deletes(ci, ds) && x.q == v.q + tail && Sheds(w, v)
    requires v.objInfo.Keys == w.objInfo.Keys && v.roots == w.roots && v.procIds.issued == w.procIds.issued
    requires x.objInfo == v.objInfo && x.roots == v.roots && x.procIds == v.procIds
    requires tail == []
             || (|tail| == 1 && tail[0].Data? && Cost(w.procIds.issued, tail[0]) < Cost(w.procIds.issued, w.q[0]))
    ensures Worked(w, x, ci, ds, tail)
  {
    forall p, c | Lists(x, p, c) ensures Lists(w, p, c) {
      assert Lists(v, p, c);
    }
  }

  lemma PoppedSheds(w: World, v: World)
    requires w.q != [] && Sheds(Popped(w), v)
    ensures Sheds(w, v)
  {
    forall p, c | Lists(v, p, c) ensures Lists(w, p, c) {
      assert Lists(Popped(w), p, c);
    }
  }

  lemma RecordCalledBy(w: World, g: nat)
    requires OrderOk(w) && g in w.procToDat
    ensures CalledBy(w.procIds.issued, w.procToDat[g].backNotify, g)
  {
  }

  lemma TameConstruct(w: World, h: Handler)
    requires Settled(w) && w.q != [] && w.q[0].ConstructorCall? && OnlyDeletes(h.cmds) && AllAllowed(NEW_EVENT, h.cmds)
    requires ConstructCall(Popped(w), w.q[0].ci, w.q[0].ti, h).Ok?
    ensures Worked(w, ConstructCall(Popped(w), w.q[0].ci, w.q[0].ti, h).value, NOBODY, [], [])
  {
    var ci, ti := w.q[0].ci, w.q[0].ti;
    HeadFindsObject(w);
    NothingToDelete(h.cmds);
    var built := ObjectData(NEW_EVENT, [], {(ci.threadId, ci.objId)}, map[]);
    var u := Popped(w).(objInfo := w.objInfo[ti.objId := built], started := w.started + {ti.objId});
    assert ConstructCall(Popped(w), ci, ti, h) == ProcessQueued(u, ti);
    IdleFlush(u, ti);
  }

  // With nothing queued, a flush changes nothing.
  lemma IdleFlush(w: World, ti: TargetInfo)
    requires HasCursors(w) && ti.objId in w.objInfo && Flushed(w.objInfo[ti.objId].event)
    ensures ProcessQueued(w, ti) == Ok(w)
  {
    assert WithEvent(w, ti.objId, Clear(w.objInfo[ti.objId].event)) == w;
  }

  // The completion that a procedure's end adds to the queue costs less than what brought it.
  lemma ReturnedTail(v: World, call: nat, ci: CallerInfo, ti: TargetInfo, h: Handler, s: Ids.Source)
      returns (tail: seq<Message>)
    requires Ids.SourceOk(s) && NONE !in s.issued && CalledBy(s.issued, ci, ti.procId)
    ensures var u := Returned(v, call, ci, ti, h);
            u.q == v.q + tail && u.objInfo == v.objInfo && u.roots == v.roots && u.procIds == v.procIds
    ensures tail == [] || (|tail| == 1 && tail[0].Data? && Cost(s.issued, tail[0]) < 1 + Rank(s.issued, ti.procId))
  {
    tail := [];
    if h.ret.Some? && ci.threadId == THREAD {
      CallerRanksBelow(s.issued, ci, ti.procId);
      tail := [Completion(ti, ci, EndStatus(h.ret.value.0), h.ret.value.1, call)];
    }
  }

  lemma YieldedTail(v: World, p: CallData, ti: TargetInfo, h: Handler, s: Ids.Source)
      returns (tail: seq<Message>)
    requires Ids.SourceOk(s) && NONE !in s.issued && CalledBy(s.issued, p.backNotify, ti.procId)
    requires p.backNotify.threadId == NO_THREAD ==> h.ret.None?
    ensures var u := Yielded(v, p, ti, h);
            u.q == v.q + tail && u.objInfo == v.objInfo && u.roots == v.roots && u.procIds == v.procIds
    ensures tail == [] || (|tail| == 1 && tail[0].Data? && Cost(s.issued, tail[0]) < 1 + Rank(s.issued, ti.procId))
  {
    tail := [];
    if h.ret.Some? {
      CallerRanksBelow(s.issued, p.backNotify, ti.procId);
      tail := [Completion(ti, p.backNotify, EndStatus(h.ret.value.0), h.ret.value.1, p.call)];
    }
  }

  // u is w with its oldest message taken, and apart from that with the same objects and children.
  ghost predicate Taken(w: World, u: World)
    requires w.q != []
  {
    && u.q == w.q[1..] && u.objInfo.Keys == w.objInfo.Keys && u.roots == w.roots && u.procIds == w.procIds
    && Sheds(w, u)
  }

  lemma TameTaken(w: World, u: World, ti: TargetInfo, h: Handler) returns (ds: seq<nat>)
    requires w.q != [] && Taken(w, u) && Inv(u) && OnlyDeletes(h.cmds)
    requires ti.objId in u.objInfo && AllAllowed(u.objInfo[ti.objId].event, h.cmds)
    ensures var r := ProcessQueued(RunHandler(u, ti.objId, h), ti);
            && r.Ok? && r.value.q == w.q[1..] + Deletes(Sender(ti), ds) && r.value.procIds.issued == w.procIds.issued
            && r.value.objInfo.Keys == w.objInfo.Keys && r.value.roots == w.roots && Sheds(w, r.value)
    ensures h.cmds == [] ==> ds == []
  {
    ds := TameHandle(u, ti, h);
  }

  // The oldest call, entered.
  lemma BegunTaken(w: World)
    requires w.q != [] && w.q[0].FunctionCall? && w.q[0].ti.objId in w.objInfo
    ensures Taken(w, Begun(Popped(w), w.q[0].call, w.q[0].ci, w.q[0].ti))
  {
    SameLists(w, Begun(Popped(w), w.q[0].call, w.q[0].ci, w.q[0].ti));
  }

  lemma TameFunction(w: World, h: Handler) returns (ds: seq<nat>, tail: seq<Message>)
    requires Settled(w) && w.q != [] && w.q[0].FunctionCall? && OnlyDeletes(h.cmds) && w.q[0].ti.objId in w.objInfo
    requires AllAllowed(w.objInfo[w.q[0].ti.objId].event, h.cmds)
    ensures FunctionCallStep(Popped(w), w.q[0].call, w.q[0].ci, w.q[0].ti, h).Ok?
    ensures Worked(w, FunctionCallStep(Popped(w), w.q[0].call, w.q[0].ci, w.q[0].ti, h).value, Sender(w.q[0].ti), ds, tail)
    ensures h.cmds == [] ==> ds == []
  {
    var call, ci, ti := w.q[0].call, w.q[0].ci, w.q[0].ti;
    var begun := Begun(Popped(w), call, ci, ti);
    CallTaken(w);
    BegunTaken(w);
    ds := TameTaken(w, begun, ti, h);
    PopOrder(w);
    var v := ProcessQueued(RunHandler(begun, ti.objId, h), ti).value;
    tail := ReturnedTail(v, call, ci, ti, h, w.procIds);
    TailWorked(w, v, Returned(v, call, ci, ti, h), Sender(ti), ds, tail);
  }

  lemma TameData(w: World, h: Handler) returns (ds: seq<nat>, tail: seq<Message>)
    requires Settled(w) && w.q != [] && w.q[0].Data? && OnlyDeletes(h.cmds) && Legal(w, Dequeue(h, []))
    ensures DataStep(Popped(w), w.q[0].ti, w.q[0].data, h).Ok?
    ensures Worked(w, DataStep(Popped(w), w.q[0].ti, w.q[0].data, h).value, Sender(w.q[0].ti), ds, tail)
    ensures h.cmds == [] ==> ds == []
  {
    var ti, u := w.q[0].ti, Popped(w);
    DataTaken(w);
    ds, tail := [], [];
    if ti.objId in u.objInfo && ti.procId in u.procToDat {
      ds := TameHandle(u, ti, h);
      RecordCalledBy(w, ti.procId);
      var v := ProcessQueued(RunHandler(u, ti.objId, h), ti).value;
      tail := YieldedTail(v, w.procToDat[ti.procId], ti, h, w.procIds);
      PoppedSheds(w, v);
      TailWorked(w, v, Yielded(v, w.procToDat[ti.procId], ti, h), Sender(ti), ds, tail);
    }
  }

  // A root start makes way for a constructor of the same object and a call.
  lemma RootQueue(issued: seq<nat>, q: seq<Message>, alive: set<nat>, r: seq<Message>)
    requires q != [] && q[0].RootStart? && |r| == 2 && r[0].ConstructorCall? && r[1].FunctionCall?
    requires r[0].ti.objId == q[0].ti.objId && r[1].ti.procId == q[0].ti.procId
    ensures Weight(issued, q[1..] + r) < Weight(issued, q)
    ensures alive + Intro(q) == alive + Intro(q[1..] + r)
    ensures Final(q[1..] + r, alive) == Final(q, alive) + {q[0].ti.objId}
  {
    HeadWeighs(issued, q, alive);
    Append(issued, q[1..], r, alive);
    RootPair(issued, r, Final(q[1..], alive));
  }

  lemma RootIsRoot(w: World)
    requires LifeOk(w) && w.q != [] && w.q[0].RootStart?
    ensures w.q[0].ti.objId in w.roots
  {
    assert w.q[0] in w.q;
  }

  lemma RootProgress(w: World)
    requires Settled(w) && w.q != [] && w.q[0].RootStart?
    ensures Progress(w, RootStartStep(Popped(w), w.q[0].ti))
  {
    var ti, v := w.q[0].ti, RootStartStep(Popped(w), w.q[0].ti);
    var r := [ConstructorCall(NOBODY, TargetInfo(ti.objId, NONE)), FunctionCall(0, NOBODY, ti)];
    RootIsRoot(w);
    assert v.q == w.q[1..] + r;
    RootQueue(w.procIds.issued, w.q, w.objInfo.Keys, r);
    Progresses(w, v);
  }

  lemma RootPair(issued: seq<nat>, r: seq<Message>, alive: set<nat>)
    requires |r| == 2 && r[0].ConstructorCall? && r[1].FunctionCall?
    ensures Weight(issued, r) == Cost(issued, r[0]) + Cost(issued, r[1])
    ensures Intro(r) == {r[0].ti.objId} && Final(r, alive) == alive + {r[0].ti.objId}
  {
    HeadWeighs(issued, r, alive);
    assert r[1..] == [r[1]];
    OneWeighs(issued, r[1], After(r[0], alive));
  }

  // A deletion takes its object away and leaves only deletions behind.
  lemma DeletedQueue(issued: seq<nat>, q: seq<Message>, ci: CallerInfo, order: seq<nat>, alive: set<nat>)
    requires q != [] && q[0].Delete? && Safe(q, alive) && alive !! Intro(q)
    ensures var o, after, r := q[0].ti.objId, After(q[0], alive), q[1..] + Deletes(ci, order);
            && alive + Intro(q) == after + Intro(r) + {o} && o !in after + Intro(r)
            && Final(r, after) <= Final(q, alive)
  {
    Append(issued, q[1..], Deletes(ci, order), After(q[0], alive));
    DeletesWeigh(issued, ci, order, Final(q[1..], After(q[0], alive)));
  }

  lemma DeleteProgress(w: World, order: seq<nat>)
    requires Settled(w) && w.q != [] && w.q[0].Delete? && w.q[0].ti.objId in w.objInfo
    ensures Progress(w, DeleteStep(Popped(w), w.q[0].ci, w.q[0].ti.objId, order))
  {
    var o, v := w.q[0].ti.objId, DeleteStep(Popped(w), w.q[0].ci, w.q[0].ti.objId, order);
    assert v.objInfo.Keys == After(w.q[0], w.objInfo.Keys);
    DeletedQueue(w.procIds.issued, w.q, w.q[0].ci, order, w.objInfo.Keys);
    FewerAlive(w, v, o);
  }

  lemma FewerAlive(w: World, v: World, o: nat)
    requires w.objInfo.Keys + Intro(w.q) == v.objInfo.Keys + Intro(v.q) + {o} && o !in v.objInfo.Keys + Intro(v.q)
    ensures Alive(v) < Alive(w)
  {
  }

  // Whatever else is handled makes way for deletions and at most one completion.
  lemma TameWorked(w: World, i: Input) returns (ci: CallerInfo, ds: seq<nat>, tail: seq<Message>)
    requires Settled(w) && w.q != [] && Tame(w, i) && !w.q[0].RootStart? && !w.q[0].Delete?
    ensures Step(w, i).Ok? && Worked(w, Step(w, i).value, ci, ds, tail)
    ensures i.h.cmds == [] ==> ds == []
  {
    StepOk(w, i);
    HeadFindsObject(w);
    assert Popped(w) == w.(q := w.q[1..]);
    ci, ds, tail := NOBODY, [], [];
    match w.q[0] {
      case ConstructorCall(_, _) => TameConstruct(w, i.h);
      case FunctionCall(_, _, _) => ds, tail := TameFunction(w, i.h); ci := Sender(w.q[0].ti);
      case Data(_, _, _, _) => ds, tail := TameData(w, i.h); ci := Sender(w.q[0].ti);
    }
  }

  /** Every message handled by a handler that neither constructs nor calls leaves fewer objects, or
      as many and less to do; and no object is saved from deletion. */
  lemma TameProgress(w: World, i: Input)
    requires Settled(w) && w.q != [] && Tame(w, i)
    ensures Step(w, i).Ok? && Settled(Step(w, i).value) && Progress(w, Step(w, i).value)
  {
    StepOrder(w, i);
    HeadFindsObject(w);
    assert Popped(w) == w.(q := w.q[1..]);
    var v := Step(w, i).value;
    match w.q[0] {
      case RootStart(_) => RootProgress(w);
      case Delete(_, _) => DeleteProgress(w, i.order);
      case _ =>
        var ci, ds, tail := TameWorked(w, i);
        WorkedProgress(w, v, ci, ds, tail);
    }
  }

  // ---------------------------------------------------------------- cascades

  /** Working off the queue, each message handled by the next choice where that is entitled and
      neither constructs nor calls: whatever the choices, it ends. */
  ghost function Drain(w: World, choices: nat -> Input, n: nat): (v: World)
    requires Settled(w)
    ensures Settled(v) && v.q == []
    decreases Alive(w), Weight(w.procIds.issued, w.q)
  {
    if w.q == [] then w
    else
      var i := TameInput(w, choices(n));
      TameProgress(w, i);
      Drain(Step(w, i).value, choices, n + 1)
  }

  /** A cascade removes every object that was to be deleted. */
  lemma {:induction false} CascadeDeletes(w: World, choices: nat -> Input, n: nat, o: nat)
    requires Settled(w) && o !in Final(w.q, w.objInfo.Keys) && o !in w.roots
    ensures o !in Drain(w, choices, n).objInfo
    decreases Alive(w), Weight(w.procIds.issued, w.q)
  {
    if w.q != [] {
      var i := TameInput(w, choices(n));
      TameProgress(w, i);
      CascadeDeletes(Step(w, i).value, choices, n + 1, o);
    }
  }

  /** And it removes everything below: each object that remains hangs from a root by a chain of
      remaining parents. */
  lemma CascadeLeavesNoOrphans(w: World, choices: nat -> Input, n: nat, o: nat) returns (chain: seq<nat>)
    requires Settled(w) && o in Drain(w, choices, n).objInfo
    ensures var v := Drain(w, choices, n);
            && chain != [] && chain[|chain| - 1] == o && chain[0] in v.roots
            && (forall c :: c in chain ==> c in v.objInfo)
            && (forall i :: 0 <= i < |chain| - 1 ==> Lists(v, chain[i], chain[i + 1]))
  {
    chain := NoOrphans(Drain(w, choices, n), o);
  }

  /** Every state that a run reaches can be worked off like that, as long as the procedure id that
      stands for nobody has not been issued. */
  lemma ReachedSettled(inputs: seq<Input>)
    requires LegalRun(Initial(), inputs)
    ensures Run(Initial(), inputs).Ok?
    ensures var w := Run(Initial(), inputs).value; NONE !in w.procIds.issued ==> Settled(w)
  {
    InitialOk();
    RunOrder(Initial(), inputs);
  }
}
