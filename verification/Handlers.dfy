/** What the commands of a handler come to: what is constructed, what is deleted, and what its
    object has for children once they are flushed. */
module Handlers {
  import opened Wrappers
  import opened Events
  import opened Dispatch
  import opened Lifetimes
  import opened TaskIds
  import opened DispatchLaws
  import opened DispatchRuns
  import opened FlushLaws
  import opened CallTargets

  // ---------------------------------------------------------------- the commands of a handler

  // Some command deletes a slot that names o when the command is reached.
  ghost predicate Drops(e: Event, cs: seq<Command>, o: nat)
    requires AllAllowed(e, cs)
  {
    exists k :: 0 <= k < |cs| && cs[k].D? && Locator(Before(e, cs, k), cs[k].ty, cs[k].vidx) == Some(o)
  }

  // How many commands construct, and how many call.
  function Constructs(cs: seq<Command>): nat {
    if cs == [] then 0 else Constructs(cs[..|cs| - 1]) + if cs[|cs| - 1].I? then 1 else 0
  }

  function CallsIn(cs: seq<Command>): nat {
    if cs == [] then 0 else CallsIn(cs[..|cs| - 1]) + if cs[|cs| - 1].C? then 1 else 0
  }

  lemma AllButLast(e: Event, cs: seq<Command>)
    requires cs != [] && AllAllowed(e, cs)
    ensures var init := cs[..|cs| - 1];
            && AllAllowed(e, init) && Allowed(PerformAll(e, init), cs[|cs| - 1])
            && PerformAll(e, cs) == Perform(PerformAll(e, init), cs[|cs| - 1])
  {
    PerformAllSplit(e, cs, |cs| - 1);
    assert cs[|cs| - 1..] == [cs[|cs| - 1]];
    PerformOne(PerformAll(e, cs[..|cs| - 1]), cs[|cs| - 1]);
  }

  lemma BeforeInit(e: Event, cs: seq<Command>, k: nat)
    requires cs != [] && AllAllowed(e, cs) && AllAllowed(e, cs[..|cs| - 1]) && k < |cs|
    ensures Before(e, cs, k) == Before(e, cs[..|cs| - 1], k)
  {
    assert cs[..|cs| - 1][..k] == cs[..k];
  }

  lemma DropsLast(e: Event, cs: seq<Command>, o: nat)
    requires cs != [] && AllAllowed(e, cs) && AllAllowed(e, cs[..|cs| - 1])
    ensures var init, last := cs[..|cs| - 1], cs[|cs| - 1];
            Drops(e, cs, o) <==>
            Drops(e, init, o) || (last.D? && Locator(PerformAll(e, init), last.ty, last.vidx) == Some(o))
  {
    var init := cs[..|cs| - 1];
    forall k | 0 <= k < |cs| ensures Before(e, cs, k) == Before(e, init, k) { BeforeInit(e, cs, k); }
    assert init[..|init|] == init;
    if Drops(e, init, o) {
      var k :| 0 <= k < |init| && init[k].D? && Locator(Before(e, init, k), init[k].ty, init[k].vidx) == Some(o);
      assert cs[k] == init[k];
    }
  }

  // The objects to delete are those that a command dropped.
  lemma {:induction false} DropsIff(e: Event, cs: seq<Command>, o: nat)
    requires AllAllowed(e, cs)
    ensures o in PerformAll(e, cs).delete_ <==> o in e.delete_ || Drops(e, cs, o)
  {
    if cs != [] {
      AllButLast(e, cs);
      DropsIff(e, cs[..|cs| - 1], o);
      DropsLast(e, cs, o);
    }
  }

  lemma {:induction false} CommandCounts(e: Event, cs: seq<Command>)
    requires AllAllowed(e, cs)
    ensures |PerformAll(e, cs).construct| == |e.construct| + Constructs(cs)
    ensures |PerformAll(e, cs).function_| == |e.function_| + CallsIn(cs)
    ensures PerformAll(e, cs).localProcId == e.localProcId + CallsIn(cs)
  {
    if cs != [] {
      AllButLast(e, cs);
      CommandCounts(e, cs[..|cs| - 1]);
    }
  }

  // ---------------------------------------------------------------- the queue after a handler

  lemma {:induction false} CountJoin(q: seq<Message>, r: seq<Message>, o: nat)
    ensures Count(q + r, o) == Count(q, o) + Count(r, o)
    decreases |q|
  {
    if q == [] {
      assert q + r == r;
    } else {
      assert (q + r)[0] == q[0] && (q + r)[1..] == q[1..] + r;
      CountJoin(q[1..], r, o);
    }
  }

  lemma {:induction false} NoneCounted(q: seq<Message>, o: nat)
    requires forall m :: m in q ==> !m.Delete?
    ensures Count(q, o) == 0
  {
    if q != [] {
      assert q[0] in q;
      NoneCounted(q[1..], o);
    }
  }

  lemma {:induction false} DeletesCounted(ci: CallerInfo, ds: seq<nat>, o: nat)
    requires forall i, j :: 0 <= i < j < |ds| ==> ds[i] != ds[j]
    ensures Count(Deletes(ci, ds), o) == if o in ds then 1 else 0
  {
    if ds != [] {
      assert forall i :: 0 <= i < |ds[1..]| ==> ds[1..][i] == ds[i + 1];
      DeletesCounted(ci, ds[1..], o);
      assert ds == [ds[0]] + ds[1..];
      assert Deletes(ci, ds)[1..] == Deletes(ci, ds[1..]);
      assert ds[0] == o ==> o !in ds[1..];
    }
  }

  /** One message for each command that takes effect: v is w after the constructors cs, the calls
      fs and the deletions of ds joined the queue in the name of ti, and then tail. */
  ghost predicate Queued(w: World, v: World, ti: TargetInfo, e: Event, cmds: seq<Command>,
                         cs: seq<Message>, fs: seq<Message>, ds: seq<nat>, tail: seq<Message>)
    requires AllAllowed(e, cmds)
  {
    && v.q == w.q + cs + fs + Deletes(Sender(ti), ds) + tail
    && Constructors(cs, Sender(ti)) && |cs| == Constructs(cmds)
    && Calls(fs, Sender(ti)) && |fs| <= CallsIn(cmds)
    && (forall i, j :: 0 <= i < j < |ds| ==> ds[i] != ds[j])
    && (forall o :: o in ds <==> Drops(e, cmds, o))
    && v.objIds.issued == w.objIds.issued + Targets(cs) && v.procIds.issued == w.procIds.issued + Procedures(fs)
  }

  lemma QueuedCount(w: World, v: World, ti: TargetInfo, e: Event, cmds: seq<Command>,
                    cs: seq<Message>, fs: seq<Message>, ds: seq<nat>, tail: seq<Message>, o: nat)
    requires AllAllowed(e, cmds) && Queued(w, v, ti, e, cmds, cs, fs, ds, tail) && forall m :: m in tail ==> m.Data?
    ensures Count(v.q, o) == Count(w.q, o) + if Drops(e, cmds, o) then 1 else 0
  {
    CountJoin(w.q + cs + fs + Deletes(Sender(ti), ds), tail, o);
    CountJoin(w.q + cs + fs, Deletes(Sender(ti), ds), o);
    CountJoin(w.q + cs, fs, o);
    CountJoin(w.q, cs, o);
    NoneCounted(tail, o);
    NoneCounted(fs, o);
    NoneCounted(cs, o);
    DeletesCounted(Sender(ti), ds, o);
  }

  // Running and flushing a handler queues just that.
  lemma HandlerQueues(w: World, ti: TargetInfo, h: Handler) returns (cs: seq<Message>, fs: seq<Message>, ds: seq<nat>)
    requires HasCursors(w) && ti.objId in w.objInfo && ObjectOk(w.objInfo[ti.objId])
    requires AllAllowed(w.objInfo[ti.objId].event, h.cmds) && ProcessQueued(RunHandler(w, ti.objId, h), ti).Ok?
    ensures var v := ProcessQueued(RunHandler(w, ti.objId, h), ti).value;
            Queued(w, v, ti, w.objInfo[ti.objId].event, h.cmds, cs, fs, ds, []) && Entered(v, ti.objId, fs)
  {
    var obj, u := w.objInfo[ti.objId], RunHandler(w, ti.objId, h);
    var after := PerformAll(obj.event, h.cmds);
    cs, fs := FlushOrder(u, ti);
    ds := after.delete_;
    HandlerTargets(w, ti, h, cs);
    CommandCounts(obj.event, h.cmds);
    PerformAllOk(obj.event, obj.children.Keys, h.cmds);
    forall o ensures o in ds <==> Drops(obj.event, h.cmds, o) { DropsIff(obj.event, h.cmds, o); }
    var v := ProcessQueued(u, ti).value;
    assert v.q == w.q + cs + fs + Deletes(Sender(ti), ds) + [];
    FlushEnters(u, ti, cs, fs, ds);
  }

  // ---------------------------------------------------------------- the children after a handler

  lemma DropsChild(e: Event, children: set<nat>, cs: seq<Command>, o: nat)
    requires EventOk(e, children) && AllAllowed(e, cs) && Drops(e, cs, o)
    ensures o in children
  {
    var k :| 0 <= k < |cs| && cs[k].D? && Locator(Before(e, cs, k), cs[k].ty, cs[k].vidx) == Some(o);
    PerformAllSplit(e, cs, k);
    PerformAllOk(e, children, cs[..k]);
  }

  lemma {:induction false} IntroHas(q: seq<Message>, m: Message)
    requires m in q
    ensures Introduced(m) <= Intro(q)
  {
    if m != q[0] {
      IntroHas(q[1..], m);
    }
  }

  lemma {:induction false} IntroJoin(q: seq<Message>, r: seq<Message>)
    ensures Intro(q + r) == Intro(q) + Intro(r)
    decreases |q|
  {
    if q == [] {
      assert q + r == r;
    } else {
      assert (q + r)[0] == q[0] && (q + r)[1..] == q[1..] + r;
      IntroJoin(q[1..], r);
    }
  }

  // v is w after messages joined the queue, and p may have new children.
  ghost predicate Grew(w: World, v: World, p: nat, more: seq<Message>) {
    && Inv(w) && Inv(v) && Adopts(w, v, p) && v.q == w.q + more
    && v.objInfo.Keys == w.objInfo.Keys && v.roots == w.roots
  }

  // A child is kept if and only if no deletion of it joins the queue.
  lemma KeptIff(w: World, v: World, p: nat, more: seq<Message>, o: nat)
    requires Grew(w, v, p, more) && Lists(w, p, o)
    ensures Lists(v, p, o) <==> Count(more, o) == 0
  {
    assert Owned(w, o);
    FinalBound(w.q, w.objInfo.Keys);
    IntroJoin(w.q, more);
    CountJoin(w.q, more, o);
    OwnedOrDeleted(w, o);
    OwnedOrDeleted(v, o);
    if Count(more, o) == 0 {
      var r :| Lists(v, r, o);
      ChildIssued(w, p, o);
      assert Lists(w, r, o);
    }
  }

  // A new object whose constructor joins the queue, and no deletion, is a child.
  lemma NewChild(w: World, v: World, p: nat, more: seq<Message>, m: Message)
    requires Grew(w, v, p, more) && m in more && m.ConstructorCall?
    requires m.ti.objId !in w.objIds.issued && Count(more, m.ti.objId) == 0
    ensures Lists(v, p, m.ti.objId)
  {
    var o := m.ti.objId;
    IntroHas(more, m);
    IntroJoin(w.q, more);
    CountJoin(w.q, more, o);
    CountAbsent(w.q, w.objInfo.Keys, o);
    OwnedOrDeleted(v, o);
    var r :| Lists(v, r, o);
    if Lists(w, r, o) {
      ChildIssued(w, r, o);
    }
  }

  lemma OnlyChild(w: World, v: World, p: nat, cs: seq<Message>, more: seq<Message>, o: nat)
    requires Grew(w, v, p, more) && Lists(v, p, o) && v.objIds.issued == w.objIds.issued + Targets(cs)
    ensures Lists(w, p, o) || o in Targets(cs)
  {
  }

  // The procedures that p has called on its child c.
  function CalledOn(w: World, p: nat, c: nat): set<nat> {
    if Lists(w, p, c) then w.objInfo[p].children[c] else {}
  }

  lemma {:induction false} CallsEntered(w: World, ti: TargetInfo, fs: seq<QueuedFunction>)
    requires ti.objId in w.objInfo && HasCursors(w) && FlushFunction(w, ti, fs).Ok?
    ensures var v := FlushFunction(w, ti, fs).value;
            && w.q <= v.q && (forall c :: CalledOn(w, ti.objId, c) <= CalledOn(v, ti.objId, c))
            && forall k :: |w.q| <= k < |v.q| ==> v.q[k].ti.procId in CalledOn(v, ti.objId, v.q[k].ti.objId)
    decreases |fs|
  {
    if fs != [] {
      CallsEntered(FunctionOne(w, ti, fs[0]).value, ti, fs[1..]);
    }
  }

  lemma {:induction false} DeletesForget(w: World, ti: TargetInfo, ds: seq<nat>, c: nat)
    requires ti.objId in w.objInfo && Lists(FlushDelete(w, ti, ds), ti.objId, c)
    ensures Lists(w, ti.objId, c) && CalledOn(FlushDelete(w, ti, ds), ti.objId, c) == CalledOn(w, ti.objId, c)
    decreases |ds|
  {
    if ds != [] {
      DeletesForget(DeleteOne(w, ti, ds[0]), ti, ds[1..], c);
    }
  }

  // The calls that a flush queued are entered with the children that stay.
  lemma FlushEnters(u: World, ti: TargetInfo, cs: seq<Message>, fs: seq<Message>, ds: seq<nat>)
    requires ti.objId in u.objInfo && HasCursors(u) && ProcessQueued(u, ti).Ok?
    requires FlushConstruct(u, ti, u.objInfo[ti.objId].event.construct).q == u.q + cs
    requires ProcessQueued(u, ti).value.q == u.q + cs + fs + Deletes(Sender(ti), ds)
    requires ds == u.objInfo[ti.objId].event.delete_
    ensures Entered(ProcessQueued(u, ti).value, ti.objId, fs)
  {
    var e, v := u.objInfo[ti.objId].event, ProcessQueued(u, ti).value;
    var a := FlushConstruct(u, ti, e.construct);
    var b := FlushFunction(a, ti, e.function_).value;
    var d := FlushDelete(b, ti, ds);
    CallsEntered(a, ti, e.function_);
    DeletesAppended(b, ti, ds);
    SameEnd(b.q, u.q + cs + fs, Deletes(Sender(ti), ds));
    forall m | m in fs && Lists(v, ti.objId, m.ti.objId)
      ensures m.ti.procId in CalledOn(v, ti.objId, m.ti.objId)
    {
      var i :| 0 <= i < |fs| && fs[i] == m;
      assert b.q[|a.q| + i] == m;
      assert Lists(d, ti.objId, m.ti.objId);
      DeletesForget(b, ti, ds, m.ti.objId);
    }
  }

  lemma SameEnd(a: seq<Message>, b: seq<Message>, c: seq<Message>)
    requires a + c == b + c
    ensures a == b
  {
    assert |a| == |b|;
    assert a == (a + c)[..|a|] && b == (b + c)[..|a|];
  }

  // The calls to children that are still listed are entered with them.
  ghost predicate Entered(v: World, p: nat, fs: seq<Message>) {
    forall m :: m in fs && Lists(v, p, m.ti.objId) ==> m.ti.procId in CalledOn(v, p, m.ti.objId)
  }

  // v has for children of p what w had without what was dropped, and the targets of cs.
  ghost predicate Reared(w: World, v: World, p: nat, e: Event, cmds: seq<Command>, cs: seq<Message>)
    requires AllAllowed(e, cmds)
  {
    && (forall o :: Drops(e, cmds, o) ==> Lists(w, p, o))
    && (forall o :: Lists(v, p, o) <==> o in Targets(cs) || (Lists(w, p, o) && !Drops(e, cmds, o)))
  }

  // x is u after the commands of a handler of ti, and their flush.
  ghost predicate Does(u: World, x: World, ti: TargetInfo, e: Event, cmds: seq<Command>,
                       cs: seq<Message>, fs: seq<Message>, ds: seq<nat>)
    requires AllAllowed(e, cmds)
  {
    Queued(u, x, ti, e, cmds, cs, fs, ds, []) && Reared(u, x, ti.objId, e, cmds, cs) && Entered(x, ti.objId, fs)
  }

  /** Running and flushing a handler of an object in order: what it constructs and deletes, what
      joins the queue, and which children are left. */
  lemma HandlerDoes(w: World, ti: TargetInfo, h: Handler) returns (cs: seq<Message>, fs: seq<Message>, ds: seq<nat>)
    requires Inv(w) && ti.objId in w.objInfo && AllAllowed(w.objInfo[ti.objId].event, h.cmds)
    ensures ProcessQueued(RunHandler(w, ti.objId, h), ti).Ok?
    ensures Does(w, ProcessQueued(RunHandler(w, ti.objId, h), ti).value, ti, w.objInfo[ti.objId].event, h.cmds, cs, fs, ds)
  {
    assert ObjectOk(w.objInfo[ti.objId]);
    HandleTaken(w, ti, h);
    cs, fs, ds := HandlerQueues(w, ti, h);
    var v, more := ProcessQueued(RunHandler(w, ti.objId, h), ti).value, cs + fs + Deletes(Sender(ti), ds);
    AssocQueue(w.q, cs, fs, Deletes(Sender(ti), ds));
    QueuedGrew(w, v, ti.objId, more);
    AllDropped(w.objInfo[ti.objId], h.cmds);
    HandlerRears(w, v, ti, w.objInfo[ti.objId].event, h.cmds, cs, fs, ds, more);
  }

  lemma ChildIff(w: World, v: World, p: nat, cs: seq<Message>, more: seq<Message>, o: nat)
    requires Grew(w, v, p, more) && cs <= more && v.objIds.issued == w.objIds.issued + Targets(cs)
    requires forall m :: m in cs ==> m.ConstructorCall?
    requires forall n :: n in Targets(cs) ==> n !in w.objIds.issued
    requires Count(more, o) > 0 ==> Lists(w, p, o)
    ensures Lists(v, p, o) <==> o in Targets(cs) || (Lists(w, p, o) && Count(more, o) == 0)
  {
    if Lists(v, p, o) {
      OnlyChild(w, v, p, cs, more, o);
    }
    if Lists(w, p, o) {
      KeptIff(w, v, p, more, o);
      ChildIssued(w, p, o);
    } else if o in Targets(cs) {
      var i :| 0 <= i < |cs| && Targets(cs)[i] == o;
      NewChild(w, v, p, more, cs[i]);
    }
  }

  lemma MoreCount(w: World, v: World, ti: TargetInfo, e: Event, cmds: seq<Command>,
                  cs: seq<Message>, fs: seq<Message>, ds: seq<nat>, more: seq<Message>, o: nat)
    requires AllAllowed(e, cmds) && Queued(w, v, ti, e, cmds, cs, fs, ds, []) && v.q == w.q + more
    ensures Count(more, o) == if Drops(e, cmds, o) then 1 else 0
  {
    QueuedCount(w, v, ti, e, cmds, cs, fs, ds, [], o);
    CountJoin(w.q, more, o);
  }

  lemma HandlerRears(w: World, v: World, ti: TargetInfo, e: Event, cmds: seq<Command>,
                     cs: seq<Message>, fs: seq<Message>, ds: seq<nat>, more: seq<Message>)
    requires AllAllowed(e, cmds) && Queued(w, v, ti, e, cmds, cs, fs, ds, []) && cs <= more
    requires Grew(w, v, ti.objId, more) && forall o :: Drops(e, cmds, o) ==> Lists(w, ti.objId, o)
    ensures Reared(w, v, ti.objId, e, cmds, cs)
  {
    NewTargets(w, v, cs);
    assert forall m :: m in cs ==> m.ConstructorCall?;
    forall o ensures Lists(v, ti.objId, o) <==> o in Targets(cs) || (Lists(w, ti.objId, o) && !Drops(e, cmds, o)) {
      MoreCount(w, v, ti, e, cmds, cs, fs, ds, more, o);
      ChildIff(w, v, ti.objId, cs, more, o);
    }
  }

  lemma AllDropped(obj: ObjectData, cmds: seq<Command>)
    requires ObjectOk(obj) && AllAllowed(obj.event, cmds)
    ensures forall o :: Drops(obj.event, cmds, o) ==> o in obj.children
  {
    forall o | Drops(obj.event, cmds, o) ensures o in obj.children { DropsChild(obj.event, obj.children.Keys, cmds, o); }
  }

  lemma QueuedGrew(w: World, v: World, p: nat, more: seq<Message>)
    requires Inv(w) && Inv(v) && Adopts(w, v, p) && v.objInfo.Keys == w.objInfo.Keys && v.roots == w.roots
    requires v.q == w.q + more
    ensures Grew(w, v, p, more)
  {
  }

  lemma AssocQueue(q: seq<Message>, a: seq<Message>, b: seq<Message>, c: seq<Message>)
    ensures q + a + b + c + [] == q + (a + b + c)
  {
  }

  // ---------------------------------------------------------------- each message

  // The head of the queue runs a handler.
  predicate Runs(w: World) {
    w.q != [] && (w.q[0].ConstructorCall? || w.q[0].FunctionCall? || (w.q[0].Data? && Awaited(w)))
  }

  // The event that the handler finds.
  function Found(w: World): Event
    requires Runs(w)
  {
    if w.q[0].ti.objId in w.objInfo then w.objInfo[w.q[0].ti.objId].event else NEW_EVENT
  }

  // A procedure that returned has a caller to tell.
  predicate Reports(w: World, h: Handler)
    requires Runs(w)
  {
    h.ret.Some? && (w.q[0].Data? || (w.q[0].FunctionCall? && w.q[0].ci.threadId == THREAD))
  }

  // What a handler's step does to w: its commands are carried out, and then its caller is told.
  ghost predicate Carried(w: World, v: World, h: Handler,
                          cs: seq<Message>, fs: seq<Message>, ds: seq<nat>, tail: seq<Message>)
    requires Runs(w) && AllAllowed(Found(w), h.cmds)
  {
    var ti, e := w.q[0].ti, Found(w);
    && Queued(Popped(w), v, ti, e, h.cmds, cs, fs, ds, tail) && Reared(w, v, ti.objId, e, h.cmds, cs)
    && Entered(v, ti.objId, fs)
    && |tail| == (if Reports(w, h) then 1 else 0) && (forall m :: m in tail ==> m.Data?)
  }

  lemma QueuedTail(w: World, u: World, v: World, ti: TargetInfo, e: Event, cmds: seq<Command>,
                   cs: seq<Message>, fs: seq<Message>, ds: seq<nat>, tail: seq<Message>)
    requires AllAllowed(e, cmds) && Queued(w, u, ti, e, cmds, cs, fs, ds, [])
    requires v.q == u.q + tail && v.objIds == u.objIds && v.procIds == u.procIds
    ensures Queued(w, v, ti, e, cmds, cs, fs, ds, tail)
  {
    assert u.q + [] == u.q;
  }

  // A world with the same children.
  ghost predicate SameChildren(u: World, v: World, p: nat) {
    forall c :: Lists(u, p, c) == Lists(v, p, c) && CalledOn(u, p, c) == CalledOn(v, p, c)
  }

  lemma ChildrenSame(w: World, u: World, x: World, v: World, p: nat, e: Event, cmds: seq<Command>,
                     cs: seq<Message>, fs: seq<Message>)
    requires AllAllowed(e, cmds) && SameChildren(w, u, p) && SameChildren(x, v, p)
    requires Reared(u, x, p, e, cmds, cs) && Entered(x, p, fs)
    ensures Reared(w, v, p, e, cmds, cs) && Entered(v, p, fs)
  {
  }

  // u is w without its head, but for records, procedures and objects without children.
  ghost predicate Starts(w: World, u: World)
    requires w.q != []
  {
    u.q == w.q[1..] && u.objIds == w.objIds && u.procIds == w.procIds && SameChildren(w, u, w.q[0].ti.objId)
  }

  // v is x with tail queued, but for records.
  ghost predicate Ends(x: World, v: World, tail: seq<Message>) {
    v.q == x.q + tail && v.objIds == x.objIds && v.procIds == x.procIds && v.objInfo == x.objInfo
  }

  lemma CarriedBy(w: World, u: World, x: World, v: World, h: Handler,
                  cs: seq<Message>, fs: seq<Message>, ds: seq<nat>, tail: seq<Message>)
    requires Runs(w) && AllAllowed(Found(w), h.cmds)
    requires Starts(w, u) && Does(u, x, w.q[0].ti, Found(w), h.cmds, cs, fs, ds) && Ends(x, v, tail)
    requires |tail| == (if Reports(w, h) then 1 else 0) && (forall m :: m in tail ==> m.Data?)
    ensures Carried(w, v, h, cs, fs, ds, tail)
  {
    var ti, e := w.q[0].ti, Found(w);
    assert Queued(Popped(w), x, ti, e, h.cmds, cs, fs, ds, []);
    QueuedTail(Popped(w), x, v, ti, e, h.cmds, cs, fs, ds, tail);
    assert SameChildren(x, v, ti.objId);
    ChildrenSame(w, u, x, v, ti.objId, e, h.cmds, cs, fs);
  }

  // The world in which the constructor of the head runs.
  function Built(w: World): World
    requires w.q != [] && w.q[0].ConstructorCall?
  {
    var ci, o := w.q[0].ci, w.q[0].ti.objId;
    Popped(w).(objInfo := w.objInfo[o := ObjectData(NEW_EVENT, [], {(ci.threadId, ci.objId)}, map[])],
               started := w.started + {o})
  }

  lemma BuiltOk(w: World)
    requires Inv(w) && w.q != [] && w.q[0].ConstructorCall?
    ensures w.q[0].ti.objId !in w.objInfo && Inv(Built(w))
  {
    var o := w.q[0].ti.objId;
    EnteredOk(w, Built(w), o, Built(w).objInfo[o]);
    assert ObjectOk(Built(w).objInfo[o]);
  }

  lemma BuiltStarts(w: World, h: Handler)
    requires HasCursors(w) && w.q != [] && w.q[0].ConstructorCall? && AllAllowed(NEW_EVENT, h.cmds)
    requires w.q[0].ti.objId !in w.objInfo
    ensures Starts(w, Built(w)) && Found(w) == NEW_EVENT
    ensures ConstructCall(Popped(w), w.q[0].ci, w.q[0].ti, h)
            == ProcessQueued(RunHandler(Built(w), w.q[0].ti.objId, h), w.q[0].ti)
  {
    EnterThenRun(Popped(w), w.q[0].ci, w.q[0].ti, h, Built(w));
  }

  lemma ConstructCarried(w: World, h: Handler) returns (cs: seq<Message>, fs: seq<Message>, ds: seq<nat>)
    requires Inv(w) && w.q != [] && w.q[0].ConstructorCall? && AllAllowed(NEW_EVENT, h.cmds)
    ensures Found(w) == NEW_EVENT && ConstructCall(Popped(w), w.q[0].ci, w.q[0].ti, h).Ok?
    ensures Carried(w, ConstructCall(Popped(w), w.q[0].ci, w.q[0].ti, h).value, h, cs, fs, ds, [])
  {
    BuiltOk(w);
    BuiltStarts(w, h);
    cs, fs, ds := HandlerDoes(Built(w), w.q[0].ti, h);
    var v := ProcessQueued(RunHandler(Built(w), w.q[0].ti.objId, h), w.q[0].ti).value;
    EndsNow(v);
    CarriedBy(w, Built(w), v, v, h, cs, fs, ds, []);
  }

  lemma EndsNow(v: World)
    ensures Ends(v, v, [])
  {
  }

  lemma FunctionCarried(w: World, h: Handler)
      returns (cs: seq<Message>, fs: seq<Message>, ds: seq<nat>, tail: seq<Message>)
    requires Inv(w) && w.q != [] && w.q[0].FunctionCall?
    requires w.q[0].ti.objId in w.objInfo && AllAllowed(w.objInfo[w.q[0].ti.objId].event, h.cmds)
    ensures FunctionCallStep(Popped(w), w.q[0].call, w.q[0].ci, w.q[0].ti, h).Ok?
    ensures Carried(w, FunctionCallStep(Popped(w), w.q[0].call, w.q[0].ci, w.q[0].ti, h).value, h, cs, fs, ds, tail)
  {
    var call, ci, ti := w.q[0].call, w.q[0].ci, w.q[0].ti;
    var u := Begun(Popped(w), call, ci, ti);
    CallTaken(w);
    BegunStarts(w);
    cs, fs, ds := HandlerDoes(u, ti, h);
    var x := ProcessQueued(RunHandler(u, ti.objId, h), ti).value;
    tail := ReturnedEnds(x, call, ci, ti, h);
    CarriedBy(w, u, x, Returned(x, call, ci, ti, h), h, cs, fs, ds, tail);
  }

  lemma BegunStarts(w: World)
    requires w.q != [] && w.q[0].FunctionCall? && w.q[0].ti.objId in w.objInfo
    ensures Starts(w, Begun(Popped(w), w.q[0].call, w.q[0].ci, w.q[0].ti))
  {
  }

  lemma ReturnedEnds(x: World, call: nat, ci: CallerInfo, ti: TargetInfo, h: Handler) returns (tail: seq<Message>)
    ensures Ends(x, Returned(x, call, ci, ti, h), tail) && (forall m :: m in tail ==> m.Data?)
    ensures |tail| == if h.ret.Some? && ci.threadId == THREAD then 1 else 0
  {
    tail := if h.ret.Some? && ci.threadId == THREAD
            then [Completion(ti, ci, EndStatus(h.ret.value.0), h.ret.value.1, call)] else [];
  }

  lemma YieldedEnds(x: World, p: CallData, ti: TargetInfo, h: Handler) returns (tail: seq<Message>)
    ensures Ends(x, Yielded(x, p, ti, h), tail) && (forall m :: m in tail ==> m.Data?)
    ensures |tail| == if h.ret.Some? then 1 else 0
  {
    tail := if h.ret.Some?
            then [Completion(ti, p.backNotify, EndStatus(h.ret.value.0), h.ret.value.1, p.call)] else [];
  }

  lemma DataCarried(w: World, h: Handler)
      returns (cs: seq<Message>, fs: seq<Message>, ds: seq<nat>, tail: seq<Message>)
    requires Inv(w) && w.q != [] && w.q[0].Data? && Awaited(w) && Legal(w, Dequeue(h, []))
    ensures AllAllowed(Found(w), h.cmds) && DataStep(Popped(w), w.q[0].ti, w.q[0].data, h).Ok?
    ensures Carried(w, DataStep(Popped(w), w.q[0].ti, w.q[0].data, h).value, h, cs, fs, ds, tail)
  {
    var ti, p := w.q[0].ti, w.procToDat[w.q[0].ti.procId];
    DataTaken(w);
    DataStarts(w, h);
    cs, fs, ds := HandlerDoes(Popped(w), ti, h);
    var x := ProcessQueued(RunHandler(Popped(w), ti.objId, h), ti).value;
    tail := YieldedEnds(x, p, ti, h);
    CarriedBy(w, Popped(w), x, Yielded(x, p, ti, h), h, cs, fs, ds, tail);
  }

  lemma DataStarts(w: World, h: Handler)
    requires HasCursors(w) && w.q != [] && w.q[0].Data? && Awaited(w) && Legal(w, Dequeue(h, []))
    requires Yielding(Popped(w), w.q[0].ti.objId, w.q[0].data) == Popped(w)
    ensures Starts(w, Popped(w)) && AllAllowed(Found(w), h.cmds)
    ensures var ti := w.q[0].ti; var r := ProcessQueued(RunHandler(Popped(w), ti.objId, h), ti);
            r.Ok? ==> DataStep(Popped(w), ti, w.q[0].data, h) == Ok(Yielded(r.value, w.procToDat[ti.procId], ti, h))
  {
  }

  /** What every step that runs a handler does: one constructor of a new object for each construct,
      the calls, one deletion for each child that a command dropped and none else, behind them what
      its caller is told, and children to match. */
  lemma HandlerCarriedOut(w: World, h: Handler)
      returns (cs: seq<Message>, fs: seq<Message>, ds: seq<nat>, tail: seq<Message>)
    requires Inv(w) && Runs(w) && Legal(w, Dequeue(h, []))
    ensures AllAllowed(Found(w), h.cmds) && Step(w, Dequeue(h, [])).Ok?
    ensures Carried(w, Step(w, Dequeue(h, [])).value, h, cs, fs, ds, tail)
  {
    HeadFindsObject(w);
    assert Popped(w) == w.(q := w.q[1..]);
    tail := [];
    match w.q[0]
    case ConstructorCall(_, _) => cs, fs, ds := ConstructCarried(w, h);
    case FunctionCall(_, _, _) => cs, fs, ds, tail := FunctionCarried(w, h);
    case Data(_, _, _, _) => cs, fs, ds, tail := DataCarried(w, h);
  }

  /** So the deletions of o that are queued grow, by exactly one, if and only if a command of the
      handler drops o; and then o was a child, and is none any more. */
  lemma DroppedOnce(w: World, h: Handler, o: nat)
    requires Inv(w) && Runs(w) && Legal(w, Dequeue(h, []))
    ensures AllAllowed(Found(w), h.cmds) && Step(w, Dequeue(h, [])).Ok?
    ensures var v, p, drops := Step(w, Dequeue(h, [])).value, w.q[0].ti.objId, Drops(Found(w), h.cmds, o);
            && Count(v.q, o) == Count(w.q, o) + (if drops then 1 else 0)
            && (drops ==> Lists(w, p, o) && !Owned(v, o))
            && (Lists(w, p, o) && !drops ==> Lists(v, p, o))
  {
    var cs, fs, ds, tail := HandlerCarriedOut(w, h);
    var v, e := Step(w, Dequeue(h, [])).value, Found(w);
    QueuedCount(Popped(w), v, w.q[0].ti, e, h.cmds, cs, fs, ds, tail, o);
    assert Count(w.q, o) == Count(w.q[1..], o);
    if Drops(e, h.cmds, o) {
      StepOk(w, Dequeue(h, []));
      DroppedUnowned(v, o);
    }
  }

  lemma DroppedUnowned(v: World, o: nat)
    requires Inv(v) && Count(v.q, o) > 0
    ensures !Owned(v, o)
  {
    if Owned(v, o) {
      FinalBound(v.q, v.objInfo.Keys);
      OwnedOrDeleted(v, o);
    }
  }

  /** A call that does not return at once stays recorded with its caller, running, or degraded if
      it reports a degraded start, and nobody is told anything. */
  lemma CallGoesOn(w: World, h: Handler)
    requires Inv(w) && w.q != [] && w.q[0].FunctionCall? && Legal(w, Dequeue(h, [])) && h.ret.None?
    ensures Step(w, Dequeue(h, [])).Ok?
    ensures var v, p := Step(w, Dequeue(h, [])).value, w.q[0].ti.procId;
            && p in v.procToDat && v.procToDat[p].assocObj == w.q[0].ti.objId && v.procToDat[p].backNotify == w.q[0].ci
            && v.procToDat[p].call == w.q[0].call && v.procToDat[p].status == (if h.success then Running else Degraded)
            && (forall g :: g in v.procToDat && g != p ==> g in w.procToDat && v.procToDat[g] == w.procToDat[g])
            && (forall m :: m in v.q && m.Data? ==> m in w.q[1..])
  {
    var cs, fs, ds, tail := HandlerCarriedOut(w, h);
    OnlyOld(w.q[1..], cs, fs, Sender(w.q[0].ti), ds, tail);
    CallRecords(w, h);
    assert Popped(w) == w.(q := w.q[1..]);
  }

  lemma CallRecords(w: World, h: Handler)
    requires Inv(w) && w.q != [] && w.q[0].FunctionCall? && Legal(w, Dequeue(h, [])) && h.ret.None?
    requires FunctionCallStep(Popped(w), w.q[0].call, w.q[0].ci, w.q[0].ti, h).Ok?
    ensures FunctionCallStep(Popped(w), w.q[0].call, w.q[0].ci, w.q[0].ti, h).value.procToDat
            == w.procToDat[w.q[0].ti.procId :=
                             CallData(w.q[0].ti.objId, if h.success then Running else Degraded, w.q[0].ci, 0, w.q[0].call)]
  {
    CallTaken(w);
    HandleTaken(Begun(Popped(w), w.q[0].call, w.q[0].ci, w.q[0].ti), w.q[0].ti, h);
    RecordedAs(Popped(w), w.q[0].call, w.q[0].ci, w.q[0].ti, h);
  }

  lemma OnlyOld(q: seq<Message>, cs: seq<Message>, fs: seq<Message>, ci: CallerInfo, ds: seq<nat>, tail: seq<Message>)
    requires Constructors(cs, ci) && Calls(fs, ci) && tail == []
    ensures forall m :: m in q + cs + fs + Deletes(ci, ds) + tail && m.Data? ==> m in q
  {
    DeleteMessages(q + cs + fs, ci, ds);
  }

  lemma RecordedAs(u: World, call: nat, ci: CallerInfo, ti: TargetInfo, h: Handler)
    requires HasCursors(u) && ti.objId in u.objInfo && AllAllowed(u.objInfo[ti.objId].event, h.cmds) && h.ret.None?
    requires var r := ProcessQueued(RunHandler(Begun(u, call, ci, ti), ti.objId, h), ti);
             r.Ok? && r.value.procToDat == Begun(u, call, ci, ti).procToDat
    ensures FunctionCallStep(u, call, ci, ti, h).Ok?
    ensures FunctionCallStep(u, call, ci, ti, h).value.procToDat
            == u.procToDat[ti.procId := CallData(ti.objId, if h.success then Running else Degraded, ci, 0, call)]
  {
  }
}
