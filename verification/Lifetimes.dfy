/** Object lifetimes: what the queue promises about every object when it is worked off in order. */
module Lifetimes {
  import opened Wrappers
  import opened Events
  import opened Dispatch
  import Ids

  // ---------------------------------------------------------------- the queue

  // The objects that messages of the queue are going to bring into being.
  function Introduced(m: Message): set<nat> {
    if m.ConstructorCall? || m.RootStart? then {m.ti.objId} else {}
  }

  function Intro(q: seq<Message>): set<nat> {
    if q == [] then {} else Introduced(q[0]) + Intro(q[1..])
  }

  // The constructed and not yet deleted objects after m, if they were alive before it.
  function After(m: Message, alive: set<nat>): set<nat> {
    match m
    case ConstructorCall(_, ti) => alive + {ti.objId}
    case Delete(_, ti) => alive - {ti.objId}
    case _ => alive
  }

  /** The objects that are alive once the whole queue is worked off. */
  function Final(q: seq<Message>, alive: set<nat>): set<nat>
    decreases |q|
  {
    if q == [] then alive else Final(q[1..], After(q[0], alive))
  }

  // m meets its object in the right state: a call or deletion finds it constructed and not
  // deleted, and a construction is the only one of its object.
  predicate Meets(m: Message, alive: set<nat>, later: set<nat>) {
    match m
    case RootStart(ti) => ti.objId !in alive && ti.objId !in later
    case ConstructorCall(_, ti) => ti.objId !in alive && ti.objId !in later
    case FunctionCall(_, _, ti) => ti.objId in alive
    case Delete(_, ti) => ti.objId in alive
    case Data(_, _, _, _) => true
  }

  /** Worked off in order, every message meets its object in the right state. */
  predicate Safe(q: seq<Message>, alive: set<nat>)
    decreases |q|
  {
    q == [] || (Meets(q[0], alive, Intro(q[1..])) && Safe(q[1..], After(q[0], alive)))
  }

  lemma {:induction false} FinalBound(q: seq<Message>, alive: set<nat>)
    ensures Final(q, alive) <= alive + Intro(q)
    decreases |q|
  {
    if q != [] {
      FinalBound(q[1..], After(q[0], alive));
    }
  }

  /** A message joins the queue safely if it meets its object in the final state. */
  lemma {:induction false} SafePush(q: seq<Message>, alive: set<nat>, m: Message)
    requires Safe(q, alive) && Meets(m, Final(q, alive), {}) && Introduced(m) !! Intro(q)
    ensures Safe(q + [m], alive)
    ensures Final(q + [m], alive) == After(m, Final(q, alive))
    ensures Intro(q + [m]) == Intro(q) + Introduced(m)
    decreases |q|
  {
    if q == [] {
      assert q + [m] == [m] && [m][1..] == [];
    } else {
      assert (q + [m])[0] == q[0] && (q + [m])[1..] == q[1..] + [m];
      SafePush(q[1..], After(q[0], alive), m);
    }
  }

  function Count(q: seq<Message>, o: nat): nat {
    if q == [] then 0 else (if q[0].Delete? && q[0].ti.objId == o then 1 else 0) + Count(q[1..], o)
  }

  // An object is deleted at most once, and exactly if it is not alive at the end.
  lemma {:induction false} CountIs(q: seq<Message>, alive: set<nat>, o: nat)
    requires Safe(q, alive) && alive !! Intro(q) && (o in alive || o in Intro(q))
    requires forall m :: m in q && m.RootStart? ==> m.ti.objId != o
    ensures Count(q, o) == if o in Final(q, alive) then 0 else 1
    decreases |q|
  {
    if q != [] {
      var rest, alive' := q[1..], After(q[0], alive);
      assert q == [q[0]] + rest;
      if q[0].Delete? && q[0].ti.objId == o {
        FinalBound(rest, alive');
        CountAbsent(rest, alive', o);
      } else {
        CountIs(rest, alive', o);
      }
    }
  }

  lemma {:induction false} CountAbsent(q: seq<Message>, alive: set<nat>, o: nat)
    requires Safe(q, alive) && o !in alive && o !in Intro(q)
    ensures Count(q, o) == 0
    decreases |q|
  {
    if q != [] {
      CountAbsent(q[1..], After(q[0], alive), o);
    }
  }

  // ---------------------------------------------------------------- the world

  // p is alive and has c among its children.
  predicate Lists(w: World, p: nat, c: nat) { p in w.objInfo && c in w.objInfo[p].children }

  ghost predicate Owned(w: World, c: nat) { exists p :: Lists(w, p, c) }

  ghost predicate SourcesOk(w: World) {
    HasCursors(w) && Ids.SourceOk(w.objIds) && Ids.SourceOk(w.procIds)
  }

  ghost predicate LifeOk(w: World) {
    var alive, intro := w.objInfo.Keys, Intro(w.q);
    && Safe(w.q, alive) && alive !! intro && w.started !! intro && alive <= w.started
    && (forall o :: o in w.started || o in intro || o in w.roots ==> o in w.objIds.issued)
    && (forall m :: m in w.q && m.RootStart? ==> m.ti.objId in w.roots)
    // the objects that survive the queue are the roots and the listed children
    && (forall c :: c in Final(w.q, alive) && c !in w.roots <==> Owned(w, c))
    && (forall p, r, c :: Lists(w, p, c) && Lists(w, r, c) ==> p == r)
  }

  ghost predicate ObjectOk(obj: ObjectData) { EventOk(obj.event, obj.children.Keys) && Flushed(obj.event) }

  ghost predicate OthersOk(w: World, p: nat) {
    forall o {:trigger ObjectOk(w.objInfo[o])} :: o in w.objInfo && o != p ==> ObjectOk(w.objInfo[o])
  }

  /** Object p has constructs cs, calls fs and deletes ds left to flush; all else is in order. */
  ghost predicate Flushing(w: World, p: nat, cs: seq<QueuedConstruct>, fs: seq<QueuedFunction>, ds: seq<nat>) {
    && LifeOk(w) && SourcesOk(w) && OthersOk(w, p) && p in w.objInfo
    && var obj := w.objInfo[p];
    && SlotsOk(obj.event, obj.children.Keys, cs, ds) && IdsOk(obj.event) && CallsOk(obj.event, fs)
  }

  // ---------------------------------------------------------------- what a flush keeps

  lemma PushIntro(w: World, m: Message, v: World)
    requires LifeOk(w) && Meets(m, Final(w.q, w.objInfo.Keys), {}) && Introduced(m) !! Intro(w.q)
    requires v.q == w.q + [m] && v.objInfo.Keys == w.objInfo.Keys
    ensures Safe(v.q, v.objInfo.Keys) && Intro(v.q) == Intro(w.q) + Introduced(m)
    ensures Final(v.q, v.objInfo.Keys) == After(m, Final(w.q, w.objInfo.Keys))
    ensures forall n :: n in v.q <==> n in w.q || n == m
  {
    SafePush(w.q, w.objInfo.Keys, m);
  }

  // Apart from p's event and children, v has the objects of w and the same history.
  ghost predicate SameButFor(w: World, v: World, p: nat) {
    && p in w.objInfo && v.objInfo.Keys == w.objInfo.Keys
    && (forall o :: o in w.objInfo && o != p ==> v.objInfo[o] == w.objInfo[o])
    && v.roots == w.roots && v.started == w.started
    && (forall o :: o in w.objIds.issued ==> o in v.objIds.issued)
  }

  // An id that was never issued is no one's child.
  lemma NotListed(w: World, n: nat)
    requires LifeOk(w) && n !in w.objIds.issued
    ensures !Owned(w, n)
  {
    FinalBound(w.q, w.objInfo.Keys);
  }

  // p gains the new child n, whose construction joins the queue.
  lemma AddChildLife(w: World, v: World, p: nat, n: nat, ci: CallerInfo)
    requires LifeOk(w) && SameButFor(w, v, p) && n !in w.objIds.issued && n in v.objIds.issued
    requires v.q == w.q + [ConstructorCall(ci, TargetInfo(n, NONE))]
    requires v.objInfo[p].children.Keys == w.objInfo[p].children.Keys + {n}
    ensures LifeOk(v)
  {
    FinalBound(w.q, w.objInfo.Keys);
    PushIntro(w, ConstructorCall(ci, TargetInfo(n, NONE)), v);
    NotListed(w, n);
    assert forall r, d :: Lists(v, r, d) <==> Lists(w, r, d) || (r == p && d == n);
    forall d ensures Owned(v, d) <==> Owned(w, d) || d == n {
      if Owned(w, d) { var r :| Lists(w, r, d); assert Lists(v, r, d); }
      if d == n { assert Lists(v, p, n); }
    }
    forall r, s, d | Lists(v, r, d) && Lists(v, s, d) ensures r == s {
      assert Lists(w, r, n) ==> Owned(w, n);
      assert Lists(w, s, n) ==> Owned(w, n);
    }
  }

  // A call of a listed child of p joins the queue.
  lemma CallChildLife(w: World, v: World, p: nat, call: nat, ci: CallerInfo, ti: TargetInfo)
    requires LifeOk(w) && SameButFor(w, v, p) && ti.objId in w.objInfo[p].children
    requires v.q == w.q + [FunctionCall(call, ci, ti)]
    requires v.objInfo[p].children.Keys == w.objInfo[p].children.Keys
    ensures LifeOk(v)
  {
    assert Lists(w, p, ti.objId) && Owned(w, ti.objId);
    PushIntro(w, FunctionCall(call, ci, ti), v);
    SameLists(w, v);
  }

  // p drops its child d, whose deletion joins the queue.
  lemma DropChildLife(w: World, v: World, p: nat, d: nat, ci: CallerInfo)
    requires LifeOk(w) && SameButFor(w, v, p) && d in w.objInfo[p].children
    requires v.q == w.q + [Delete(ci, TargetInfo(d, NONE))]
    requires v.objInfo[p].children.Keys == w.objInfo[p].children.Keys - {d}
    ensures LifeOk(v)
  {
    assert Lists(w, p, d) && Owned(w, d);
    PushIntro(w, Delete(ci, TargetInfo(d, NONE)), v);
    assert forall r, c :: Lists(v, r, c) <==> Lists(w, r, c) && !(r == p && c == d);
    forall c ensures Owned(v, c) <==> Owned(w, c) && c != d {
      if Owned(v, c) { var r :| Lists(v, r, c); assert Lists(w, r, c); assert c != d; }
      if Owned(w, c) && c != d { var r :| Lists(w, r, c); assert Lists(v, r, c); }
    }
  }

  // p's event changes, and nothing else.
  lemma EventLife(w: World, v: World, p: nat)
    requires LifeOk(w) && SameButFor(w, v, p) && v.q == w.q
    requires v.objInfo[p].children.Keys == w.objInfo[p].children.Keys
    ensures LifeOk(v)
  {
    SameLists(w, v);
  }

  lemma SameLists(w: World, v: World)
    requires v.objInfo.Keys == w.objInfo.Keys
    requires forall o :: o in w.objInfo ==> v.objInfo[o].children.Keys == w.objInfo[o].children.Keys
    ensures forall p, c :: Lists(v, p, c) == Lists(w, p, c)
    ensures forall c :: Owned(v, c) == Owned(w, c)
  {
    forall p, c ensures Lists(v, p, c) == Lists(w, p, c) {
      assert p in w.objInfo ==> (c in v.objInfo[p].children.Keys <==> c in w.objInfo[p].children.Keys);
    }
  }

  // ---------------------------------------------------------------- the three flushes

  lemma NameSlot(e: Event, f: Event, children: set<nat>, cs: seq<QueuedConstruct>, ds: seq<nat>, n: nat)
    requires cs != [] && SlotsOk(e, children, cs, ds) && n !in children
    requires forall ty, i :: At(f, ty, i) ==
               if QueuedConstruct(ty, i) == cs[0] then Some(EventInfo(Some(n))) else At(e, ty, i)
    ensures SlotsOk(f, children + {n}, cs[1..], ds)
  {
    var c := cs[0];
    assert cs == [c] + cs[1..];
    assert forall ty, i :: Locator(f, ty, i) == if QueuedConstruct(ty, i) == c then Some(n) else Locator(e, ty, i);
    assert forall k :: 0 <= k < |cs[1..]| ==> cs[1..][k] == cs[k + 1];
    assert c !in cs[1..];
  }

  // v is w after p's first queued construct was named n.
  ghost predicate Named(w: World, v: World, ti: TargetInfo, c: QueuedConstruct, n: nat) {
    && SameButFor(w, v, ti.objId) && SourcesOk(v)
    && n !in w.objIds.issued && v.objIds.issued == w.objIds.issued + [n]
    && v.q == w.q + [ConstructorCall(CallerInfo(THREAD, ti.objId, ti.procId), TargetInfo(n, NONE))]
    && v.objInfo[ti.objId].children.Keys == w.objInfo[ti.objId].children.Keys + {n}
    && c.vidx < |SlotsOf(w.objInfo[ti.objId].event, c.idx)|
    && v.objInfo[ti.objId].event == SetSlot(w.objInfo[ti.objId].event, c.idx, c.vidx, Some(EventInfo(Some(n))))
  }

  lemma ConstructOneNames(w: World, ti: TargetInfo, c: QueuedConstruct)
    requires SourcesOk(w) && ti.objId in w.objInfo && At(w.objInfo[ti.objId].event, c.idx, c.vidx).Some?
    ensures Named(w, ConstructOne(w, ti, c), ti, c, Ids.Draw(w.objIds, THREAD).1)
    ensures ConstructOne(w, ti, c).procIds == w.procIds && ConstructOne(w, ti, c).procToDat == w.procToDat
  {
    Ids.DrawFresh(w.objIds, THREAD);
  }

  lemma NamedOk(w: World, v: World, ti: TargetInfo, cs: seq<QueuedConstruct>, fs: seq<QueuedFunction>, ds: seq<nat>, n: nat)
    requires cs != [] && Flushing(w, ti.objId, cs, fs, ds) && Named(w, v, ti, cs[0], n)
    ensures Flushing(v, ti.objId, cs[1..], fs, ds)
  {
    var p := ti.objId;
    AddChildLife(w, v, p, n, CallerInfo(THREAD, p, ti.procId));
    NotListed(w, n);
    assert !Lists(w, p, n);
    NameSlotOk(w, v, p, cs, fs, ds, n);
  }

  lemma ConstructOneOk(w: World, ti: TargetInfo, cs: seq<QueuedConstruct>, fs: seq<QueuedFunction>, ds: seq<nat>)
    requires cs != [] && Flushing(w, ti.objId, cs, fs, ds)
    ensures Flushing(ConstructOne(w, ti, cs[0]), ti.objId, cs[1..], fs, ds)
  {
    assert cs[0] in cs && At(w.objInfo[ti.objId].event, cs[0].idx, cs[0].vidx) == Some(EventInfo(None));
    ConstructOneNames(w, ti, cs[0]);
    NamedOk(w, ConstructOne(w, ti, cs[0]), ti, cs, fs, ds, Ids.Draw(w.objIds, THREAD).1);
  }

  lemma NameSlotOk(w: World, v: World, p: nat, cs: seq<QueuedConstruct>, fs: seq<QueuedFunction>, ds: seq<nat>, n: nat)
    requires p in w.objInfo && p in v.objInfo && cs != []
    requires var e, children := w.objInfo[p].event, w.objInfo[p].children;
             && SlotsOk(e, children.Keys, cs, ds) && IdsOk(e) && CallsOk(e, fs) && n !in children
             && cs[0].vidx < |SlotsOf(e, cs[0].idx)|
             && v.objInfo[p].event == SetSlot(e, cs[0].idx, cs[0].vidx, Some(EventInfo(Some(n))))
             && v.objInfo[p].children.Keys == children.Keys + {n}
    ensures var e := v.objInfo[p].event;
            SlotsOk(e, v.objInfo[p].children.Keys, cs[1..], ds) && IdsOk(e) && CallsOk(e, fs)
  {
    var obj, c := w.objInfo[p], cs[0];
    SetSlotAt(obj.event, c.idx, c.vidx, Some(EventInfo(Some(n))));
    NameSlot(obj.event, v.objInfo[p].event, obj.children.Keys, cs, ds, n);
  }

  // A queued call whose slot is not empty finds it named by a listed child.
  lemma CallFindsChild(e: Event, children: set<nat>, fs: seq<QueuedFunction>, ds: seq<nat>)
    requires fs != [] && SlotsOk(e, children, [], ds)
    ensures var s := At(e, fs[0].idx, fs[0].vidx); s.Some? ==> s.value.locator.Some? && s.value.locator.value in children
  {
    var f := fs[0];
    if At(e, f.idx, f.vidx).Some? {
      var info := At(e, f.idx, f.vidx).value;
      assert At(e, f.idx, f.vidx) == Some(info) && info.locator.Some?;
      assert Locator(e, f.idx, f.vidx) == info.locator;
    }
  }

  lemma RegisterOk(e: Event, fs: seq<QueuedFunction>, g: nat)
    requires fs != [] && IdsOk(e) && CallsOk(e, fs) && g !in e.globalToLocal
    ensures IdsOk(Register(e, g, fs[0].localId)) && CallsOk(Register(e, g, fs[0].localId), fs[1..])
  {
    var f := fs[0];
    assert f in fs && forall k :: 0 <= k < |fs[1..]| ==> fs[1..][k] == fs[k + 1];
    assert forall h :: h in fs[1..] ==> h in fs;
    assert forall h :: h in fs[1..] ==> h.localId != f.localId;
  }

  // The global ids an event knows were issued.
  ghost predicate Issued(w: World, p: nat) {
    p in w.objInfo && forall g :: g in w.objInfo[p].event.globalToLocal ==> g in w.procIds.issued
  }

  // v is w after the call f of p reached its target as procedure g.
  ghost predicate Called(w: World, v: World, ti: TargetInfo, f: QueuedFunction, target: nat, g: nat) {
    && SameButFor(w, v, ti.objId) && SourcesOk(v)
    && v.objIds == w.objIds && g !in w.procIds.issued && v.procIds.issued == w.procIds.issued + [g]
    && target in w.objInfo[ti.objId].children
    && v.q == w.q + [FunctionCall(f.localId, CallerInfo(THREAD, ti.objId, ti.procId), TargetInfo(target, g))]
    && v.objInfo[ti.objId].children.Keys == w.objInfo[ti.objId].children.Keys
    && v.objInfo[ti.objId].event == Register(w.objInfo[ti.objId].event, g, f.localId)
    && v.procToDat == w.procToDat
  }

  lemma FunctionOneCalls(w: World, ti: TargetInfo, f: QueuedFunction)
    requires SourcesOk(w) && ti.objId in w.objInfo
    requires var s := At(w.objInfo[ti.objId].event, f.idx, f.vidx);
             s.Some? && s.value.locator.Some? && s.value.locator.value in w.objInfo[ti.objId].children
    ensures FunctionOne(w, ti, f).Ok?
    ensures var s := At(w.objInfo[ti.objId].event, f.idx, f.vidx);
            Called(w, FunctionOne(w, ti, f).value, ti, f, s.value.locator.value, Ids.Draw(w.procIds, THREAD).1)
  {
    Ids.DrawFresh(w.procIds, THREAD);
  }

  lemma CalledOk(w: World, v: World, ti: TargetInfo, fs: seq<QueuedFunction>, ds: seq<nat>, target: nat, g: nat)
    requires fs != [] && Flushing(w, ti.objId, [], fs, ds) && Issued(w, ti.objId)
    requires Called(w, v, ti, fs[0], target, g)
    ensures Flushing(v, ti.objId, [], fs[1..], ds) && Issued(v, ti.objId)
  {
    var p, e := ti.objId, w.objInfo[ti.objId].event;
    CallChildLife(w, v, p, fs[0].localId, CallerInfo(THREAD, p, ti.procId), TargetInfo(target, g));
    RegisterOk(e, fs, g);
    SameSlots(e, v.objInfo[p].event, w.objInfo[p].children.Keys, [], ds);
  }

  lemma FunctionOneOk(w: World, ti: TargetInfo, fs: seq<QueuedFunction>, ds: seq<nat>)
    requires fs != [] && Flushing(w, ti.objId, [], fs, ds) && Issued(w, ti.objId)
    ensures FunctionOne(w, ti, fs[0]).Ok?
    ensures Flushing(FunctionOne(w, ti, fs[0]).value, ti.objId, [], fs[1..], ds)
    ensures Issued(FunctionOne(w, ti, fs[0]).value, ti.objId)
  {
    var obj, f := w.objInfo[ti.objId], fs[0];
    CallFindsChild(obj.event, obj.children.Keys, fs, ds);
    if At(obj.event, f.idx, f.vidx).Some? {
      FunctionOneCalls(w, ti, f);
      CalledOk(w, FunctionOne(w, ti, f).value, ti, fs, ds,
               At(obj.event, f.idx, f.vidx).value.locator.value, Ids.Draw(w.procIds, THREAD).1);
    } else {
      SkipCall(obj.event, fs);
    }
  }

  lemma SkipCall(e: Event, fs: seq<QueuedFunction>)
    requires fs != [] && CallsOk(e, fs)
    ensures CallsOk(e, fs[1..])
  {
    assert forall k :: 0 <= k < |fs[1..]| ==> fs[1..][k] == fs[k + 1];
    assert forall h :: h in fs[1..] ==> h in fs;
  }

  lemma SameSlots(e: Event, f: Event, children: set<nat>, cs: seq<QueuedConstruct>, ds: seq<nat>)
    requires SlotsOk(e, children, cs, ds) && f.subEvents == e.subEvents
    ensures SlotsOk(f, children, cs, ds)
  {
    assert forall ty, i :: At(f, ty, i) == At(e, ty, i);
    assert forall ty, i :: Locator(f, ty, i) == Locator(e, ty, i);
  }

  lemma DropOk(e: Event, children: set<nat>, ds: seq<nat>)
    requires ds != [] && SlotsOk(e, children, [], ds)
    ensures SlotsOk(e, children - {ds[0]}, [], ds[1..])
  {
    assert ds == [ds[0]] + ds[1..];
    assert forall k :: 0 <= k < |ds[1..]| ==> ds[1..][k] == ds[k + 1];
    assert ds[0] in ds && ds[0] !in ds[1..];
  }

  lemma DeleteOneOk(w: World, ti: TargetInfo, ds: seq<nat>)
    requires ds != [] && Flushing(w, ti.objId, [], [], ds)
    ensures Flushing(DeleteOne(w, ti, ds[0]), ti.objId, [], [], ds[1..])
  {
    var p, obj, v := ti.objId, w.objInfo[ti.objId], DeleteOne(w, ti, ds[0]);
    assert ds[0] in ds;
    DropChildLife(w, v, p, ds[0], CallerInfo(THREAD, p, ti.procId));
    DropOk(obj.event, obj.children.Keys, ds);
    assert v.objInfo[p].children.Keys == obj.children.Keys - {ds[0]};
  }
}
