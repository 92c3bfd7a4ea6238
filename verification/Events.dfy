/** The bookkeeping every Event object carries: slots for its sub-objects, local ids for its
    calls, and the commands its handlers queue until the dispatcher flushes them. */
module Events {
  import opened Wrappers

  // A slot's sub-object: absent until the dispatcher has named it.
  datatype EventInfo = EventInfo(locator: Option<nat>)

  type Slots = seq<Option<EventInfo>>

  datatype QueuedConstruct = QueuedConstruct(idx: nat, vidx: nat)
  datatype QueuedFunction = QueuedFunction(idx: nat, vidx: nat, localId: nat)

  datatype Event = Event(
    subEvents: map<nat, Slots>,        // per sub-object type, its slots
    localProcId: nat,
    globalToLocal: map<nat, nat>,
    localToGlobal: map<nat, nat>,
    construct: seq<QueuedConstruct>,
    function_: seq<QueuedFunction>,
    delete_: seq<nat>)                 // objects to delete

  const NEW_EVENT := Event(map[], 0, map[], map[], [], [], [])

  function SlotsOf(e: Event, ty: nat): Slots {
    if ty in e.subEvents then e.subEvents[ty] else []
  }

  predicate InRange(e: Event, ty: nat, i: nat) { i < |SlotsOf(e, ty)| }

  // The content of a slot; an index beyond the slots counts as empty.
  function At(e: Event, ty: nat, i: nat): Option<EventInfo> {
    if InRange(e, ty, i) then SlotsOf(e, ty)[i] else None
  }

  // The object a slot names.
  function Locator(e: Event, ty: nat, i: nat): Option<nat> {
    match At(e, ty, i) case None => None case Some(info) => info.locator
  }

  function SetSlot(e: Event, ty: nat, i: nat, info: Option<EventInfo>): Event
    requires i <= |SlotsOf(e, ty)|
  {
    var slots := SlotsOf(e, ty);
    e.(subEvents := e.subEvents[ty := if i < |slots| then slots[i := info] else slots + [info]])
  }

  function FirstFree(slots: Slots): (i: nat)
    ensures i <= |slots| && (i < |slots| ==> slots[i].None?)
  {
    if slots == [] || slots[0].None? then 0 else 1 + FirstFree(slots[1..])
  }

  // ---------------------------------------------------------------- commands

  datatype Command =
    | I(ty: nat)             // construct a sub-object of a type
    | C(ty: nat, vidx: nat)  // call a function of the sub-object in a slot
    | D(ty: nat, vidx: nat)  // delete the sub-object in a slot

  /** What the source demands of a handler: a call names an existing slot, and only an object
      that the dispatcher has already named is deleted. */
  predicate Allowed(e: Event, c: Command) {
    match c
    case I(_) => true
    case C(ty, i) => InRange(e, ty, i)
    case D(ty, i) => Locator(e, ty, i).Some?
  }

  function Perform(e: Event, c: Command): Event
    requires Allowed(e, c)
  {
    match c
    case I(ty) =>
      var i := FirstFree(SlotsOf(e, ty));
      SetSlot(e, ty, i, Some(EventInfo(None))).(construct := e.construct + [QueuedConstruct(ty, i)])
    case C(ty, i) =>
      e.(localProcId := e.localProcId + 1, function_ := e.function_ + [QueuedFunction(ty, i, e.localProcId)])
    case D(ty, i) =>
      SetSlot(e, ty, i, None).(delete_ := e.delete_ + [Locator(e, ty, i).value])
  }

  predicate AllAllowed(e: Event, cs: seq<Command>)
    decreases |cs|
  {
    cs == [] || (Allowed(e, cs[0]) && AllAllowed(Perform(e, cs[0]), cs[1..]))
  }

  // A handler's whole list of commands.
  function PerformAll(e: Event, cs: seq<Command>): Event
    requires AllAllowed(e, cs)
    decreases |cs|
  {
    if cs == [] then e else PerformAll(Perform(e, cs[0]), cs[1..])
  }

  lemma PerformOne(e: Event, c: Command)
    requires Allowed(e, c)
    ensures AllAllowed(e, [c]) && PerformAll(e, [c]) == Perform(e, c)
  {
    assert [c][1..] == [];
    assert AllAllowed(Perform(e, c), []) && PerformAll(Perform(e, c), []) == Perform(e, c);
  }

  function Register(e: Event, global: nat, local: nat): Event {
    e.(globalToLocal := e.globalToLocal[global := local], localToGlobal := e.localToGlobal[local := global])
  }

  function Clear(e: Event): Event { e.(construct := [], function_ := [], delete_ := []) }

  predicate Flushed(e: Event) { e.construct == [] && e.function_ == [] && e.delete_ == [] }

  // ---------------------------------------------------------------- slots

  /** What holds of the slots while constructs cs and deletes ds are queued: a named slot names
      a listed child that is not being deleted, no two slots name the same object, and the
      unnamed slots are those of the queued constructs. */
  ghost predicate SlotsOk(e: Event, children: set<nat>, cs: seq<QueuedConstruct>, ds: seq<nat>) {
    && (forall ty, i :: Locator(e, ty, i).Some? ==>
          Locator(e, ty, i).value in children && Locator(e, ty, i).value !in ds)
    && (forall ty, i, tz, j :: Locator(e, ty, i).Some? && Locator(e, ty, i) == Locator(e, tz, j) ==> ty == tz && i == j)
    && (forall ty, i :: At(e, ty, i) == Some(EventInfo(None)) <==> QueuedConstruct(ty, i) in cs)
    && (forall k, l :: 0 <= k < l < |cs| ==> cs[k] != cs[l])
    && (forall d :: d in ds ==> d in children)
    && (forall k, l :: 0 <= k < l < |ds| ==> ds[k] != ds[l])
  }

  lemma SetSlotAt(e: Event, ty: nat, i: nat, info: Option<EventInfo>)
    requires i <= |SlotsOf(e, ty)|
    ensures At(SetSlot(e, ty, i, info), ty, i) == info
    ensures forall tz, j :: tz != ty || j != i ==> At(SetSlot(e, ty, i, info), tz, j) == At(e, tz, j)
    ensures forall tz, j :: tz != ty || j != i ==> Locator(SetSlot(e, ty, i, info), tz, j) == Locator(e, tz, j)
    ensures Locator(SetSlot(e, ty, i, info), ty, i) == if info.None? then None else info.value.locator
    ensures forall tz, j :: InRange(e, tz, j) ==> InRange(SetSlot(e, ty, i, info), tz, j)
  {
  }

  /** Every allowed command keeps the slots in order. */
  lemma PerformSlotsOk(e: Event, children: set<nat>, c: Command)
    requires SlotsOk(e, children, e.construct, e.delete_) && Allowed(e, c)
    ensures SlotsOk(Perform(e, c), children, Perform(e, c).construct, Perform(e, c).delete_)
  {
    match c
    case I(ty) =>
      var i := FirstFree(SlotsOf(e, ty));
      SetSlotAt(e, ty, i, Some(EventInfo(None)));
      var f := Perform(e, c);
      assert At(e, ty, i) == None;
      assert QueuedConstruct(ty, i) !in e.construct;
      assert forall tz, j :: Locator(f, tz, j) == Locator(e, tz, j);
    case C(ty, i) =>
      assert forall tz, j :: At(Perform(e, c), tz, j) == At(e, tz, j);
      assert forall tz, j :: Locator(Perform(e, c), tz, j) == Locator(e, tz, j);
    case D(ty, i) =>
      SetSlotAt(e, ty, i, None);
      var f := Perform(e, c);
      assert forall tz, j :: Locator(f, tz, j).Some? ==> Locator(f, tz, j) == Locator(e, tz, j);
  }

  // ---------------------------------------------------------------- local ids

  // The two id maps are inverse to each other, and the next local id is unused.
  ghost predicate IdsOk(e: Event) {
    && (forall g :: g in e.globalToLocal ==>
          e.globalToLocal[g] in e.localToGlobal && e.localToGlobal[e.globalToLocal[g]] == g)
    && (forall l :: l in e.localToGlobal ==>
          e.localToGlobal[l] in e.globalToLocal && e.globalToLocal[e.localToGlobal[l]] == l)
    && (forall l :: l in e.localToGlobal ==> l < e.localProcId)
  }

  // The queued calls fs are to existing slots and carry different unregistered local ids.
  ghost predicate CallsOk(e: Event, fs: seq<QueuedFunction>) {
    && (forall f :: f in fs ==> InRange(e, f.idx, f.vidx) && f.localId < e.localProcId && f.localId !in e.localToGlobal)
    && (forall k, l :: 0 <= k < l < |fs| ==> fs[k].localId != fs[l].localId)
  }

  lemma PerformCallsOk(e: Event, c: Command)
    requires IdsOk(e) && CallsOk(e, e.function_) && Allowed(e, c)
    ensures IdsOk(Perform(e, c)) && CallsOk(Perform(e, c), Perform(e, c).function_)
  {
    match c
    case I(ty) => SetSlotAt(e, ty, FirstFree(SlotsOf(e, ty)), Some(EventInfo(None)));
    case C(ty, i) => assert forall tz, j :: InRange(Perform(e, c), tz, j) == InRange(e, tz, j);
    case D(ty, i) => SetSlotAt(e, ty, i, None);
  }

  ghost predicate EventOk(e: Event, children: set<nat>) {
    SlotsOk(e, children, e.construct, e.delete_) && IdsOk(e) && CallsOk(e, e.function_)
  }

  lemma {:induction false} PerformAllOk(e: Event, children: set<nat>, cs: seq<Command>)
    requires EventOk(e, children) && AllAllowed(e, cs)
    ensures EventOk(PerformAll(e, cs), children)
    ensures PerformAll(e, cs).globalToLocal == e.globalToLocal
    decreases |cs|
  {
    if cs != [] {
      PerformSlotsOk(e, children, cs[0]);
      PerformCallsOk(e, cs[0]);
      PerformAllOk(Perform(e, cs[0]), children, cs[1..]);
    }
  }

  // ---------------------------------------------------------------- where a queued call goes

  // The object named by a slot, once named, stays until the slot is deleted; it never returns.
  lemma {:induction false} SlotKeptIff(e: Event, ty: nat, i: nat, o: nat, cs: seq<Command>)
    requires AllAllowed(e, cs) && InRange(e, ty, i)
    requires Locator(e, ty, i) == Some(o)
    ensures Locator(PerformAll(e, cs), ty, i) == Some(o) <==> D(ty, i) !in cs
    ensures Locator(PerformAll(e, cs), ty, i) == None <==> D(ty, i) in cs
    decreases |cs|
  {
    if cs != [] {
      var f := Perform(e, cs[0]);
      PerformAt(e, ty, i, cs[0]);
      assert cs == [cs[0]] + cs[1..];
      if cs[0] == D(ty, i) {
        UnnamedStays(f, ty, i, cs[1..]);
      } else {
        SlotKeptIff(f, ty, i, o, cs[1..]);
      }
    }
  }

  lemma PerformAt(e: Event, ty: nat, i: nat, c: Command)
    requires Allowed(e, c) && InRange(e, ty, i)
    ensures InRange(Perform(e, c), ty, i)
    ensures c == D(ty, i) ==> Locator(Perform(e, c), ty, i) == None
    ensures c != D(ty, i) ==> Locator(Perform(e, c), ty, i) == Locator(e, ty, i)
  {
    match c
    case I(tz) => SetSlotAt(e, tz, FirstFree(SlotsOf(e, tz)), Some(EventInfo(None)));
    case C(tz, j) =>
    case D(tz, j) => SetSlotAt(e, tz, j, None);
  }

  lemma {:induction false} UnnamedStays(e: Event, ty: nat, i: nat, cs: seq<Command>)
    requires AllAllowed(e, cs) && InRange(e, ty, i) && Locator(e, ty, i) == None
    ensures Locator(PerformAll(e, cs), ty, i) == None
    decreases |cs|
  {
    if cs != [] {
      PerformAt(e, ty, i, cs[0]);
      UnnamedStays(Perform(e, cs[0]), ty, i, cs[1..]);
    }
  }
}
