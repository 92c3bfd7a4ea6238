/** The Event objects and the dispatcher of one thread, updated in place. */
module ThreadData {
  import opened Wrappers
  import opened Events
  import opened Dispatch
  import opened DispatchLaws
  import opened DispatchRuns
  import Ids

  class EventObject {
    var subEvents: map<nat, Slots>
    var localProcId: nat
    var globalToLocal: map<nat, nat>
    var localToGlobal: map<nat, nat>
    var construct_: seq<QueuedConstruct>
    var function_: seq<QueuedFunction>
    var delete_: seq<nat>
    ghost const owner: nat     // the object whose event this is

    ghost function View(): Event
      reads this
    {
      Event(subEvents, localProcId, globalToLocal, localToGlobal, construct_, function_, delete_)
    }

    constructor (ghost o: nat)
      ensures View() == NEW_EVENT && owner == o
    {
      owner := o;
      subEvents, localProcId := map[], 0;
      globalToLocal, localToGlobal := map[], map[];
      construct_, function_, delete_ := [], [], [];
    }

    /** Takes the first empty slot, or a new one, for a sub-object of a type. */
    method Construct(ty: nat) returns (loc: nat)
      modifies this
      ensures View() == Perform(old(View()), I(ty))
      ensures loc == FirstFree(SlotsOf(old(View()), ty))
    {
      var slots := if ty in subEvents then subEvents[ty] else [];
      loc := 0;
      while loc < |slots| && slots[loc].Some?
        invariant loc <= |slots|
        invariant forall k :: 0 <= k < loc ==> slots[k].Some?
      {
        loc := loc + 1;
      }
      FirstFreeIs(slots, loc);
      var info := Some(EventInfo(None));
      subEvents := subEvents[ty := if loc < |slots| then slots[loc := info] else slots + [info]];
      construct_ := construct_ + [QueuedConstruct(ty, loc)];
    }

    /** Queues a call and returns its local id. */
    method Call(ty: nat, idx: nat) returns (localId: nat)
      requires Allowed(View(), C(ty, idx))
      modifies this
      ensures View() == Perform(old(View()), C(ty, idx)) && localId == old(localProcId)
    {
      localId := localProcId;
      localProcId := localProcId + 1;
      function_ := function_ + [QueuedFunction(ty, idx, localId)];
    }

    /** Queues the deletion of a named sub-object and empties its slot. */
    method Drop(ty: nat, idx: nat)
      requires Allowed(View(), D(ty, idx))
      modifies this
      ensures View() == Perform(old(View()), D(ty, idx))
    {
      var slots := subEvents[ty];
      delete_ := delete_ + [slots[idx].value.locator.value];
      subEvents := subEvents[ty := slots[idx := None]];
    }

    // A handler's body: any allowed commands.
    method Obey(cmds: seq<Command>)
      requires AllAllowed(View(), cmds)
      modifies this
      ensures View() == PerformAll(old(View()), cmds)
    {
      ghost var start := View();
      var k := 0;
      while k < |cmds|
        invariant k <= |cmds| && AllAllowed(View(), cmds[k..])
        invariant PerformAll(View(), cmds[k..]) == PerformAll(start, cmds)
      {
        match cmds[k] {
          case I(ty) => var _ := Construct(ty);
          case C(ty, idx) => var _ := Call(ty, idx);
          case D(ty, idx) => Drop(ty, idx);
        }
        assert cmds[k..][1..] == cmds[k + 1..];
        k := k + 1;
      }
    }

    method GetEvinfo(ty: nat, idx: nat) returns (info: Option<EventInfo>)
      ensures info == At(View(), ty, idx)
    {
      var slots := if ty in subEvents then subEvents[ty] else [];
      info := if idx < |slots| then slots[idx] else None;
    }

    // The dispatcher names the object of a slot.
    method Name(ty: nat, idx: nat, o: nat)
      requires At(View(), ty, idx).Some?
      modifies this
      ensures View() == SetSlot(old(View()), ty, idx, Some(EventInfo(Some(o))))
    {
      subEvents := subEvents[ty := subEvents[ty][idx := Some(EventInfo(Some(o)))]];
    }

    method GlobalToLocal(global: nat, local: nat)
      modifies this
      ensures View() == Register(old(View()), global, local)
    {
      globalToLocal := globalToLocal[global := local];
      localToGlobal := localToGlobal[local := global];
    }

    method MapEvent(data: EventType) returns (mapped: EventType)
      modifies this
      ensures (View(), mapped) == MapEventData(old(View()), data)
    {
      mapped := data;
      if data.ChildTaskCompletion? {
        if data.taskId !in globalToLocal {
          globalToLocal := globalToLocal[data.taskId := 0];
        }
        mapped := data.(taskId := globalToLocal[data.taskId]);
      }
    }

    method ClearQueues()
      modifies this
      ensures View() == Clear(old(View()))
    {
      construct_, function_, delete_ := [], [], [];
    }
  }

  lemma {:induction false} FirstFreeIs(slots: Slots, k: nat)
    requires k <= |slots| && (forall j :: 0 <= j < k ==> slots[j].Some?) && (k < |slots| ==> slots[k].None?)
    ensures FirstFree(slots) == k
  {
    if k > 0 {
      FirstFreeIs(slots[1..], k - 1);
    }
  }

  datatype Entry = Entry(ptr: EventObject, assocProcs: seq<nat>, parents: set<(int, nat)>, children: map<nat, set<nat>>)

  class ThreadData {
    var q: seq<Message>
    var objInfo: map<nat, Entry>
    var procToDat: map<nat, CallData>
    var objBlock: nat                   // the shared block counters, and who has drawn how far
    var objCursors: map<nat, Ids.Cursor>
    var procBlock: nat
    var procCursors: map<nat, Ids.Cursor>
    ghost var world: World             // the whole state as a value, which Valid ties to the fields
    ghost var repr: set<EventObject>   // the events of the objects

    ghost function Object(o: nat): ObjectData
      requires o in objInfo
      reads `objInfo, objInfo[o].ptr
    {
      ObjectData(objInfo[o].ptr.View(), objInfo[o].assocProcs, objInfo[o].parents, objInfo[o].children)
    }

    // The event belongs to this object alone, and the object is as the world has it.
    ghost predicate Mirrored(o: nat)
      requires o in objInfo
      reads `objInfo, `world, objInfo[o].ptr
    {
      objInfo[o].ptr.owner == o && o in world.objInfo && world.objInfo[o] == Object(o)
    }

    // All but one object are as the world has them.
    ghost predicate Objects(x: int)
      reads `objInfo, `world, `repr, repr
    {
      && world.objInfo.Keys == objInfo.Keys
      && (forall o {:trigger objInfo[o]} :: o in objInfo ==> objInfo[o].ptr in repr)
      && (forall o {:trigger Mirrored(o)} :: o in objInfo && o != x ==> Mirrored(o))
    }

    // The counters and cursors are those of w; only w keeps the ids that were issued.
    ghost predicate IdsAre(w: World)
      reads `objBlock, `objCursors, `procBlock, `procCursors
    {
      && w.objIds.block == objBlock && w.objIds.cursors == objCursors
      && w.procIds.block == procBlock && w.procIds.cursors == procCursors
    }

    ghost predicate Valid()
      reads this, repr
    {
      && world.q == q && world.procToDat == procToDat && IdsAre(world)
      && Objects(-1)
    }

    // The mirrored objects, listed by their entries; their events differ from object x's.
    lemma Others(x: int)
      requires Objects(x)
      ensures forall p {:trigger objInfo[p]} :: p in objInfo && p != x ==> Mirrored(p) && objInfo[p].ptr.owner == p
    {
      forall p | p in objInfo && p != x ensures Mirrored(p) && objInfo[p].ptr.owner == p {
        assert Mirrored(p);
      }
    }

    // Brings the world up to date with the fields, when the objects have not changed.
    ghost method Note(w: World)
      requires Objects(-1) && w.objInfo == world.objInfo
      requires w.q == q && w.procToDat == procToDat && IdsAre(w)
      modifies `world
      ensures Valid() && world == w
    {
      world := w;
      forall p | p in objInfo ensures Mirrored(p) {
        assert old(Mirrored(p));
      }
    }

    constructor ()
      ensures Valid() && world == Initial()
    {
      q, objInfo, procToDat := [], map[], map[];
      objBlock, procBlock := 0, 0;
      objCursors := map[THREAD := Ids.UNSET, HANDLER := Ids.UNSET];
      procCursors := map[THREAD := Ids.UNSET, HANDLER := Ids.UNSET];
      world, repr := Initial(), {};
    }

    method GetObjId(drawer: nat) returns (id: nat)
      requires Valid() && drawer in world.objIds.cursors
      modifies `objBlock, `objCursors, `world
      ensures Valid() && id == Ids.Draw(old(world.objIds), drawer).1
      ensures world == old(world).(objIds := Ids.Draw(old(world.objIds), drawer).0)
    {
      ghost var drawn := Ids.Draw(world.objIds, drawer).0;
      var c := objCursors[drawer];
      if !c.init || c.curr == c.base + Ids.BLOCK {
        c := Ids.Cursor(true, Ids.BLOCK * objBlock, Ids.BLOCK * objBlock);
        objBlock := objBlock + 1;
      }
      id := c.curr;
      objCursors := objCursors[drawer := c.(curr := c.curr + 1)];
      Note(world.(objIds := drawn));
    }

    method GetProcId(drawer: nat) returns (id: nat)
      requires Valid() && drawer in world.procIds.cursors
      modifies `procBlock, `procCursors, `world
      ensures Valid() && id == Ids.Draw(old(world.procIds), drawer).1
      ensures world == old(world).(procIds := Ids.Draw(old(world.procIds), drawer).0)
    {
      ghost var drawn := Ids.Draw(world.procIds, drawer).0;
      var c := procCursors[drawer];
      if !c.init || c.curr == c.base + Ids.BLOCK {
        c := Ids.Cursor(true, Ids.BLOCK * procBlock, Ids.BLOCK * procBlock);
        procBlock := procBlock + 1;
      }
      id := c.curr;
      procCursors := procCursors[drawer := c.(curr := c.curr + 1)];
      Note(world.(procIds := drawn));
    }

    method Enqueue(m: Message)
      requires Valid()
      modifies `q, `world
      ensures Valid() && world == Push(old(world), m)
    {
      q := q + [m];
      Note(Push(world, m));
    }

    /** Writes back an object whose event may have been changed in place. */
    method Store(o: nat, entry: Entry)
      requires Objects(o) && o in objInfo && entry.ptr == objInfo[o].ptr && entry.ptr.owner == o
      requires world.q == q && world.procToDat == procToDat && IdsAre(world)
      modifies `objInfo, `world
      ensures Valid() && o in objInfo && objInfo[o].ptr == entry.ptr
      ensures var obj := ObjectData(entry.ptr.View(), entry.assocProcs, entry.parents, entry.children);
              world == old(world).(objInfo := old(world).objInfo[o := obj])
    {
      objInfo := objInfo[o := entry];
      world := world.(objInfo := world.objInfo[o := Object(o)]);
      forall p | p in objInfo ensures Mirrored(p) {
        assert p != o ==> old(Mirrored(p));
      }
    }

    // ---------------------------------------------------------------- flushing

    method NameChild(o: nat, c: QueuedConstruct, newId: nat)
      requires Valid() && o in objInfo && At(world.objInfo[o].event, c.idx, c.vidx).Some?
      modifies `objInfo, `world, objInfo[o].ptr
      ensures Valid() && o in objInfo && objInfo[o].ptr == old(objInfo[o].ptr)
      ensures var obj := old(world).objInfo[o];
              world == old(world).(objInfo := old(world).objInfo[o := obj.(
                event := SetSlot(obj.event, c.idx, c.vidx, Some(EventInfo(Some(newId)))),
                children := obj.children[newId := {}])])
    {
      var entry := objInfo[o];
      Others(-1);
      entry.ptr.Name(c.idx, c.vidx, newId);
      Store(o, entry.(children := entry.children[newId := {}]));
    }

    method NameConstruct(ti: TargetInfo, c: QueuedConstruct)
      requires Valid() && ti.objId in objInfo && HasCursors(world)
      modifies `q, `objInfo, `objBlock, `objCursors, `procBlock, `procCursors, `world, objInfo[ti.objId].ptr
      ensures ti.objId in objInfo && objInfo[ti.objId].ptr == old(objInfo[ti.objId].ptr)
      ensures Valid() && world == ConstructOne(old(world), ti, c)
    {
      var info := objInfo[ti.objId].ptr.GetEvinfo(c.idx, c.vidx);
      assert Mirrored(ti.objId);
      if info.Some? {
        var newId := GetObjId(THREAD);
        NameChild(ti.objId, c, newId);
        Enqueue(ConstructorCall(CallerInfo(THREAD, ti.objId, ti.procId), TargetInfo(newId, NONE)));
      }
    }

    method AddProcedure(o: nat, target: nat, procId: nat, localId: nat)
      requires Valid() && o in objInfo
      modifies `objInfo, `world, objInfo[o].ptr
      ensures Valid() && o in objInfo && objInfo[o].ptr == old(objInfo[o].ptr)
      ensures var obj := old(world).objInfo[o];
              var procedures := (if target in obj.children then obj.children[target] else {}) + {procId};
              world == old(world).(objInfo := old(world).objInfo[o := obj.(
                event := Register(obj.event, procId, localId), children := obj.children[target := procedures])])
    {
      var entry := objInfo[o];
      Others(-1);
      var procedures := (if target in entry.children then entry.children[target] else {}) + {procId};
      entry.ptr.GlobalToLocal(procId, localId);
      Store(o, entry.(children := entry.children[target := procedures]));
    }

    // What a step reports: its error, or the state it leaves.
    ghost function Outcome(error: Option<Error>): Result<World, Error>
      reads `world
    {
      match error case Some(e) => Err(e) case None => Ok(world)
    }

    /** Queues one call to the object a slot names; refuses a slot whose object has no name. */
    method CallFunction(ti: TargetInfo, f: QueuedFunction) returns (error: Option<Error>)
      requires Valid() && ti.objId in objInfo && HasCursors(world)
      modifies `q, `objInfo, `objBlock, `objCursors, `procBlock, `procCursors, `world, objInfo[ti.objId].ptr
      ensures ti.objId in objInfo && objInfo[ti.objId].ptr == old(objInfo[ti.objId].ptr)
      ensures Valid() && Outcome(error) == FunctionOne(old(world), ti, f)
    {
      var info := objInfo[ti.objId].ptr.GetEvinfo(f.idx, f.vidx);
      assert Mirrored(ti.objId);
      if info.None? {
        return None;
      }
      if info.value.locator.None? {
        return Some(NotInitialized);
      }
      var target := info.value.locator.value;
      var procId := GetProcId(THREAD);
      AddProcedure(ti.objId, target, procId, f.localId);
      Enqueue(FunctionCall(f.localId, CallerInfo(THREAD, ti.objId, ti.procId), TargetInfo(target, procId)));
      error := None;
    }

    method DropChild(ti: TargetInfo, d: nat)
      requires Valid() && ti.objId in objInfo
      modifies `q, `objInfo, `world
      ensures ti.objId in objInfo && objInfo[ti.objId].ptr == old(objInfo[ti.objId].ptr)
      ensures Valid() && world == DeleteOne(old(world), ti, d)
    {
      var entry := objInfo[ti.objId];
      assert Mirrored(ti.objId);
      Enqueue(Delete(CallerInfo(THREAD, ti.objId, ti.procId), TargetInfo(d, NONE)));
      Store(ti.objId, entry.(children := entry.children - {d}));
    }

    method ProcessQueuedConstruct(ti: TargetInfo)
      requires Valid() && ti.objId in objInfo && HasCursors(world)
      modifies `q, `objInfo, `objBlock, `objCursors, `procBlock, `procCursors, `world, objInfo[ti.objId].ptr
      ensures ti.objId in objInfo && objInfo[ti.objId].ptr == old(objInfo[ti.objId].ptr)
      ensures Valid() && world == FlushConstruct(old(world), ti, old(world).objInfo[ti.objId].event.construct)
    {
      var cs := objInfo[ti.objId].ptr.construct_;
      assert Mirrored(ti.objId);
      var k := 0;
      while k < |cs|
        invariant k <= |cs| && Valid() && HasCursors(world)
        invariant ti.objId in objInfo && objInfo[ti.objId].ptr == old(objInfo[ti.objId].ptr)
        invariant FlushConstruct(world, ti, cs[k..]) == FlushConstruct(old(world), ti, cs)
      {
        assert cs[k..][0] == cs[k] && cs[k..][1..] == cs[k + 1..];
        NameConstruct(ti, cs[k]);
        k := k + 1;
      }
    }

    method ProcessQueuedFunction(ti: TargetInfo) returns (error: Option<Error>)
      requires Valid() && ti.objId in objInfo && HasCursors(world)
      modifies `q, `objInfo, `objBlock, `objCursors, `procBlock, `procCursors, `world, objInfo[ti.objId].ptr
      ensures ti.objId in objInfo && objInfo[ti.objId].ptr == old(objInfo[ti.objId].ptr)
      ensures Valid()
      ensures Outcome(error) == FlushFunction(old(world), ti, old(world).objInfo[ti.objId].event.function_)
    {
      var fs := objInfo[ti.objId].ptr.function_;
      assert Mirrored(ti.objId);
      var k := 0;
      while k < |fs|
        invariant k <= |fs| && Valid() && HasCursors(world)
        invariant ti.objId in objInfo && objInfo[ti.objId].ptr == old(objInfo[ti.objId].ptr)
        invariant FlushFunction(world, ti, fs[k..]) == FlushFunction(old(world), ti, fs)
      {
        assert fs[k..][0] == fs[k] && fs[k..][1..] == fs[k + 1..];
        error := CallFunction(ti, fs[k]);
        if error.Some? {
          return;
        }
        k := k + 1;
      }
      error := None;
    }

    method ProcessQueuedDelete(ti: TargetInfo)
      requires Valid() && ti.objId in objInfo
      modifies `q, `objInfo, `world
      ensures ti.objId in objInfo && objInfo[ti.objId].ptr == old(objInfo[ti.objId].ptr)
      ensures Valid() && world == FlushDelete(old(world), ti, old(world).objInfo[ti.objId].event.delete_)
    {
      var ds := objInfo[ti.objId].ptr.delete_;
      assert Mirrored(ti.objId);
      var k := 0;
      while k < |ds|
        invariant k <= |ds| && Valid()
        invariant ti.objId in objInfo && objInfo[ti.objId].ptr == old(objInfo[ti.objId].ptr)
        invariant FlushDelete(world, ti, ds[k..]) == FlushDelete(old(world), ti, ds)
      {
        assert ds[k..][0] == ds[k] && ds[k..][1..] == ds[k + 1..];
        DropChild(ti, ds[k]);
        k := k + 1;
      }
    }

    method ClearQueued(o: nat)
      requires Valid() && o in objInfo
      modifies `objInfo, `world, objInfo[o].ptr
      ensures Valid() && o in objInfo && objInfo[o].ptr == old(objInfo[o].ptr)
      ensures world == WithEvent(old(world), o, Clear(old(world).objInfo[o].event))
    {
      Others(-1);
      objInfo[o].ptr.ClearQueues();
      Store(o, objInfo[o]);
    }

    /** Flushes an object's queued commands and empties its queues. */
    method ProcessQueued(ti: TargetInfo) returns (error: Option<Error>)
      requires Valid() && ti.objId in objInfo && HasCursors(world)
      modifies `q, `objInfo, `objBlock, `objCursors, `procBlock, `procCursors, `world, objInfo[ti.objId].ptr
      ensures ti.objId in objInfo && objInfo[ti.objId].ptr == old(objInfo[ti.objId].ptr)
      ensures Valid() && Outcome(error) == Dispatch.ProcessQueued(old(world), ti)
    {
      ghost var w := world;
      ProcessQueuedConstruct(ti);
      ghost var c := world;
      FlushConstructQueues(w, ti, w.objInfo[ti.objId].event.construct);
      error := ProcessQueuedFunction(ti);
      if error.Some? {
        return;
      }
      ghost var v := world;
      FlushFunctionQueues(c, ti, c.objInfo[ti.objId].event.function_);
      ProcessQueuedDelete(ti);
      ghost var d := world;
      ClearQueued(ti.objId);
      ProcessQueuedIs(w, ti, c, v, d);
    }

    // ---------------------------------------------------------------- messages

    // Runs a handler of a known object.
    method RunHandler(o: nat, cmds: seq<Command>)
      requires Valid() && o in objInfo && AllAllowed(world.objInfo[o].event, cmds)
      modifies `objInfo, `world, objInfo[o].ptr
      ensures Valid() && o in objInfo && objInfo[o].ptr == old(objInfo[o].ptr)
      ensures world == WithEvent(old(world), o, PerformAll(old(world).objInfo[o].event, cmds))
    {
      Others(-1);
      objInfo[o].ptr.Obey(cmds);
      Store(o, objInfo[o]);
    }

    // Translates an event in the object that is about to receive it.
    method MapEvent(o: nat, data: EventType) returns (mapped: EventType)
      requires Valid() && o in objInfo
      modifies `objInfo, `world, objInfo[o].ptr
      ensures Valid() && o in objInfo && objInfo[o].ptr == old(objInfo[o].ptr)
      ensures world == Yielding(old(world), o, data) && mapped == MapEventData(old(world).objInfo[o].event, data).1
    {
      Others(-1);
      mapped := objInfo[o].ptr.MapEvent(data);
      Store(o, objInfo[o]);
    }

    // Enters a new object in the table.
    method Adopt(o: nat, ptr: EventObject, parent: (int, nat))
      requires Valid() && o !in objInfo && ptr.owner == o
      modifies `objInfo, `world, `repr
      ensures Valid() && o in objInfo && objInfo[o].ptr == ptr && repr == old(repr) + {ptr}
      ensures world == old(world).(objInfo := old(world).objInfo[o := ObjectData(ptr.View(), [], {parent}, map[])])
    {
      objInfo, repr := objInfo[o := Entry(ptr, [], {parent}, map[])], repr + {ptr};
      world := world.(objInfo := world.objInfo[o := Object(o)]);
      forall p | p in objInfo ensures Mirrored(p) {
        assert p != o ==> old(Mirrored(p));
      }
    }

    method ConstructCall(ci: CallerInfo, ti: TargetInfo, h: Handler) returns (error: Option<Error>)
      requires Valid() && HasCursors(world) && AllAllowed(NEW_EVENT, h.cmds)
      modifies this, repr
      ensures Valid() && Outcome(error) == Dispatch.ConstructCall(old(world), ci, ti, h)
      ensures fresh(repr - old(repr))
    {
      var ptr := new EventObject(ti.objId);
      ptr.Obey(h.cmds);
      if ti.objId !in objInfo {
        Adopt(ti.objId, ptr, (ci.threadId, ci.objId));
      }
      Note(world.(started := world.started + {ti.objId}));
      error := ProcessQueued(ti);
    }

    // Enters the procedure in its object's list and in the procedure table.
    method Begin(call: nat, ci: CallerInfo, ti: TargetInfo)
      requires Valid() && ti.objId in objInfo
      modifies `objInfo, `procToDat, `world
      ensures Valid() && ti.objId in objInfo && objInfo[ti.objId].ptr == old(objInfo[ti.objId].ptr)
      ensures world == Begun(old(world), call, ci, ti)
    {
      var entry := objInfo[ti.objId];
      assert Mirrored(ti.objId);
      Store(ti.objId, entry.(assocProcs := entry.assocProcs + [ti.procId]));
      procToDat := procToDat[ti.procId := CallData(ti.objId, Running, ci, 0, call)];
      Note(world.(procToDat := procToDat));
    }

    method SetProcedure(p: nat, dat: CallData)
      requires Valid()
      modifies `procToDat, `world
      ensures Valid() && world == old(world).(procToDat := old(world).procToDat[p := dat])
    {
      procToDat := procToDat[p := dat];
      Note(world.(procToDat := procToDat));
    }

    method FunctionCalled(call: nat, ci: CallerInfo, ti: TargetInfo, h: Handler) returns (error: Option<Error>)
      requires Valid() && HasCursors(world)
      requires ti.objId in world.objInfo ==> AllAllowed(world.objInfo[ti.objId].event, h.cmds)
      modifies `q, `objInfo, `procToDat, `objBlock, `objCursors, `procBlock, `procCursors, `world, repr
      ensures Valid() && Outcome(error) == FunctionCallStep(old(world), call, ci, ti, h)
    {
      if ti.objId !in objInfo {
        return Some(NullObject);
      }
      Begin(call, ci, ti);
      RunHandler(ti.objId, h.cmds);
      error := ProcessQueued(ti);
      if error.Some? {
        return;
      }
      Return(call, ci, ti, h);
    }

    // Records how a call returned, and tells a caller on this thread if it is done.
    method Return(call: nat, ci: CallerInfo, ti: TargetInfo, h: Handler)
      requires Valid() && ti.procId in procToDat && procToDat[ti.procId] == Started(call, ci, ti.objId)
      modifies `q, `procToDat, `world
      ensures Valid() && world == Returned(old(world), call, ci, ti, h)
    {
      var dat := procToDat[ti.procId];
      if h.ret.None? {
        SetProcedure(ti.procId, dat.(status := if h.success then Running else Degraded));
      } else {
        var (failed, code) := h.ret.value;
        dat := dat.(status := EndStatus(failed), returnCode := code);
        SetProcedure(ti.procId, dat);
        if ci.threadId == THREAD {
          Enqueue(Completion(ti, ci, dat.status, code, call));
        }
      }
    }

    method DataReceived(ti: TargetInfo, data: EventType, h: Handler)
        returns (error: Option<Error>, seen: Option<EventType>)
      requires Valid() && HasCursors(world)
      requires ti.objId in world.objInfo && ti.procId in world.procToDat ==>
                 AllAllowed(Yielding(world, ti.objId, data).objInfo[ti.objId].event, h.cmds)
      modifies `q, `objInfo, `procToDat, `objBlock, `objCursors, `procBlock, `procCursors, `world, repr
      ensures Valid() && Outcome(error) == DataStep(old(world), ti, data, h) && seen == Given(old(world), ti, data)
    {
      if ti.objId !in objInfo || ti.procId !in procToDat {
        return None, None;
      }
      var mapped := MapEvent(ti.objId, data);
      seen := Some(mapped);
      RunHandler(ti.objId, h.cmds);
      error := ProcessQueued(ti);
      if error.None? && h.ret.Some? {
        EndProcedure(ti, h);
      }
    }

    // Closes the record of a procedure whose on_yield returned, and tells its caller.
    method EndProcedure(ti: TargetInfo, h: Handler)
      requires Valid() && ti.procId in procToDat && h.ret.Some?
      modifies `q, `procToDat, `world
      ensures Valid() && world == Yielded(old(world), old(world).procToDat[ti.procId], ti, h)
    {
      var (failed, code) := h.ret.value;
      var dat := procToDat[ti.procId].(status := EndStatus(failed));
      SetProcedure(ti.procId, dat);
      Enqueue(Completion(ti, dat.backNotify, dat.status, code, dat.call));
    }

    // Queues the deletion of every child, in whatever order the table yields them.
    method DeleteChildren(ci: CallerInfo, children: set<nat>) returns (ghost order: seq<nat>)
      requires Valid()
      modifies `q, `world
      ensures Valid() && Enumerates(order, children)
      ensures world == old(world).(q := old(world).q + Deletes(ci, order))
    {
      order := [];
      var remaining := children;
      while remaining != {}
        invariant Valid() && remaining <= children && Enumerates(order, children - remaining)
        invariant world == old(world).(q := old(world).q + Deletes(ci, order))
      {
        var c :| c in remaining;
        Enqueue(Delete(ci, TargetInfo(c, NONE)));
        DeletesSnoc(ci, order, c);
        order := order + [c];
        remaining := remaining - {c};
      }
    }

    method EraseProcedures(ps: seq<nat>)
      requires Valid()
      modifies `procToDat, `world
      ensures Valid() && world == old(world).(procToDat := old(world).procToDat - (set p | p in ps))
    {
      var k := 0;
      while k < |ps|
        invariant k <= |ps| && Objects(-1) && world == old(world)
        invariant world.q == q && IdsAre(world)
        invariant procToDat == old(procToDat) - (set p | p in ps[..k])
      {
        procToDat := procToDat - {ps[k]};
        k := k + 1;
      }
      assert ps[..k] == ps;
      Note(world.(procToDat := procToDat));
    }

    method EraseObject(o: nat)
      requires Valid()
      modifies `objInfo, `world
      ensures Valid() && world == old(world).(objInfo := old(world).objInfo - {o})
    {
      objInfo := objInfo - {o};
      world := world.(objInfo := world.objInfo - {o});
      forall p | p in objInfo ensures Mirrored(p) {
        assert old(Mirrored(p));
        assert objInfo[p] == old(objInfo[p]) && world.objInfo[p] == old(world.objInfo[p]);
      }
    }

    method DeleteObject(ci: CallerInfo, o: nat) returns (ghost order: seq<nat>)
      requires Valid()
      modifies `q, `objInfo, `procToDat, `world
      ensures Valid() && (o in old(world).objInfo ==> Enumerates(order, old(world).objInfo[o].children.Keys))
      ensures world == DeleteStep(old(world), ci, o, order)
    {
      order := [];
      if o in objInfo {
        assert Mirrored(o);
        order := DeleteChildren(ci, objInfo[o].children.Keys);
        EraseProcedures(objInfo[o].assocProcs);
        EraseObject(o);
      }
    }

    // Handles one message that has left the queue.
    method Visit(m: Message, h: Handler)
        returns (error: Option<Error>, seen: Option<EventType>, ghost order: seq<nat>)
      requires Valid() && HasCursors(world)
      requires exists os :: Legal(world.(q := [m] + world.q), Dequeue(h, os))
      modifies this, repr
      ensures Valid() && fresh(repr - old(repr))
      ensures Legal(old(world).(q := [m] + old(world).q), Dequeue(h, order))
      ensures Outcome(error) == Handle(old(world), m, h, order)
      ensures seen == if m.Data? then Given(old(world), m.ti, m.data) else None
    {
      error, seen, order := None, None, [];
      match m {
        case RootStart(ti) =>
          Enqueue(ConstructorCall(NOBODY, TargetInfo(ti.objId, NONE)));
          Enqueue(FunctionCall(0, NOBODY, ti));
        case ConstructorCall(ci, ti) => error := ConstructCall(ci, ti, h);
        case FunctionCall(call, ci, ti) => error := FunctionCalled(call, ci, ti, h);
        case Delete(ci, ti) => order := DeleteObject(ci, ti.objId);
        case Data(_, ti, data, _) => error, seen := DataReceived(ti, data, h);
      }
    }

    /** Handles the oldest message; nothing happens on an empty queue. seen is what on_yield was
        given. From an orderly state no message is refused, and the state stays orderly. */
    method HandleDequeue(h: Handler)
        returns (success: bool, error: Option<Error>, seen: Option<EventType>, ghost order: seq<nat>)
      requires Valid() && HasCursors(world)
      requires exists os :: Legal(world, Dequeue(h, os))
      modifies this, repr
      ensures Valid() && fresh(repr - old(repr)) && (success <==> old(q) != [])
      ensures Legal(old(world), Dequeue(h, order)) && Outcome(error) == Step(old(world), Dequeue(h, order))
      ensures seen == Seen(old(world))
      ensures Inv(old(world)) ==> error == None && Inv(world)
    {
      success, error, seen, order := q != [], None, None, [];
      if success {
        var m := q[0];
        q := q[1..];
        assert old(world) == old(world).(q := [m] + q);
        Note(world.(q := q));
        error, seen, order := Visit(m, h);
      }
      if Inv(old(world)) {
        StepOk(old(world), Dequeue(h, order));
      }
    }

    /** Draws ids for a root object and its first procedure, and queues their start. */
    method InitializeRoot() returns (ti: TargetInfo)
      requires Valid() && HasCursors(world)
      modifies `q, `objBlock, `objCursors, `procBlock, `procCursors, `world
      ensures Valid() && Ok(world) == Step(old(world), Input.InitializeRoot)
      ensures world.q == old(world.q) + [RootStart(ti)]
    {
      var o := GetObjId(HANDLER);
      var p := GetProcId(HANDLER);
      ti := TargetInfo(o, p);
      Note(world.(roots := world.roots + {o}));
      Enqueue(RootStart(ti));
    }

    /** A completion of the kernel for a procedure. */
    method Complete(ti: TargetInfo, data: EventType)
      requires Valid() && HasCursors(world) && !data.ChildTaskCompletion?
      modifies `q, `world
      ensures Valid() && Ok(world) == Step(old(world), Completes(ti, data))
    {
      Enqueue(Data(NOBODY, ti, data, 0));
    }
  }

  lemma {:induction false} DeletesSnoc(ci: CallerInfo, os: seq<nat>, o: nat)
    ensures Deletes(ci, os + [o]) == Deletes(ci, os) + [Delete(ci, TargetInfo(o, NONE))]
  {
    if os != [] {
      assert (os + [o])[1..] == os[1..] + [o];
      DeletesSnoc(ci, os[1..], o);
    }
  }

  lemma ProcessQueuedIs(w: World, ti: TargetInfo, c: World, v: World, d: World)
    requires ti.objId in w.objInfo && HasCursors(w) && c == FlushConstruct(w, ti, w.objInfo[ti.objId].event.construct)
    requires FlushFunction(c, ti, w.objInfo[ti.objId].event.function_) == Ok(v)
    requires ti.objId in v.objInfo && d == FlushDelete(v, ti, w.objInfo[ti.objId].event.delete_)
    ensures Dispatch.ProcessQueued(w, ti) == Ok(WithEvent(d, ti.objId, Clear(d.objInfo[ti.objId].event)))
  {
  }

  // Naming constructs leaves the other queues alone, and so does queueing calls.
  lemma {:induction false} FlushConstructQueues(w: World, ti: TargetInfo, cs: seq<QueuedConstruct>)
    requires ti.objId in w.objInfo && HasCursors(w)
    ensures FlushConstruct(w, ti, cs).objInfo[ti.objId].event.function_ == w.objInfo[ti.objId].event.function_
    ensures FlushConstruct(w, ti, cs).objInfo[ti.objId].event.delete_ == w.objInfo[ti.objId].event.delete_
    decreases |cs|
  {
    if cs != [] {
      FlushConstructQueues(ConstructOne(w, ti, cs[0]), ti, cs[1..]);
    }
  }

  lemma {:induction false} FlushFunctionQueues(w: World, ti: TargetInfo, fs: seq<QueuedFunction>)
    requires ti.objId in w.objInfo && HasCursors(w) && FlushFunction(w, ti, fs).Ok?
    ensures FlushFunction(w, ti, fs).value.objInfo[ti.objId].event.delete_ == w.objInfo[ti.objId].event.delete_
    decreases |fs|
  {
    if fs != [] {
      FlushFunctionQueues(FunctionOne(w, ti, fs[0]).value, ti, fs[1..]);
    }
  }
}
