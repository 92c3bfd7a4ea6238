/** The dispatcher of one thread as a value: its message queue, its table of objects and its
    table of procedures, and the effect of handling one message. */
module Dispatch {
  import opened Wrappers
  import opened Events
  import Ids

  const NONE := Ids.NONE      // numeric_limits<uint64_t>::max()
  const NO_THREAD := -1
  const THREAD := 0           // the only dispatcher thread, and its id cursor
  const HANDLER := 1          // the id cursor of AsyncHandler

  datatype CallerInfo = CallerInfo(threadId: int, objId: nat, procId: nat)
  datatype TargetInfo = TargetInfo(objId: nat, procId: nat)

  const NOBODY := CallerInfo(NO_THREAD, NONE, NONE)

  datatype CallStatus = Degraded | Failed | Running | Finished

  datatype EventType =
    | IoUringResult(callingId: nat, op: int, res: int)
    | ChildTaskCompletion(callingId: nat, taskId: nat, status: CallStatus, returnCode: int)

  // call identifies the bound closure of a call: Event::c is modelled as naming the closure by
  // the local id it returns. It travels with the call and with the completions of that call.
  datatype Message =
    | RootStart(ti: TargetInfo)
    | ConstructorCall(ci: CallerInfo, ti: TargetInfo)
    | FunctionCall(call: nat, ci: CallerInfo, ti: TargetInfo)
    | Delete(ci: CallerInfo, ti: TargetInfo)
    | Data(ci: CallerInfo, ti: TargetInfo, data: EventType, call: nat)

  datatype ObjectData = ObjectData(
    event: Event,
    assocProcs: seq<nat>,
    parents: set<(int, nat)>,
    children: map<nat, set<nat>>)       // child object to the procedures called on it

  datatype CallData = CallData(
    assocObj: nat, status: CallStatus, backNotify: CallerInfo, returnCode: int, call: nat)

  datatype World = World(
    q: seq<Message>,
    objInfo: map<nat, ObjectData>,
    procToDat: map<nat, CallData>,
    objIds: Ids.Source,
    procIds: Ids.Source,
    roots: set<nat>,       // history: objects started as roots
    started: set<nat>)     // history: objects ever constructed

  datatype Error =
    | NotInitialized       // the "Object was not initialized" exception
    | NullObject           // a call through the null pointer of an unknown object

  // ---------------------------------------------------------------- flushing the commands

  function WithEvent(w: World, o: nat, e: Event): World
    requires o in w.objInfo
  {
    w.(objInfo := w.objInfo[o := w.objInfo[o].(event := e)])
  }

  function Push(w: World, m: Message): World { w.(q := w.q + [m]) }

  predicate HasCursors(w: World) {
    {THREAD, HANDLER} <= w.objIds.cursors.Keys && {THREAD, HANDLER} <= w.procIds.cursors.Keys
  }

  /** Names the object of one queued construct and queues its constructor. */
  function ConstructOne(w: World, ti: TargetInfo, c: QueuedConstruct): (r: World)
    requires ti.objId in w.objInfo && HasCursors(w)
    ensures ti.objId in r.objInfo && HasCursors(r)
  {
    var obj := w.objInfo[ti.objId];
    if At(obj.event, c.idx, c.vidx).None? then w
    else
      var (objIds, newId) := Ids.Draw(w.objIds, THREAD);
      var event := SetSlot(obj.event, c.idx, c.vidx, Some(EventInfo(Some(newId))));
      var named := w.(objIds := objIds,
                      objInfo := w.objInfo[ti.objId := obj.(event := event, children := obj.children[newId := {}])]);
      Push(named, ConstructorCall(CallerInfo(THREAD, ti.objId, ti.procId), TargetInfo(newId, NONE)))
  }

  function FlushConstruct(w: World, ti: TargetInfo, cs: seq<QueuedConstruct>): (r: World)
    requires ti.objId in w.objInfo && HasCursors(w)
    ensures ti.objId in r.objInfo && HasCursors(r)
    decreases |cs|
  {
    if cs == [] then w else FlushConstruct(ConstructOne(w, ti, cs[0]), ti, cs[1..])
  }

  /** Draws the procedure id of one queued call and queues the call to the slot's object. */
  function FunctionOne(w: World, ti: TargetInfo, f: QueuedFunction): (r: Result<World, Error>)
    requires ti.objId in w.objInfo && HasCursors(w)
    ensures r.Ok? ==> ti.objId in r.value.objInfo && HasCursors(r.value)
  {
    var obj := w.objInfo[ti.objId];
    match At(obj.event, f.idx, f.vidx)
    case None => Ok(w)
    case Some(info) =>
      if info.locator.None? then Err(NotInitialized)
      else
        var target := info.locator.value;
        var (procIds, procId) := Ids.Draw(w.procIds, THREAD);
        var procedures := (if target in obj.children then obj.children[target] else {}) + {procId};
        var called := w.(procIds := procIds,
                         objInfo := w.objInfo[ti.objId := obj.(event := Register(obj.event, procId, f.localId),
                                                               children := obj.children[target := procedures])]);
        Ok(Push(called, FunctionCall(f.localId, CallerInfo(THREAD, ti.objId, ti.procId), TargetInfo(target, procId))))
  }

  function FlushFunction(w: World, ti: TargetInfo, fs: seq<QueuedFunction>): (r: Result<World, Error>)
    requires ti.objId in w.objInfo && HasCursors(w)
    ensures r.Ok? ==> ti.objId in r.value.objInfo && HasCursors(r.value)
    decreases |fs|
  {
    if fs == [] then Ok(w)
    else
      match FunctionOne(w, ti, fs[0])
      case Err(e) => Err(e)
      case Ok(v) => FlushFunction(v, ti, fs[1..])
  }

  /** Queues one deletion and forgets the child. */
  function DeleteOne(w: World, ti: TargetInfo, d: nat): (r: World)
    requires ti.objId in w.objInfo
    ensures ti.objId in r.objInfo
  {
    var obj := w.objInfo[ti.objId];
    Push(w, Delete(CallerInfo(THREAD, ti.objId, ti.procId), TargetInfo(d, NONE)))
      .(objInfo := w.objInfo[ti.objId := obj.(children := obj.children - {d})])
  }

  function FlushDelete(w: World, ti: TargetInfo, ds: seq<nat>): (r: World)
    requires ti.objId in w.objInfo
    ensures ti.objId in r.objInfo
    decreases |ds|
  {
    if ds == [] then w else FlushDelete(DeleteOne(w, ti, ds[0]), ti, ds[1..])
  }

  /** Flushes what the handlers of an object queued: constructs, then calls, then deletes. */
  function ProcessQueued(w: World, ti: TargetInfo): (r: Result<World, Error>)
    requires ti.objId in w.objInfo && HasCursors(w)
    ensures r.Ok? ==> ti.objId in r.value.objInfo
  {
    var e := w.objInfo[ti.objId].event;
    match FlushFunction(FlushConstruct(w, ti, e.construct), ti, e.function_)
    case Err(err) => Err(err)
    case Ok(v) =>
      var d := FlushDelete(v, ti, e.delete_);
      Ok(WithEvent(d, ti.objId, Clear(d.objInfo[ti.objId].event)))
  }

  // ---------------------------------------------------------------- messages

  // What running a constructor, a function or on_yield amounts to: the commands it issues, and
  // for the latter two the status and the return value. ret is (failed, code).
  datatype Handler = Handler(cmds: seq<Command>, success: bool, ret: Option<(bool, int)>)

  function ConstructCall(w: World, ci: CallerInfo, ti: TargetInfo, h: Handler): Result<World, Error>
    requires HasCursors(w) && AllAllowed(NEW_EVENT, h.cmds)
  {
    var built := ObjectData(PerformAll(NEW_EVENT, h.cmds), [], {(ci.threadId, ci.objId)}, map[]);
    var objInfo := if ti.objId in w.objInfo then w.objInfo else w.objInfo[ti.objId := built];
    ProcessQueued(w.(objInfo := objInfo, started := w.started + {ti.objId}), ti)
  }

  // The record of a procedure when its call starts, and the caller's view of what it returned.
  function Started(call: nat, ci: CallerInfo, o: nat): CallData {
    CallData(o, Running, ci, 0, call)
  }

  function Completion(ti: TargetInfo, back: CallerInfo, status: CallStatus, code: int, call: nat): Message {
    Data(CallerInfo(THREAD, ti.objId, ti.procId), TargetInfo(back.objId, back.procId),
         ChildTaskCompletion(back.procId, ti.procId, status, code), call)
  }

  function EndStatus(failed: bool): CallStatus { if failed then Failed else Finished }

  // Runs a handler on a known object.
  function RunHandler(w: World, o: nat, h: Handler): (r: World)
    requires o in w.objInfo && AllAllowed(w.objInfo[o].event, h.cmds)
    ensures o in r.objInfo
  {
    WithEvent(w, o, PerformAll(w.objInfo[o].event, h.cmds))
  }

  // A call is entered with its object and its caller.
  function Begun(w: World, call: nat, ci: CallerInfo, ti: TargetInfo): (r: World)
    requires ti.objId in w.objInfo
    ensures ti.objId in r.objInfo && r.objInfo[ti.objId].event == w.objInfo[ti.objId].event
  {
    var obj := w.objInfo[ti.objId];
    w.(objInfo := w.objInfo[ti.objId := obj.(assocProcs := obj.assocProcs + [ti.procId])],
       procToDat := w.procToDat[ti.procId := Started(call, ci, ti.objId)])
  }

  // After the function has run: its record, and the completion if it returned at once.
  function Returned(v: World, call: nat, ci: CallerInfo, ti: TargetInfo, h: Handler): World {
    match h.ret
    case None =>
      var status := if h.success then Running else Degraded;
      v.(procToDat := v.procToDat[ti.procId := Started(call, ci, ti.objId).(status := status)])
    case Some((failed, code)) =>
      var done := v.(procToDat := v.procToDat[ti.procId := Started(call, ci, ti.objId)
                                                            .(status := EndStatus(failed), returnCode := code)]);
      if ci.threadId == THREAD then Push(done, Completion(ti, ci, EndStatus(failed), code, call)) else done
  }

  function FunctionCallStep(w: World, call: nat, ci: CallerInfo, ti: TargetInfo, h: Handler): Result<World, Error>
    requires HasCursors(w) && (ti.objId in w.objInfo ==> AllAllowed(w.objInfo[ti.objId].event, h.cmds))
  {
    if ti.objId !in w.objInfo then Err(NullObject)
    else
      match ProcessQueued(RunHandler(Begun(w, call, ci, ti), ti.objId, h), ti)
      case Err(err) => Err(err)
      case Ok(v) => Ok(Returned(v, call, ci, ti, h))
  }

  /** Replaces the ids of an event by the local ones; an unknown id is entered as local id 0. */
  function MapEventData(e: Event, data: EventType): (Event, EventType) {
    match data
    case ChildTaskCompletion(c, task, status, code) =>
      if task in e.globalToLocal then (e, ChildTaskCompletion(c, e.globalToLocal[task], status, code))
      else (e.(globalToLocal := e.globalToLocal[task := 0]), ChildTaskCompletion(c, 0, status, code))
    case _ => (e, data)
  }

  // The event that on_yield is given for a procedure, unless it or its object is unknown.
  function Given(w: World, ti: TargetInfo, data: EventType): Option<EventType> {
    if ti.objId in w.objInfo && ti.procId in w.procToDat then
      Some(MapEventData(w.objInfo[ti.objId].event, data).1)
    else None
  }

  // The object as on_yield finds it.
  function Yielding(w: World, o: nat, data: EventType): (r: World)
    requires o in w.objInfo
    ensures o in r.objInfo
  {
    WithEvent(w, o, MapEventData(w.objInfo[o].event, data).0)
  }

  // After on_yield of the procedure recorded as p: its status, and the completion if there is one.
  function Yielded(v: World, p: CallData, ti: TargetInfo, h: Handler): World {
    match h.ret
    case None => v
    case Some((failed, code)) =>
      var ended := p.(status := EndStatus(failed));
      Push(v.(procToDat := v.procToDat[ti.procId := ended]),
           Completion(ti, ended.backNotify, ended.status, code, ended.call))
  }

  function DataStep(w: World, ti: TargetInfo, data: EventType, h: Handler): Result<World, Error>
    requires HasCursors(w)
    requires ti.objId in w.objInfo && ti.procId in w.procToDat ==>
               AllAllowed(Yielding(w, ti.objId, data).objInfo[ti.objId].event, h.cmds)
  {
    if ti.objId !in w.objInfo || ti.procId !in w.procToDat then Ok(w)
    else
      match ProcessQueued(RunHandler(Yielding(w, ti.objId, data), ti.objId, h), ti)
      case Err(err) => Err(err)
      case Ok(v) => Ok(Yielded(v, w.procToDat[ti.procId], ti, h))
  }

  // Delete messages for the given objects, on behalf of the original caller.
  function Deletes(ci: CallerInfo, os: seq<nat>): seq<Message> {
    if os == [] then [] else [Delete(ci, TargetInfo(os[0], NONE))] + Deletes(ci, os[1..])
  }

  // The order in which an unordered map of children is met.
  ghost predicate Enumerates(os: seq<nat>, s: set<nat>) {
    (forall o :: o in os <==> o in s) && (forall i, j :: 0 <= i < j < |os| ==> os[i] != os[j])
  }

  function DeleteStep(w: World, ci: CallerInfo, o: nat, order: seq<nat>): World {
    if o !in w.objInfo then w
    else
      w.(q := w.q + Deletes(ci, order),
         procToDat := w.procToDat - (set p | p in w.objInfo[o].assocProcs),
         objInfo := w.objInfo - {o})
  }

  function RootStartStep(w: World, ti: TargetInfo): World {
    Push(Push(w, ConstructorCall(NOBODY, TargetInfo(ti.objId, NONE))), FunctionCall(0, NOBODY, ti))
  }

  // What handling the oldest message gives an on_yield.
  function Seen(w: World): Option<EventType> {
    if w.q != [] && w.q[0].Data? then Given(w, w.q[0].ti, w.q[0].data) else None
  }

  // ---------------------------------------------------------------- steps

  datatype Input =
    | Dequeue(h: Handler, order: seq<nat>)      // handle the oldest message
    | InitializeRoot                            // the program starts a root event
    | Completes(ti: TargetInfo, data: EventType) // the kernel completes an operation

  // What the program and the kernel may do next.
  ghost predicate Legal(w: World, i: Input) {
    match i
    case InitializeRoot => true
    case Completes(_, data) => !data.ChildTaskCompletion?
    case Dequeue(h, order) =>
      w.q != [] ==>
        match w.q[0]
        case RootStart(_) => true
        case ConstructorCall(_, _) => AllAllowed(NEW_EVENT, h.cmds)
        case FunctionCall(_, _, ti) => ti.objId in w.objInfo ==> AllAllowed(w.objInfo[ti.objId].event, h.cmds)
        case Delete(_, ti) => ti.objId in w.objInfo ==> Enumerates(order, w.objInfo[ti.objId].children.Keys)
        case Data(_, ti, data, _) =>
          ti.objId in w.objInfo && ti.procId in w.procToDat ==>
            && AllAllowed(Yielding(w, ti.objId, data).objInfo[ti.objId].event, h.cmds)
            // root procedures do not complete
            && (w.procToDat[ti.procId].backNotify.threadId == NO_THREAD ==> h.ret.None?)
  }

  ghost function Handle(w: World, m: Message, h: Handler, order: seq<nat>): Result<World, Error>
    requires HasCursors(w) && Legal(w.(q := [m] + w.q), Dequeue(h, order))
  {
    assert ([m] + w.q)[0] == m;
    match m
    case RootStart(ti) => Ok(RootStartStep(w, ti))
    case ConstructorCall(ci, ti) => ConstructCall(w, ci, ti, h)
    case FunctionCall(call, ci, ti) => FunctionCallStep(w, call, ci, ti, h)
    case Delete(ci, ti) => Ok(DeleteStep(w, ci, ti.objId, order))
    case Data(_, ti, data, _) => DataStep(w, ti, data, h)
  }

  ghost function Step(w: World, i: Input): Result<World, Error>
    requires HasCursors(w) && Legal(w, i)
  {
    match i
    case InitializeRoot =>
      var (objIds, o) := Ids.Draw(w.objIds, HANDLER);
      var (procIds, p) := Ids.Draw(w.procIds, HANDLER);
      Ok(Push(w.(objIds := objIds, procIds := procIds, roots := w.roots + {o}), RootStart(TargetInfo(o, p))))
    case Completes(ti, data) => Ok(Push(w, Data(NOBODY, ti, data, 0)))
    case Dequeue(h, order) =>
      if w.q == [] then Ok(w)
      else
        assert w == w.(q := [w.q[0]] + w.q[1..]);
        Handle(w.(q := w.q[1..]), w.q[0], h, order)
  }
}
