/** The queue over whole runs: messages are handled in the order in which they came, and what the
    kernel completes reaches on_yield as it is. */
module QueueOrder {
  import opened Wrappers
  import opened Events
  import opened Dispatch
  import opened Lifetimes
  import opened DispatchLaws
  import opened DispatchRuns
  import opened FlushLaws
  import opened Handlers
  import Ids

  // The queue without the message that a step takes.
  function Rest(w: World, i: Input): seq<Message> { if i.Dequeue? && w.q != [] then w.q[1..] else w.q }

  // Deletions in the name of ci, of the objects os in order.
  ghost predicate DeletionsOf(ms: seq<Message>, ci: CallerInfo, os: seq<nat>) {
    |ms| == |os| && forall k :: 0 <= k < |ms| ==> ms[k].Delete? && ms[k].ci == ci && ms[k].ti.objId == os[k]
  }

  lemma {:induction false} DeletesAre(ci: CallerInfo, os: seq<nat>)
    ensures DeletionsOf(Deletes(ci, os), ci, os)
  {
    if os != [] {
      DeletesAre(ci, os[1..]);
    }
  }

  // A root is started by constructing it and then calling its first procedure, both for nobody.
  predicate StartsRoot(ms: seq<Message>, ti: TargetInfo) {
    && |ms| == 2 && ms[0].ConstructorCall? && ms[0].ti.objId == ti.objId && ms[0].ti.procId == NONE
    && ms[1].FunctionCall? && ms[1].ti == ti && ms[0].ci == ms[1].ci == CallerInfo(-1, NONE, NONE)
  }

  // What a step adds to the queue, when it runs no handler.
  ghost predicate Adds(w: World, i: Input, added: seq<Message>) {
    match i
    case InitializeRoot =>
      && |added| == 1 && added[0].RootStart?
      && added[0].ti.objId !in w.objIds.issued && added[0].ti.procId !in w.procIds.issued
    case Completes(ti, data) => |added| == 1 && added[0].Data? && added[0].ti == ti && added[0].data == data
    case Dequeue(h, order) =>
      && (w.q == [] ==> added == [])
      && (w.q != [] && w.q[0].RootStart? ==> StartsRoot(added, w.q[0].ti))
      && (w.q != [] && w.q[0].Delete? ==> DeletionsOf(added, w.q[0].ci, order))
      && (w.q != [] && w.q[0].Data? && !Awaited(w) ==> added == [])
  }

  lemma RootAdds(u: World, ti: TargetInfo)
    ensures StartsRoot(RootStartStep(u, ti).q[|u.q|..], ti) && u.q <= RootStartStep(u, ti).q
  {
  }

  lemma HandlerAdds(w: World, h: Handler) returns (added: seq<Message>)
    requires Inv(w) && Runs(w) && Legal(w, Dequeue(h, []))
    ensures Step(w, Dequeue(h, [])).Ok? && Step(w, Dequeue(h, [])).value.q == w.q[1..] + added
  {
    var cs, fs, ds, tail := HandlerCarriedOut(w, h);
    added := cs + fs + Deletes(Sender(w.q[0].ti), ds) + tail;
    Joined(w.q[1..], cs, fs, Deletes(Sender(w.q[0].ti), ds), tail);
  }

  lemma Joined(q: seq<Message>, a: seq<Message>, b: seq<Message>, c: seq<Message>, d: seq<Message>)
    ensures q + a + b + c + d == q + (a + b + c + d)
  {
  }

  lemma InitializeAdds(w: World) returns (ti: TargetInfo)
    requires SourcesOk(w)
    ensures Step(w, InitializeRoot).Ok? && Step(w, InitializeRoot).value.q == w.q + [RootStart(ti)]
    ensures ti.objId !in w.objIds.issued && ti.procId !in w.procIds.issued
  {
    Ids.DrawFresh(w.objIds, HANDLER);
    Ids.DrawFresh(w.procIds, HANDLER);
    ti := TargetInfo(Ids.Draw(w.objIds, HANDLER).1, Ids.Draw(w.procIds, HANDLER).1);
  }

  /** Every step takes at most the head of the queue and adds at its end; nothing else moves. */
  lemma StepAdds(w: World, i: Input) returns (added: seq<Message>)
    requires Inv(w) && Legal(w, i)
    ensures Step(w, i).Ok? && Step(w, i).value.q == Rest(w, i) + added && Adds(w, i, added)
  {
    StepOk(w, i);
    added := [];
    match i
    case InitializeRoot =>
      var ti := InitializeAdds(w);
      added := [RootStart(ti)];
    case Completes(ti, data) => added := [Data(NOBODY, ti, data, 0)];
    case Dequeue(h, order) =>
      if w.q != [] {
        added := DequeueAdds(w, h, order);
      }
  }

  lemma DequeueAdds(w: World, h: Handler, order: seq<nat>) returns (added: seq<Message>)
    requires Inv(w) && w.q != [] && Legal(w, Dequeue(h, order))
    ensures Step(w, Dequeue(h, order)).Ok?
    ensures Step(w, Dequeue(h, order)).value.q == w.q[1..] + added && Adds(w, Dequeue(h, order), added)
  {
    StepOk(w, Dequeue(h, order));
    HeadFindsObject(w);
    assert Popped(w) == w.(q := w.q[1..]);
    added := [];
    if Runs(w) {
      added := HandlerAdds(w, h);
    } else {
      match w.q[0] {
        case RootStart(ti) =>
          RootAdds(Popped(w), ti);
          added := RootStartStep(Popped(w), ti).q[|w.q| - 1..];
        case Delete(ci, _) =>
          DeletesAre(ci, order);
          added := Deletes(ci, order);
        case Data(_, _, _, _) =>
      }
    }
  }

  // ---------------------------------------------------------------- runs

  function Dequeues(inputs: seq<Input>): nat {
    if inputs == [] then 0 else (if inputs[0].Dequeue? then 1 else 0) + Dequeues(inputs[1..])
  }

  // What is left of the queue after one step and n more dequeues.
  lemma RestComes(w: World, i: Input, v: World, n: nat, q: seq<Message>)
    requires Rest(w, i) <= v.q && n <= |Rest(w, i)| && v.q[n..] <= q && (i.Dequeue? ==> w.q != [])
    ensures w.q[n + (if i.Dequeue? then 1 else 0)..] <= q
  {
    var left := w.q[n + (if i.Dequeue? then 1 else 0)..];
    assert left == Rest(w, i)[n..];
    assert v.q[n..] == left + v.q[|Rest(w, i)|..];
  }

  lemma StepInOrder(w: World, i: Input)
    requires Inv(w) && Legal(w, i)
    ensures Step(w, i).Ok? && Inv(Step(w, i).value) && Rest(w, i) <= Step(w, i).value.q
  {
    var added := StepAdds(w, i);
    StepOk(w, i);
  }

  /** Over every run the queue is worked off in order: what is left of it comes first. */
  lemma {:induction false} RunInOrder(w: World, inputs: seq<Input>)
    requires Inv(w) && LegalRun(w, inputs) && Dequeues(inputs) <= |w.q|
    ensures Run(w, inputs).Ok? && Inv(Run(w, inputs).value) && w.q[Dequeues(inputs)..] <= Run(w, inputs).value.q
    decreases |inputs|
  {
    if inputs != [] {
      StepInOrder(w, inputs[0]);
      var v := Step(w, inputs[0]).value;
      RunInOrder(v, inputs[1..]);
      RestComes(w, inputs[0], v, Dequeues(inputs[1..]), Run(v, inputs[1..]).value.q);
    }
  }

  /** What an on_yield is given for the oldest completion: what the kernel completed as it is, and
      of a child's completion only the task id changed, to the local id of its call. */
  lemma GivenIs(w: World)
    requires Inv(w) && w.q != [] && w.q[0].Data?
    ensures Seen(w).Some? <==> Awaited(w)
    ensures Awaited(w) && !w.q[0].data.ChildTaskCompletion? ==> Seen(w) == Some(w.q[0].data)
    ensures Awaited(w) && w.q[0].data.ChildTaskCompletion? ==> Seen(w) == Some(w.q[0].data.(taskId := w.q[0].call))
  {
    if Awaited(w) && w.q[0].data.ChildTaskCompletion? {
      TaskIdRoundTrip(w, w.q[0].ti, w.q[0].ci, w.q[0].data, w.q[0].call);
    }
  }

  /** Delivery: whatever the kernel completes comes to the head of the queue once everything before
      it has been handled, whatever else happens meanwhile, and on_yield is given just that. */
  lemma CompletionArrives(w: World, ti: TargetInfo, data: EventType, inputs: seq<Input>)
    requires Inv(w) && Legal(w, Completes(ti, data))
    requires LegalRun(Step(w, Completes(ti, data)).value, inputs) && Dequeues(inputs) == |w.q|
    ensures Run(Step(w, Completes(ti, data)).value, inputs).Ok?
    ensures var v := Run(Step(w, Completes(ti, data)).value, inputs).value;
            && v.q != [] && v.q[0].Data? && v.q[0].ti == ti && v.q[0].data == data
            && Seen(v) == if ti.objId in v.objInfo && ti.procId in v.procToDat then Some(data) else None
  {
    var u := Step(w, Completes(ti, data)).value;
    var added := StepAdds(w, Completes(ti, data));
    StepOk(w, Completes(ti, data));
    RunInOrder(u, inputs);
    assert u.q[|w.q|..] == added;
    GivenIs(Run(u, inputs).value);
  }

  /** An id that the object does not know is seen as local id 0, and is known as that from then on;
      an object that knows the id does not change. */
  lemma UnknownTask(e: Event, data: EventType)
    requires data.ChildTaskCompletion?
    ensures var (f, seen) := MapEventData(e, data);
            && seen == data.(taskId := if data.taskId in e.globalToLocal then e.globalToLocal[data.taskId] else 0)
            && MapEventData(f, data) == (f, seen) && (f == e <==> data.taskId in e.globalToLocal)
            && forall g :: g != data.taskId ==> (g in f.globalToLocal <==> g in e.globalToLocal)
  {
    if data.taskId !in e.globalToLocal {
      assert data.taskId in MapEventData(e, data).0.globalToLocal;
    }
  }
}
