/** The dispatcher over whole runs: object lifetimes and ownership. */
module DispatchRuns {
  import opened Wrappers
  import opened Dispatch
  import opened Lifetimes
  import opened DispatchLaws
  import Ids

  // ---------------------------------------------------------------- runs

  function Initial(): World {
    World([], map[], map[], Ids.Start({THREAD, HANDLER}), Ids.Start({THREAD, HANDLER}), {}, {})
  }

  lemma InitialOk()
    ensures Inv(Initial())
  {
    Ids.StartOk({THREAD, HANDLER});
    var w := Initial();
    assert forall p, c :: !Lists(w, p, c);
    assert forall c :: !Owned(w, c);
  }

  // The oldest message finds its object, whatever the message is.
  lemma HeadFindsObject(w: World)
    requires Inv(w) && w.q != []
    ensures w.q[0].FunctionCall? || w.q[0].Delete? ==> w.q[0].ti.objId in w.objInfo
    ensures w.q[0].ConstructorCall? ==> w.q[0].ti.objId !in w.objInfo
  {
    assert w.q == [w.q[0]] + w.q[1..];
  }

  /** Whatever the handlers do within their rights, a step succeeds and keeps everything in order. */
  lemma StepOk(w: World, i: Input)
    requires Inv(w) && Legal(w, i)
    ensures Step(w, i).Ok? && Inv(Step(w, i).value)
  {
    match i
    case InitializeRoot => InitializeRootOk(w);
    case Completes(ti, data) => PushDataOk(w, Data(NOBODY, ti, data, 0));
    case Dequeue(h, order) =>
      if w.q != [] {
        HeadFindsObject(w);
        assert Popped(w) == w.(q := w.q[1..]);
        match w.q[0] {
          case RootStart(_) => RootStepOk(w);
          case ConstructorCall(_, _) => ConstructStepOk(w, h);
          case FunctionCall(_, _, _) => FunctionStepOk(w, h);
          case Delete(_, _) => DeleteStepOk(w, order);
          case Data(_, _, _, _) => DataStepOk(w, h, order);
        }
      }
  }

  // A run whose every step the program and the kernel are entitled to.
  ghost predicate LegalRun(w: World, inputs: seq<Input>)
    decreases |inputs|
  {
    inputs != [] ==>
      HasCursors(w) && Legal(w, inputs[0]) && (Step(w, inputs[0]).Ok? ==> LegalRun(Step(w, inputs[0]).value, inputs[1..]))
  }

  ghost function Run(w: World, inputs: seq<Input>): Result<World, Error>
    requires LegalRun(w, inputs)
    decreases |inputs|
  {
    if inputs == [] then Ok(w)
    else
      match Step(w, inputs[0])
      case Err(e) => Err(e)
      case Ok(v) => Run(v, inputs[1..])
  }

  lemma {:induction false} RunOk(w: World, inputs: seq<Input>)
    requires Inv(w) && LegalRun(w, inputs)
    ensures Run(w, inputs).Ok? && Inv(Run(w, inputs).value)
    decreases |inputs|
  {
    if inputs != [] {
      StepOk(w, inputs[0]);
      RunOk(Step(w, inputs[0]).value, inputs[1..]);
    }
  }

  /** Lifetime safety: no run throws or calls through a null object, and wherever it ends the
      next call or deletion finds its object constructed and not deleted. */
  lemma LifetimeSafety(inputs: seq<Input>)
    requires LegalRun(Initial(), inputs)
    ensures Run(Initial(), inputs).Ok?
    ensures var w := Run(Initial(), inputs).value;
            w.q != [] && (w.q[0].FunctionCall? || w.q[0].Delete?) ==> w.q[0].ti.objId in w.objInfo
  {
    InitialOk();
    RunOk(Initial(), inputs);
    var w := Run(Initial(), inputs).value;
    if w.q != [] {
      HeadFindsObject(w);
    }
  }

  // ---------------------------------------------------------------- ownership

  /** Ownership: an object that is not a root is listed by exactly one live parent while no
      deletion of it is queued, or by none while exactly one is. */
  lemma OwnedOrDeleted(w: World, o: nat)
    requires Inv(w) && (o in w.objInfo || o in Intro(w.q)) && o !in w.roots
    ensures Owned(w, o) <==> Count(w.q, o) == 0
    ensures !Owned(w, o) <==> Count(w.q, o) == 1
    ensures forall p, r :: Lists(w, p, o) && Lists(w, r, o) ==> p == r
  {
    CountIs(w.q, w.objInfo.Keys, o);
  }

  /** With an empty queue nothing is orphaned: from every object a chain of live parents leads
      up to a root. */
  lemma {:induction false} NoOrphans(w: World, o: nat) returns (chain: seq<nat>)
    requires Inv(w) && w.q == [] && o in w.objInfo
    ensures chain != [] && chain[|chain| - 1] == o && chain[0] in w.roots
    ensures forall c :: c in chain ==> c in w.objInfo
    ensures forall i :: 0 <= i < |chain| - 1 ==> Lists(w, chain[i], chain[i + 1])
    decreases Position(w.objIds.issued, o)
  {
    chain := [o];
    if o !in w.roots {
      assert Owned(w, o);
      var p :| Lists(w, p, o);
      assert o in w.started && p in w.started;
      PositionOrder(w.objIds.issued, p, o);
      var up := NoOrphans(w, p);
      chain := up + [o];
    }
  }

  function Position(s: seq<nat>, o: nat): nat {
    if s == [] || s[0] == o then 0 else 1 + Position(s[1..], o)
  }

  lemma {:induction false} PositionIs(s: seq<nat>, i: nat)
    requires i < |s| && forall j, k :: 0 <= j < k < |s| ==> s[j] != s[k]
    ensures Position(s, s[i]) == i
  {
    if i > 0 {
      assert s[0] != s[i];
      PositionIs(s[1..], i - 1);
    }
  }

  lemma PositionOrder(s: seq<nat>, p: nat, c: nat)
    requires Precedes(s, p, c) && forall j, k :: 0 <= j < k < |s| ==> s[j] != s[k]
    ensures Position(s, p) < Position(s, c)
  {
    var i, j :| 0 <= i < j < |s| && s[i] == p && s[j] == c;
    PositionIs(s, i);
    PositionIs(s, j);
  }
}
