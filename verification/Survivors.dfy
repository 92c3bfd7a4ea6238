/** Which objects a cascade leaves: those that hang, by parents none of which is to be deleted, from
    the objects that survive the queue. */
module Survivors {
  import opened Dispatch
  import opened Lifetimes
  import opened DispatchLaws
  import opened DispatchRuns
  import opened Cascades

  // The objects that root starts of the queue are going to bring.
  function Starting(q: seq<Message>): set<nat> {
    if q == [] then {} else (if q[0].RootStart? then {q[0].ti.objId} else {}) + Starting(q[1..])
  }

  // The objects that are to be alive once the queue as it stands is worked off.
  function Expected(w: World): set<nat> { Final(w.q, w.objInfo.Keys) + Starting(w.q) }

  // A chain of parents and children that leads down to o.
  ghost predicate Leads(w: World, chain: seq<nat>, o: nat) {
    && chain != [] && chain[|chain| - 1] == o
    && forall i :: 0 <= i < |chain| - 1 ==> Lists(w, chain[i], chain[i + 1])
  }

  /** o, or an object above it, is not to survive. */
  ghost predicate Doomed(w: World, o: nat) {
    exists chain :: Leads(w, chain, o) && chain[0] !in Expected(w)
  }

  // ---------------------------------------------------------------- the queue

  lemma {:induction false} StartingAppend(q: seq<Message>, r: seq<Message>)
    ensures Starting(q + r) == Starting(q) + Starting(r)
    decreases |q|
  {
    if q == [] {
      assert q + r == r;
    } else {
      assert (q + r)[0] == q[0] && (q + r)[1..] == q[1..] + r;
      StartingAppend(q[1..], r);
    }
  }

  lemma {:induction false} NoStarts(r: seq<Message>)
    requires forall m :: m in r ==> !m.RootStart?
    ensures Starting(r) == {}
  {
    if r != [] {
      NoStarts(r[1..]);
    }
  }

  lemma {:induction false} StartingRoots(q: seq<Message>, roots: set<nat>)
    requires forall m :: m in q && m.RootStart? ==> m.ti.objId in roots
    ensures Starting(q) <= roots
  {
    if q != [] {
      StartingRoots(q[1..], roots);
    }
  }

  lemma {:induction false} StartingIntro(q: seq<Message>)
    ensures Starting(q) <= Intro(q)
  {
    if q != [] {
      StartingIntro(q[1..]);
    }
  }

  // What deletions and a completion do to the objects that are to be alive.
  lemma WorkedExpected(w: World, v: World, ci: CallerInfo, ds: seq<nat>, tail: seq<Message>)
    requires w.q != [] && Worked(w, v, ci, ds, tail)
    ensures Expected(v) <= Expected(w) && (ds == [] ==> Expected(v) == Expected(w))
  {
    var rest, issued := w.q[1..], w.procIds.issued;
    HeadWeighs(issued, w.q, w.objInfo.Keys);
    WorkedQueue(issued, rest, ci, ds, tail, v.objInfo.Keys);
    StartingAppend(rest + Deletes(ci, ds), tail);
    StartingAppend(rest, Deletes(ci, ds));
    DeletesOnly(ci, ds);
    NoStarts(Deletes(ci, ds));
    NoStarts(tail);
    if ds == [] {
      assert rest + Deletes(ci, ds) == rest;
      Append(issued, rest, tail, v.objInfo.Keys);
      TailWeighs(issued, tail, Final(rest, v.objInfo.Keys));
    }
  }

  lemma {:induction false} DeletesOnly(ci: CallerInfo, ds: seq<nat>)
    ensures forall m :: m in Deletes(ci, ds) ==> m.Delete?
  {
    if ds != [] {
      DeletesOnly(ci, ds[1..]);
    }
  }

  // A root start makes way for the construction of its object.
  lemma RootExpected(w: World)
    requires w.q != [] && w.q[0].RootStart?
    ensures Expected(RootStartStep(Popped(w), w.q[0].ti)) == Expected(w)
  {
    var ti, v := w.q[0].ti, RootStartStep(Popped(w), w.q[0].ti);
    var r := [ConstructorCall(NOBODY, TargetInfo(ti.objId, NONE)), FunctionCall(0, NOBODY, ti)];
    assert v.q == w.q[1..] + r;
    RootQueue(w.procIds.issued, w.q, w.objInfo.Keys, r);
    StartingAppend(w.q[1..], r);
    NoStarts(r);
  }

  // A deletion takes its object's children from those that are to be alive, and no other; the
  // object itself was not one of them.
  lemma DeleteExpected(w: World, order: seq<nat>)
    requires Inv(w) && w.q != [] && w.q[0].Delete? && w.q[0].ti.objId in w.objInfo
    requires Enumerates(order, w.objInfo[w.q[0].ti.objId].children.Keys)
    ensures var v := DeleteStep(Popped(w), w.q[0].ci, w.q[0].ti.objId, order);
            && Expected(v) <= Expected(w) && w.q[0].ti.objId !in Expected(w)
            && (forall c :: c in Expected(w) && c !in Expected(v) ==> Lists(w, w.q[0].ti.objId, c))
  {
    var o, rest, v := w.q[0].ti.objId, w.q[1..], DeleteStep(Popped(w), w.q[0].ci, w.q[0].ti.objId, order);
    assert w.q == [w.q[0]] + rest;
    assert v.objInfo.Keys == After(w.q[0], w.objInfo.Keys);
    ChildrenSurvive(w);
    PushDeletes(rest, v.objInfo.Keys, w.q[0].ci, order);
    StartingAppend(rest, Deletes(w.q[0].ci, order));
    DeletesOnly(w.q[0].ci, order);
    NoStarts(Deletes(w.q[0].ci, order));
    FinalBound(rest, v.objInfo.Keys);
    StartingIntro(rest);
  }

  lemma ChildrenSurvive(w: World)
    requires LifeOk(w) && w.q != [] && w.q[0].Delete? && w.q[0].ti.objId in w.objInfo
    ensures forall c :: c in w.objInfo[w.q[0].ti.objId].children ==> c in Final(w.q[1..], After(w.q[0], w.objInfo.Keys))
  {
    forall c | c in w.objInfo[w.q[0].ti.objId].children
      ensures c in Final(w.q[1..], After(w.q[0], w.objInfo.Keys))
    {
      assert Lists(w, w.q[0].ti.objId, c) && Owned(w, c);
    }
  }

  // ---------------------------------------------------------------- one message

  lemma DeleteSheds(w: World, order: seq<nat>)
    requires w.q != [] && w.q[0].Delete?
    ensures Sheds(w, DeleteStep(Popped(w), w.q[0].ci, w.q[0].ti.objId, order))
  {
  }

  // A handler that neither constructs nor calls gives nobody a child and saves nobody.
  lemma TameSheds(w: World, i: Input)
    requires Settled(w) && w.q != [] && Tame(w, i)
    ensures Step(w, i).Ok?
    ensures var v := Step(w, i).value; Sheds(w, v) && Expected(v) <= Expected(w)
  {
    HeadFindsObject(w);
    assert Popped(w) == w.(q := w.q[1..]);
    match w.q[0] {
      case RootStart(_) => RootExpected(w);
      case Delete(_, _) =>
        DeleteExpected(w, i.order);
        DeleteSheds(w, i.order);
      case _ =>
        var ci, ds, tail := TameWorked(w, i);
        WorkedExpected(w, Step(w, i).value, ci, ds, tail);
    }
  }

  // The parent of c is not to be alive.
  ghost predicate Unsafe(w: World, c: nat) { exists p: nat :: Lists(w, p, c) && p !in Expected(w) }

  // Only the children of a deleted object are no longer to be alive when no command is issued.
  lemma IdleExpected(w: World, i: Input, c: nat)
    requires Settled(w) && w.q != [] && Tame(w, i) && i.h.cmds == []
    ensures Step(w, i).Ok?
    ensures c in Expected(w) && c !in Expected(Step(w, i).value) ==>
              Unsafe(w, c)
  {
    HeadFindsObject(w);
    assert Popped(w) == w.(q := w.q[1..]);
    match w.q[0] {
      case RootStart(_) => RootExpected(w);
      case Delete(_, _) => DeleteExpected(w, i.order);
      case _ =>
        var ci, ds, tail := TameWorked(w, i);
        WorkedExpected(w, Step(w, i).value, ci, ds, tail);
    }
  }

  // A child that its parent no longer lists is not to be alive.
  lemma LinkCut(w: World, v: World, p: nat, c: nat)
    requires LifeOk(w) && LifeOk(v) && Sheds(w, v) && v.roots == w.roots && Lists(w, p, c) && !Lists(v, p, c)
    ensures c !in Expected(v)
  {
    assert Owned(w, c);
    StartingRoots(v.q, v.roots);
    assert forall r :: Lists(v, r, c) ==> Lists(w, r, c) && r == p;
    assert !Owned(v, c);
  }

  // What was doomed stays doomed: some end of the chain is left, below a link that was cut.
  lemma {:induction false} ChainStays(w: World, v: World, chain: seq<nat>, o: nat, k: nat)
    requires LifeOk(w) && LifeOk(v) && Sheds(w, v) && v.roots == w.roots && Expected(v) <= Expected(w)
    requires Leads(w, chain, o) && chain[0] !in Expected(w) && k < |chain| && Leads(v, chain[k..], o)
    ensures Doomed(v, o)
    decreases k
  {
    if k == 0 {
      assert chain[0..] == chain;
    } else if Lists(v, chain[k - 1], chain[k]) {
      assert chain[k - 1..] == [chain[k - 1]] + chain[k..];
      ChainStays(w, v, chain, o, k - 1);
    } else {
      LinkCut(w, v, chain[k - 1], chain[k]);
    }
  }

  lemma DoomedStays(w: World, v: World, o: nat)
    requires LifeOk(w) && LifeOk(v) && Sheds(w, v) && v.roots == w.roots && Expected(v) <= Expected(w)
    requires Doomed(w, o)
    ensures Doomed(v, o)
  {
    var chain :| Leads(w, chain, o) && chain[0] !in Expected(w);
    ChainStays(w, v, chain, o, |chain| - 1);
  }

  // And only what was doomed can be, when no command is issued.
  lemma DoomedBefore(w: World, i: Input, o: nat)
    requires Settled(w) && w.q != [] && Tame(w, i) && i.h.cmds == [] && Step(w, i).Ok? && Doomed(Step(w, i).value, o)
    ensures Doomed(w, o)
  {
    var v := Step(w, i).value;
    TameSheds(w, i);
    var chain :| Leads(v, chain, o) && chain[0] !in Expected(v);
    assert Leads(w, chain, o);
    IdleExpected(w, i, chain[0]);
    if chain[0] in Expected(w) {
      DoomedBelow(w, chain, o);
    }
  }

  lemma DoomedBelow(w: World, chain: seq<nat>, o: nat)
    requires Leads(w, chain, o) && Unsafe(w, chain[0])
    ensures Doomed(w, o)
  {
    var p: nat :| Lists(w, p, chain[0]) && p !in Expected(w);
    var longer := [p] + chain;
    assert forall k :: 1 <= k < |longer| ==> longer[k] == chain[k - 1];
    assert Leads(w, longer, o);
  }

  // With nothing left to do, the doomed are gone and nobody else.
  lemma DoomedAtEnd(w: World, o: nat)
    requires w.q == []
    ensures Doomed(w, o) <==> o !in w.objInfo
  {
    if o !in w.objInfo {
      assert Leads(w, [o], o) && [o][0] !in Expected(w);
    }
    if Doomed(w, o) {
      var chain :| Leads(w, chain, o) && chain[0] !in Expected(w);
      assert |chain| > 1 ==> Lists(w, chain[0], chain[1]);
    }
  }

  // ---------------------------------------------------------------- the whole cascade

  /** Whatever handlers that neither construct nor call do, no object survives a cascade that was to
      be deleted, or that hung from one that was. */
  lemma {:induction false} DoomedGo(w: World, choices: nat -> Input, n: nat, o: nat)
    requires Settled(w) && Doomed(w, o)
    ensures o !in Drain(w, choices, n).objInfo
    decreases Alive(w), Weight(w.procIds.issued, w.q)
  {
    if w.q == [] {
      DoomedAtEnd(w, o);
    } else {
      var i := TameInput(w, choices(n));
      TameProgress(w, i);
      TameSheds(w, i);
      DoomedStays(w, Step(w, i).value, o);
      DoomedGo(Step(w, i).value, choices, n + 1, o);
    }
  }

  // No choice issues a command; handlers may complete.
  ghost predicate Idle(choices: nat -> Input) { forall k :: choices(k).Dequeue? ==> choices(k).h.cmds == [] }

  lemma {:induction false} OnlyDoomedGo(w: World, choices: nat -> Input, n: nat, o: nat)
    requires Settled(w) && Idle(choices) && o !in Drain(w, choices, n).objInfo
    ensures Doomed(w, o)
    decreases Alive(w), Weight(w.procIds.issued, w.q)
  {
    if w.q == [] {
      DoomedAtEnd(w, o);
    } else {
      var i := TameInput(w, choices(n));
      TameProgress(w, i);
      OnlyDoomedGo(Step(w, i).value, choices, n + 1, o);
      DoomedBefore(w, i, o);
    }
  }

  /** When handlers issue no command, the objects that a cascade leaves are exactly those that are to
      be alive once the queue is worked off, with every object above them. */
  lemma SurvivesIff(w: World, choices: nat -> Input, n: nat, o: nat)
    requires Settled(w) && Idle(choices)
    ensures o in Drain(w, choices, n).objInfo <==> !Doomed(w, o)
  {
    if Doomed(w, o) {
      DoomedGo(w, choices, n, o);
    } else if o !in Drain(w, choices, n).objInfo {
      OnlyDoomedGo(w, choices, n, o);
    }
  }
}
