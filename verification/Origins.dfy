/** Where objects come from: every object is recorded with the one that constructed it, which is the
    one that lists it, and every root with nobody. */
module Origins {
  import opened Wrappers
  import opened Events
  import opened Dispatch
  import opened Lifetimes
  import opened DispatchLaws
  import opened DispatchRuns
  import opened FlushLaws
  import opened Homes
  import opened Handlers
  import opened QueueOrder
  import opened Roots

  // Object o was constructed for this thread and object: a root for none, and another object for the
  // one that lists it, if any still does.
  ghost predicate MadeFor(w: World, o: nat, origin: (int, nat)) {
    if o in w.roots then origin == (NO_THREAD, NONE)
    else origin.0 == THREAD && forall r :: Lists(w, r, o) ==> r == origin.1
  }

  ghost predicate Traced(w: World, o: nat) {
    o in w.objInfo ==> exists origin :: w.objInfo[o].parents == {origin} && MadeFor(w, o, origin)
  }

  ghost predicate Named(w: World, m: Message) {
    m.ConstructorCall? ==> MadeFor(w, m.ti.objId, (m.ci.threadId, m.ci.objId))
  }

  ghost predicate OriginsOk(w: World) {
    && (forall o {:trigger Traced(w, o)} :: o in w.objInfo ==> Traced(w, o))
    && (forall m {:trigger Named(w, m)} :: m in w.q ==> Named(w, m))
  }

  lemma MadeForKept(w: World, v: World, o: nat, origin: (int, nat))
    requires MadeFor(w, o, origin) && Keeps(w, v) && o in w.objIds.issued
    ensures MadeFor(v, o, origin)
  {
  }

  lemma Known(w: World, o: nat)
    requires LifeOk(w) && (o in w.objInfo || o in Intro(w.q))
    ensures o in w.objIds.issued
  {
  }

  // The objects that a step leaves.
  lemma ObjectsTraced(w: World, i: Input, v: World, o: nat)
    requires Inv(w) && OriginsOk(w) && Keeps(w, v) && Alive(w, i, v) && o in v.objInfo
    ensures Traced(v, o)
  {
    if o in w.objInfo {
      assert Traced(w, o);
      var origin :| w.objInfo[o].parents == {origin} && MadeFor(w, o, origin);
      Known(w, o);
      MadeForKept(w, v, o, origin);
    } else {
      assert w.q[0] in w.q && Named(w, w.q[0]);
      IntroHas(w.q, w.q[0]);
      Known(w, o);
      MadeForKept(w, v, o, (w.q[0].ci.threadId, w.q[0].ci.objId));
    }
  }

  // The constructors that were queued before.
  lemma OldNamed(w: World, v: World, m: Message)
    requires Inv(w) && OriginsOk(w) && Keeps(w, v) && m in w.q
    ensures Named(v, m)
  {
    assert Named(w, m);
    if m.ConstructorCall? {
      IntroHas(w.q, m);
      Known(w, m.ti.objId);
      MadeForKept(w, v, m.ti.objId, (m.ci.threadId, m.ci.objId));
    }
  }

  // A handler's new objects are children of its object.
  lemma NewNamed(w: World, v: World, h: Handler,
                 cs: seq<Message>, fs: seq<Message>, ds: seq<nat>, tail: seq<Message>, m: Message)
    requires Inv(w) && Inv(v) && Keeps(w, v) && Runs(w) && AllAllowed(Found(w), h.cmds)
    requires Carried(w, v, h, cs, fs, ds, tail) && m in cs
    ensures Named(v, m)
  {
    var i :| 0 <= i < |cs| && cs[i] == m;
    assert Targets(cs)[i] == m.ti.objId;
    assert Lists(v, w.q[0].ti.objId, m.ti.objId) && Owned(v, m.ti.objId);
  }

  lemma HandlerNamed(w: World, v: World, h: Handler)
    requires Inv(w) && OriginsOk(w) && Inv(v) && Keeps(w, v) && Runs(w) && Legal(w, Dequeue(h, []))
    requires Step(w, Dequeue(h, [])) == Ok(v)
    ensures forall m :: m in v.q ==> Named(v, m)
  {
    var cs, fs, ds, tail := HandlerCarriedOut(w, h);
    Constructed(w.q[1..], cs, fs, Sender(w.q[0].ti), ds, tail);
    assert forall m :: m in w.q[1..] ==> m in w.q;
    forall m | m in v.q && m.ConstructorCall? ensures Named(v, m) {
      if m in cs {
        NewNamed(w, v, h, cs, fs, ds, tail, m);
      } else {
        OldNamed(w, v, m);
      }
    }
  }

  lemma Constructed(q: seq<Message>, cs: seq<Message>, fs: seq<Message>, ci: CallerInfo, ds: seq<nat>, tail: seq<Message>)
    requires Calls(fs, ci) && forall m :: m in tail ==> m.Data?
    ensures forall m :: m in q + cs + fs + Deletes(ci, ds) + tail && m.ConstructorCall? ==> m in q || m in cs
  {
    DeleteMessages(q + cs + fs, ci, ds);
  }

  // Every other step adds constructors of roots at most.
  lemma OthersNamed(w: World, i: Input, v: World, added: seq<Message>)
    requires Inv(w) && OriginsOk(w) && Keeps(w, v) && !(i.Dequeue? && Runs(w))
    requires v.q == Rest(w, i) + added && Adds(w, i, added)
    ensures forall m :: m in v.q ==> Named(v, m)
  {
    forall m | m in v.q ensures Named(v, m) {
      if m in w.q {
        OldNamed(w, v, m);
      } else {
        assert m in added;
        if m.ConstructorCall? {
          assert w.q[0] in w.q && w.q[0].RootStart? && m == added[0];
        }
      }
    }
  }

  lemma StepOrigins(w: World, i: Input)
    requires Housed(w) && OriginsOk(w) && Legal(w, i)
    ensures Step(w, i).Ok? && OriginsOk(Step(w, i).value)
  {
    StepOk(w, i);
    StepKeeps(w, i);
    var v := Step(w, i).value;
    forall o | o in v.objInfo ensures Traced(v, o) { ObjectsTraced(w, i, v, o); }
    if i.Dequeue? && Runs(w) {
      HandlerNamed(w, v, i.h);
    } else {
      var added := StepAdds(w, i);
      OthersNamed(w, i, v, added);
    }
  }

  lemma {:induction false} RunOrigins(w: World, inputs: seq<Input>)
    requires Housed(w) && OriginsOk(w) && LegalRun(w, inputs) && FaithfulRun(w, inputs)
    ensures Run(w, inputs).Ok? && OriginsOk(Run(w, inputs).value)
    decreases |inputs|
  {
    if inputs != [] {
      StepOrigins(w, inputs[0]);
      StepHomes(w, inputs[0]);
      RunOrigins(Step(w, inputs[0]).value, inputs[1..]);
    }
  }

  /** Wherever a run leads, an object is recorded with one parent: a root with nobody, and any other
      object with the one that lists it, if it is listed. */
  lemma OneOrigin(inputs: seq<Input>, o: nat)
    requires LegalRun(Initial(), inputs) && FaithfulRun(Initial(), inputs)
    ensures Run(Initial(), inputs).Ok?
    ensures var w := Run(Initial(), inputs).value;
            && (o in w.objInfo && o in w.roots ==> w.objInfo[o].parents == {(NO_THREAD, NONE)})
            && (forall p: nat :: o in w.objInfo && Lists(w, p, o) ==> w.objInfo[o].parents == {(THREAD, p)})
  {
    InitialHoused();
    RunOrigins(Initial(), inputs);
    RunHoused(Initial(), inputs);
    OriginIs(Run(Initial(), inputs).value, o);
  }

  lemma OriginIs(w: World, o: nat)
    requires LifeOk(w) && OriginsOk(w)
    ensures o in w.objInfo && o in w.roots ==> w.objInfo[o].parents == {(NO_THREAD, NONE)}
    ensures forall p: nat :: o in w.objInfo && Lists(w, p, o) ==> w.objInfo[o].parents == {(THREAD, p)}
  {
    assert o in w.objInfo ==> Traced(w, o);
    forall p: nat | Lists(w, p, o) ensures Owned(w, o) {}
  }
}
