/** Safety of the reconcile loop over whole runs and sequences of runs, with other writers and failing calls. */
module ReconcileSafety {
  import opened Types
  import opened Store
  import opened ReconcileLoop
  import opened ReconcileTrace
  import opened ReconcileGates

  // ---- gates ----

  predicate ByOperator(e: Event) { e.actor.Operator? }

  /** A run asks for a child to be created or updated only if the cluster object it read carried the finalizer,
      was not being deleted, and passed validation; the operator changes the children in no other way. So a run
      that sees a deletion mark or an invalid spec changes no child. */
  lemma GatesHold(w: World, generate: Generator, effort: Effort, e: Event)
    requires Sound(w) && Faithful(generate)
    requires e in New(w, Reconcile(w, generate, effort).world) && ByOperator(e)
    ensures ForChild(e.actor.request) || ChildrenOf(e.before) != ChildrenOf(e.after) ==>
              && Read(w).error.None? && Read(w).world.store.cluster.Some?
              && Gated(generate(Read(w).world.store.cluster.value))
  {
    RunFollows(w, generate, effort);
    ChildEventIsGated(generate(Snapshot(w).value), e);
  }

  lemma ChildEventIsGated(i: Intent, e: Event)
    requires Sanctioned(i, e) && ByOperator(e)
    ensures ForChild(e.actor.request) || ChildrenOf(e.before) != ChildrenOf(e.after) ==> Gated(i)
  {
  }

  /** The controller is somebody else: another uid, and another kind or name. */
  predicate BelongsToOther(controller: Option<Owner>, me: Owner) {
    controller.Some? && controller.value.uid != me.uid
    && (controller.value.kind != me.kind || controller.value.name != me.name)
  }

  /** From before to after no object changed hands that belongs to another controller. */
  predicate LeavesOthers(me: Owner, before: Store, after: Store) {
    && (before.configMap.Some? && BelongsToOther(before.configMap.value.controller, me) ==>
          after.configMap == before.configMap)
    && (before.statefulSet.Some? && BelongsToOther(before.statefulSet.value.controller, me) ==>
          after.statefulSet.Some? && after.statefulSet.value.controller == before.statefulSet.value.controller)
  }

  lemma PerformLeavesOthers(i: Intent, r: Request, s: Store)
    requires Allowed(i, r, s) && Perform(s, r).Written?
    ensures LeavesOthers(i.me, s, Perform(s, r).store)
  {
    if ForChild(r) {
      assert Perform(s, r).store.cluster == s.cluster;
    } else {
      assert Perform(s, r).store.statefulSet == s.statefulSet && Perform(s, r).store.configMap == s.configMap;
    }
  }

  lemma SanctionedLeavesOthers(i: Intent, e: Event)
    requires Sanctioned(i, e) && ByOperator(e)
    ensures LeavesOthers(i.me, e.before, e.after)
  {
    if e.after != e.before { PerformLeavesOthers(i, e.actor.request, e.before); }
  }

  /** A run never takes an object over from another controller, and does not write a ConfigMap that has one. */
  lemma NeverTakesOver(w: World, generate: Generator, effort: Effort, e: Event)
    requires Sound(w) && Faithful(generate)
    requires e in New(w, Reconcile(w, generate, effort).world) && ByOperator(e)
    ensures Snapshot(w).Some? && LeavesOthers(generate(Snapshot(w).value).me, e.before, e.after)
  {
    RunFollows(w, generate, effort);
    SanctionedLeavesOthers(generate(Snapshot(w).value), e);
  }

  /** If the first Get reports the object missing, the run is over: nil, and nothing is sent. */
  lemma MissingClusterIsDone(w: World, generate: Generator, effort: Effort)
    requires Sound(w) && Faithful(generate)
    requires Read(w).error == Some(NotFound) || (Read(w).error.None? && Read(w).world.store.cluster.None?)
    ensures Reconcile(w, generate, effort).error.None?
    ensures forall e :: e in New(w, Reconcile(w, generate, effort).world) ==> !ByOperator(e)
  {
    RunFollows(w, generate, effort);
  }

  // ---- sequences of runs ----

  datatype Run = Run(turns: seq<Turn>, generate: Generator, effort: Effort)

  ghost predicate LawfulRuns(runs: seq<Run>) { forall r :: r in runs ==> forall t :: t in r.turns ==> LawfulTurn(t) }

  ghost predicate SoundRuns(runs: seq<Run>) { LawfulRuns(runs) && forall r :: r in runs ==> Faithful(r.generate) }

  /** One Reconcile after another, each with its own surroundings. */
  function Runs(w: World, runs: seq<Run>): World
    decreases |runs|
  {
    if runs == [] then w
    else Runs(Reconcile(w.(turns := runs[0].turns), runs[0].generate, runs[0].effort).world, runs[1..])
  }

  /** No write that a run sends destroys the property, if the run's snapshot was taken while it held. */
  ghost predicate KeptByOperator(generate: Generator, holds: Store -> bool) {
    forall s: Store, e: Event ::
      s.cluster.Some? && holds(s) && Sanctioned(generate(s.cluster.value), e) && ByOperator(e) && holds(e.before)
      ==> holds(e.after)
  }

  ghost predicate KeptByOthers(trace: seq<Event>, holds: Store -> bool) {
    forall e :: e in trace && e.actor == Others && holds(e.before) ==> holds(e.after)
  }

  ghost predicate AlwaysIn(trace: seq<Event>, holds: Store -> bool) {
    forall e :: e in trace ==> holds(e.before) && holds(e.after)
  }

  lemma SnapshotHolds(w: World, w': World, holds: Store -> bool)
    requires w.trace <= w'.trace && Read(w).world.trace <= w'.trace && KeptByOthers(New(w, w'), holds) && holds(w.store)
    ensures holds(Read(w).world.store)
  {
    if w.turns != [] {
      var e := Event(Others, w.store, Read(w).world.store);
      assert Read(w).world.trace[|w.trace|] == e;
      assert New(w, w')[0] == e;
    }
  }

  lemma TraceGrows(w: World, generate: Generator, effort: Effort)
    requires Sound(w) && Faithful(generate)
    ensures Read(w).world.trace <= Reconcile(w, generate, effort).world.trace
    ensures w.trace <= Reconcile(w, generate, effort).world.trace
  {
    ReadAlone(w);
    if Snapshot(w).Some? { ActFollows(Read(w).world, generate(Snapshot(w).value), effort); }
  }

  lemma RunKeeps(w: World, generate: Generator, effort: Effort, holds: Store -> bool)
    requires Sound(w) && Faithful(generate) && holds(w.store) && KeptByOperator(generate, holds)
    requires KeptByOthers(New(w, Reconcile(w, generate, effort).world), holds)
    ensures var w' := Reconcile(w, generate, effort).world;
            holds(w'.store) && AlwaysIn(New(w, w'), holds) && Sound(w')
  {
    var w' := Reconcile(w, generate, effort).world;
    RunFollows(w, generate, effort);
    TraceGrows(w, generate, effort);
    SnapshotHolds(w, w', holds);
    var s := Read(w).world.store;
    forall e | e in New(w, w') && holds(e.before) ensures holds(e.after) {
      if ByOperator(e) { assert Sanctioned(generate(s.cluster.value), e); }
    }
    Invariance(New(w, w'), w.store, w'.store, holds);
  }

  lemma {:induction false} RunsGrow(w: World, runs: seq<Run>)
    requires Coherent(w.store) && SoundRuns(runs)
    ensures w.trace <= Runs(w, runs).trace
    decreases |runs|
  {
    if runs != [] {
      var w0, run := w.(turns := runs[0].turns), runs[0];
      assert run in runs && Sound(w0);
      RunFollows(w0, run.generate, run.effort);
      assert forall r :: r in runs[1..] ==> r in runs;
      RunsGrow(Reconcile(w0, run.generate, run.effort).world, runs[1..]);
    }
  }

  lemma SoundAfterRun(w: World, generate: Generator, effort: Effort)
    requires Sound(w) && Faithful(generate)
    ensures Sound(Reconcile(w, generate, effort).world)
  {
    RunFollows(w, generate, effort);
  }

  lemma SplitTrace(a: World, b: World, c: World, holds: Store -> bool)
    requires a.trace <= b.trace && b.trace <= c.trace
    ensures KeptByOthers(New(a, c), holds) ==> KeptByOthers(New(a, b), holds) && KeptByOthers(New(b, c), holds)
    ensures AlwaysIn(New(a, b), holds) && AlwaysIn(New(b, c), holds) ==> AlwaysIn(New(a, c), holds)
  {
    assert New(a, c) == New(a, b) + New(b, c);
  }

  /** A property that no sanctioned write and no other writer destroys holds in every state of every sequence of
      runs. */
  lemma {:induction false} EveryState(w: World, runs: seq<Run>, holds: Store -> bool)
    requires Coherent(w.store) && SoundRuns(runs) && holds(w.store)
    requires forall r :: r in runs ==> KeptByOperator(r.generate, holds)
    requires KeptByOthers(New(w, Runs(w, runs)), holds)
    ensures holds(Runs(w, runs).store) && AlwaysIn(New(w, Runs(w, runs)), holds) && Coherent(Runs(w, runs).store)
    decreases |runs|
  {
    if runs != [] {
      var w0, run, w' := w.(turns := runs[0].turns), runs[0], Runs(w, runs);
      assert run in runs && Sound(w0);
      var w1 := Reconcile(w0, run.generate, run.effort).world;
      TraceGrows(w0, run.generate, run.effort);
      SoundAfterRun(w0, run.generate, run.effort);
      assert forall r :: r in runs[1..] ==> r in runs;
      RunsGrow(w1, runs[1..]);
      SplitTrace(w0, w1, w', holds);
      RunKeeps(w0, run.generate, run.effort, holds);
      EveryState(w1, runs[1..], holds);
    }
  }

  lemma RunLawful(w: World, generate: Generator, effort: Effort)
    requires Sound(w) && Faithful(generate)
    ensures forall e :: e in New(w, Reconcile(w, generate, effort).world) ==> Lawful(e.before, e.after)
  {
    RunFollows(w, generate, effort);
    if Snapshot(w).Some? {
      var i, w' := generate(Snapshot(w).value), Reconcile(w, generate, effort).world;
      assert forall e :: e in New(w, w') ==> Sanctioned(i, e);
    }
  }

  /** Everything that happens during a sequence of runs obeys the API server's rules. */
  lemma {:induction false} RunsLawful(w: World, runs: seq<Run>)
    requires Coherent(w.store) && SoundRuns(runs)
    ensures forall e :: e in New(w, Runs(w, runs)) ==> Lawful(e.before, e.after)
    decreases |runs|
  {
    if runs != [] {
      var w0, run, w' := w.(turns := runs[0].turns), runs[0], Runs(w, runs);
      assert run in runs && Sound(w0);
      var w1 := Reconcile(w0, run.generate, run.effort).world;
      TraceGrows(w0, run.generate, run.effort);
      SoundAfterRun(w0, run.generate, run.effort);
      assert forall r :: r in runs[1..] ==> r in runs;
      RunsGrow(w1, runs[1..]);
      assert New(w, w') == New(w0, w1) + New(w1, w');
      RunLawful(w0, run.generate, run.effort);
      RunsLawful(w1, runs[1..]);
    }
  }

  // ---- deletion ----

  /** This incarnation of the cluster object is gone, or is being deleted without the operator's finalizer. */
  predicate Released(s: Store, uid: nat) {
    && Coherent(s) && uid <= s.clock
    && (s.cluster.Some? && s.cluster.value.uid == uid ==> s.cluster.value.deleting && !Marked(s.cluster.value))
  }

  /** An object that is being deleted never gets the finalizer again, whatever mixture of reconciles, failures and
      other writers follows. */
  lemma NeverRegainsFinalizer(w: World, runs: seq<Run>, uid: nat)
    requires SoundRuns(runs) && Released(w.store, uid)
    ensures forall e :: e in New(w, Runs(w, runs)) ==> Released(e.after, uid)
    ensures Released(Runs(w, runs).store, uid)
  {
    var holds := (s: Store) => Released(s, uid);
    RunsLawful(w, runs);
    EveryState(w, runs, holds);
    assert AlwaysIn(New(w, Runs(w, runs)), holds);
  }
}
