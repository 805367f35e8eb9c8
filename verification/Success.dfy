/** What a call's success means when calls can fail but nobody else writes: the children are as desired, and the run
    never hands over to the upgrade manager. */
module Success {
  import opened Types
  import opened Workload
  import opened Store
  import opened ReconcileLoop
  import opened ReconcileTrace
  import opened ReconcileGates
  import opened Convergence

  // ---- the upgrade branch ----

  /** Calls may fail, but nobody else writes. */
  ghost predicate Undisturbed(w: World) { forall t :: t in w.turns ==> forall s :: t.others(s) == s }

  lemma UndisturbedSend(w: World, r: Request)
    requires Undisturbed(w)
    ensures var step := Send(w, r);
            Undisturbed(step.world) && (step.error.None? ==> Perform(w.store, r) == Written(step.world.store))
    ensures Undisturbed(Read(w).world) && Read(w).world.store == w.store
  {
    if w.turns != [] { assert w.turns[0] in w.turns; }
    assert forall t :: t in Pass(w).turns ==> t in w.turns;
  }

  /** Once reconcileStatefulSet has returned nil and nobody else writes, the run does not take the upgrade branch,
      whatever was stored before, if the StatefulSet has a container. */
  lemma NoUpgradeAfterReconcile(w: World, i: Intent)
    requires Undisturbed(w) && Proper(i) && HasServer(w.store.statefulSet) && ReconcileStatefulSet(w, i).error.None?
    ensures !CheckUpgradeNeeded(ReconcileStatefulSet(w, i).world, i.image).needed
  {
    ImageAfterReconcile(w, i);
    UndisturbedSend(ReconcileStatefulSet(w, i).world, CreateHeadless);
  }

  lemma ImageAfterReconcile(w: World, i: Intent)
    requires Undisturbed(w) && Proper(i) && HasServer(w.store.statefulSet) && ReconcileStatefulSet(w, i).error.None?
    ensures var w' := ReconcileStatefulSet(w, i).world;
            Undisturbed(w') && w'.store.statefulSet.Some? && CurrentImage(w'.store.statefulSet.value.content) == i.image
  {
    UndisturbedSend(w, CreateStatefulSet(i.me, i.desired));
    var w1 := Read(w).world;
    match Found(Read(w).error, w1.store.statefulSet)
    case Missing(error) => UndisturbedSend(w1, CreateStatefulSet(i.me, i.desired));
    case Got(found) =>
      if ControlledBy(found.controller, i.me) {
        ImageAfterUpdate(w1, found, i);
      } else {
        var r := UpdateStatefulSet(found.version, Some(i.me), found.content);
        UndisturbedSend(w1, r);
        var w2 := Send(w1, r).world;
        ImageAfterUpdate(w2, Object(w2.store.clock, Some(i.me), found.content), i);
      }
  }

  lemma ImageAfterUpdate(w: World, found: Object<StatefulSet>, i: Intent)
    requires Undisturbed(w) && Proper(i) && w.store.statefulSet == Some(found) && |found.content.containers| > 0
    requires UpdateIfDifferent(w, found, i.desired).error.None?
    ensures var w' := UpdateIfDifferent(w, found, i.desired).world;
            Undisturbed(w') && w'.store.statefulSet.Some? && CurrentImage(w'.store.statefulSet.value.content) == i.image
  {
    UndisturbedSend(w, UpdateStatefulSet(found.version, found.controller, Merge(found.content, i.desired)));
  }

  /** Whether calls fail or not, the branch is taken after a successful reconcileStatefulSet and a successful read of
      the check exactly if the StatefulSet was stored without a container. */
  lemma UpgradeWithoutContainers(w: World, i: Intent)
    requires Undisturbed(w) && Proper(i) && i.image != "" && w.store.statefulSet.Some?
    requires ReconcileStatefulSet(w, i).error.None? && Read(ReconcileStatefulSet(w, i).world).error.None?
    ensures CheckUpgradeNeeded(ReconcileStatefulSet(w, i).world, i.image).needed
       <==> |w.store.statefulSet.value.content.containers| == 0
  {
    var w1 := ReconcileStatefulSet(w, i).world;
    if |w.store.statefulSet.value.content.containers| > 0 {
      NoUpgradeAfterReconcile(w, i);
    } else {
      NothingFound(w, i);
      StepSettles(w, i);
      FramedStatefulSet(w, i);
      UndisturbedSend(w1, CreateHeadless);
    }
  }

  /** A stored StatefulSet that the Get reports missing cannot be created, so that the call fails. */
  lemma NothingFound(w: World, i: Intent)
    requires Undisturbed(w) && w.store.statefulSet.Some? && ReconcileStatefulSet(w, i).error.None?
    ensures ReadStatefulSet(w) == w.store.statefulSet
  {
    UndisturbedSend(w, CreateHeadless);
    if Read(w).error == Some(NotFound) { UndisturbedSend(Read(w).world, CreateStatefulSet(i.me, i.desired)); }
  }

  // ---- success means convergence, whichever calls fail ----

  lemma UndisturbedWrite(w: World, r: Request)
    requires Undisturbed(w)
    ensures var s := Send(w, r).world.store; s == w.store || Perform(w.store, r) == Written(s)
  {
    if w.turns != [] { assert w.turns[0] in w.turns; }
  }

  lemma SuccessfulConfigMap(w: World, i: Intent)
    requires Undisturbed(w) && ReconcileConfigMap(w, i).error.None?
    ensures var w' := ReconcileConfigMap(w, i).world;
            Undisturbed(w') && StoresText(w'.store, i)
            && w'.store == w.store.(clock := w'.store.clock, configMap := w'.store.configMap)
  {
    UndisturbedSend(w, CreateConfigMap(i.me, i.data));
    var w1 := Read(w).world;
    match Found(Read(w).error, w1.store.configMap)
    case Missing(_) => UndisturbedSend(w1, CreateConfigMap(i.me, i.data));
    case Got(found) =>
      UndisturbedSend(w1, UpdateConfigMap(found.version, Adopted(found.controller, i.me), i.data));
  }

  lemma SuccessfulEnsure(w: World, present: Store -> bool, create: Request)
    requires Undisturbed(w) && EnsureExists(w, present, create).error.None?
    ensures var w' := EnsureExists(w, present, create).world;
            Undisturbed(w')
            && ((w'.store == w.store && present(w.store)) || Perform(w.store, create) == Written(w'.store))
  {
    UndisturbedSend(w, create);
    UndisturbedSend(Read(w).world, create);
  }

  lemma SuccessfulServices(w: World)
    requires Undisturbed(w) && ReconcileServices(w).error.None?
    ensures var w' := ReconcileServices(w).world;
            Undisturbed(w') && w'.store == w.store.(clock := w'.store.clock, headless := true, client := true)
  {
    SuccessfulEnsure(w, HasHeadless, CreateHeadless);
    SuccessfulEnsure(EnsureExists(w, HasHeadless, CreateHeadless).world, HasClient, CreateClient);
  }

  lemma SuccessfulBudget(w: World, i: Intent)
    requires Undisturbed(w) && ReconcileBudget(w, i).error.None?
    ensures var w' := ReconcileBudget(w, i).world;
            Undisturbed(w') && w'.store == w.store.(clock := w'.store.clock, budget := w'.store.budget)
            && (i.budget ==> w'.store.budget)
  {
    if i.budget { SuccessfulEnsure(w, HasBudget, CreateBudget); }
  }

  lemma FramedUpdate(w: World, found: Object<StatefulSet>, desired: StatefulSet)
    requires Undisturbed(w)
    ensures var w' := UpdateIfDifferent(w, found, desired).world;
            Undisturbed(w') && w'.store == w.store.(clock := w'.store.clock, statefulSet := w'.store.statefulSet)
  {
    UndisturbedWrite(w, UpdateStatefulSet(found.version, found.controller, Merge(found.content, desired)));
    UndisturbedSend(w, UpdateStatefulSet(found.version, found.controller, Merge(found.content, desired)));
  }

  lemma FramedStatefulSet(w: World, i: Intent)
    requires Undisturbed(w) && ReconcileStatefulSet(w, i).error.None?
    ensures var w' := ReconcileStatefulSet(w, i).world;
            Undisturbed(w') && w'.store == w.store.(clock := w'.store.clock, statefulSet := w'.store.statefulSet)
  {
    UndisturbedSend(w, CreateStatefulSet(i.me, i.desired));
    var w1 := Read(w).world;
    match Found(Read(w).error, w1.store.statefulSet)
    case Missing(_) => UndisturbedSend(w1, CreateStatefulSet(i.me, i.desired));
    case Got(found) => FramedFound(w1, found, i);
  }

  lemma FramedFound(w: World, found: Object<StatefulSet>, i: Intent)
    requires Undisturbed(w)
    ensures var w' := FoundStatefulSet(w, found, i.me, i.desired).world;
            Undisturbed(w') && w'.store == w.store.(clock := w'.store.clock, statefulSet := w'.store.statefulSet)
  {
    if ControlledBy(found.controller, i.me) {
      FramedUpdate(w, found, i.desired);
    } else {
      FramedAdoption(w, found, i);
    }
  }

  lemma FramedAdoption(w: World, found: Object<StatefulSet>, i: Intent)
    requires Undisturbed(w) && !ControlledBy(found.controller, i.me)
    ensures var w' := FoundStatefulSet(w, found, i.me, i.desired).world;
            Undisturbed(w') && w'.store == w.store.(clock := w'.store.clock, statefulSet := w'.store.statefulSet)
  {
    var r := UpdateStatefulSet(found.version, Some(i.me), found.content);
    UndisturbedWrite(w, r);
    UndisturbedSend(w, r);
    var w1 := Send(w, r).world;
    FramedUpdate(w1, Object(w1.store.clock, Some(i.me), found.content), i.desired);
  }

  /** After the children succeeded they are as desired, and the check does not ask for an upgrade. */
  lemma SuccessfulChildren(w: World, i: Intent)
    requires Undisturbed(w) && Proper(i) && HasServer(w.store.statefulSet) && ReconcileLoop.Children(w, i).error.None?
    ensures var w' := ReconcileLoop.Children(w, i).world;
            Undisturbed(w') && Converged(w'.store, i) && !CheckUpgradeNeeded(w', i.image).needed
  {
    SuccessfulConfigMap(w, i);
    var w1 := ReconcileConfigMap(w, i).world;
    SuccessfulServices(w1);
    var w2 := ReconcileServices(w1).world;
    SuccessfulBudget(w2, i);
    var w3 := ReconcileBudget(w2, i).world;
    UndisturbedSend(w3, CreateHeadless);
    StatefulSetFixedPoint(w3, i);
    FramedStatefulSet(w3, i);
    NoUpgradeAfterReconcile(w3, i);
  }

  lemma {:induction false} StatusKeepsChildren(w: World, attempt: nat)
    requires Undisturbed(w)
    ensures var s := StatusFrom(w, attempt).world.store; OnlyCluster(w.store, s)
    decreases 3 - attempt
  {
    if attempt < 3 {
      UndisturbedSend(w, CreateHeadless);
      var w1 := Read(w).world;
      match Found(Read(w).error, w1.store.cluster)
      case Missing(_) =>
      case Got(latest) =>
        ObservedKeepsChildren(w1, latest);
        StatusKeepsChildren(UpdateObserved(w1, latest).world, attempt + 1);
    }
  }

  lemma ObservedKeepsChildren(w: World, latest: Cluster)
    requires Undisturbed(w)
    ensures var w' := UpdateObserved(w, latest).world; Undisturbed(w') && OnlyCluster(w.store, w'.store)
  {
    UndisturbedSend(w, CreateHeadless);
    var w1 := Read(w).world;
    var r := UpdateStatus(latest.version, Observed(latest.status, w1.store.observedReplicas, w1.store.observedReady));
    UndisturbedWrite(w1, r);
    UndisturbedSend(w1, r);
  }

  /** Without other writers a run whose children succeeded ends on the status path: in the status loop, or with the
      error of the check's read. */
  lemma FollowIsStatus(w: World, i: Intent, effort: Effort)
    requires Undisturbed(w) && Proper(i) && HasServer(w.store.statefulSet) && ReconcileLoop.Children(w, i).error.None?
    ensures var w1 := ReconcileLoop.Children(w, i).world; var check := CheckUpgradeNeeded(w1, i.image);
            && ActOnChildren(w, i, effort)
                 == (if check.error.Some? then Step(check.world, check.error) else StatusFrom(check.world, 0))
            && OnlyCluster(w1.store, ActOnChildren(w, i, effort).world.store)
  {
    SuccessfulChildren(w, i);
    var w1 := ReconcileLoop.Children(w, i).world;
    UndisturbedSend(w1, CreateHeadless);
    StatusKeepsChildren(Read(w1).world, 0);
  }

  /** Without other writers, a run on an accepted spec that returns nil has made all children as desired, whichever of
      its calls could have failed and whatever was stored before. */
  lemma SuccessConverges(w: World, generate: Generator, effort: Effort)
    requires Undisturbed(w) && Snapshot(w).Some? && HasServer(w.store.statefulSet)
    requires var i := generate(Snapshot(w).value); i.raw == Snapshot(w).value && Gated(i) && Proper(i)
    requires Reconcile(w, generate, effort).error.None?
    ensures Converged(Reconcile(w, generate, effort).world.store, generate(Snapshot(w).value))
  {
    UndisturbedSend(w, CreateHeadless);
    var i, w1 := generate(Snapshot(w).value), Read(w).world;
    SuccessfulChildren(w1, i);
    FollowIsStatus(w1, i, effort);
  }
}
