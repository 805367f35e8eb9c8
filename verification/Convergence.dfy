/** Liveness of the reconcile loop: one undisturbed run repairs whatever it finds, the next writes no child, and
    no sequence of disturbed runs before it can prevent that. */
module Convergence {
  import opened Types
  import opened Comparators
  import opened Workload
  import opened Store
  import opened ReconcileLoop
  import opened ReconcileTrace
  import opened ReconcileGates

  // ---- the goal ----

  predicate ServerAgrees(a: Container, b: Container) {
    && a.image == b.image && ComputeOf(a.resources) == ComputeOf(b.resources)
    && ProbeSeen(a.readiness) == ProbeSeen(b.readiness) && ProbeSeen(a.liveness) == ProbeSeen(b.liveness)
    && LifecycleSeen(a.lifecycle) == LifecycleSeen(b.lifecycle)
  }

  /** Equal in the six things that are compared. */
  predicate SixFieldsAgree(found: StatefulSet, desired: StatefulSet) {
    && found.replicas == desired.replicas
    && |found.containers| > 0 && |desired.containers| > 0 && ServerAgrees(found.containers[0], desired.containers[0])
  }

  predicate Converged(s: Store, i: Intent) {
    && s.configMap.Some? && TextIn(s.configMap.value.content) == TextIn(i.data)
    && s.headless && s.client && (i.budget ==> s.budget)
    && s.statefulSet.Some? && SixFieldsAgree(s.statefulSet.value.content, i.desired)
  }

  /** Some other controller holds the object, so that it cannot be adopted. */
  predicate Held<T>(stored: Option<Object<T>>, me: Owner) { stored.Some? && Unadoptable(stored.value.controller, me) }

  predicate HasServer(stored: Option<Object<StatefulSet>>) { stored.Some? ==> |stored.value.content.containers| > 0 }

  /** What a generator makes of an accepted spec: a server container with the image it wants. */
  predicate Proper(i: Intent) { |i.desired.containers| > 0 && i.desired.containers[0].image == i.image }

  // ---- merging ----

  lemma ContainersAgree(a: Container, b: Container)
    ensures !ContainerDiffers(a, b) <==> ServerAgrees(a, b)
  {
    ProbesEqualDecides(a.readiness, b.readiness);
    ProbesEqualDecides(a.liveness, b.liveness);
    LifecyclesEqualDecides(a.lifecycle, b.lifecycle);
    ResourcesEqualDecides(a.resources, b.resources);
  }

  lemma MergedContainerAgrees(a: Container, b: Container)
    ensures ServerAgrees(MergeContainer(a, b), b)
  {
    ProbesEqualDecides(a.readiness, b.readiness);
    ProbesEqualDecides(a.liveness, b.liveness);
    LifecyclesEqualDecides(a.lifecycle, b.lifecycle);
  }

  lemma DiffersExactly(found: StatefulSet, desired: StatefulSet)
    requires |found.containers| > 0 && |desired.containers| > 0
    ensures !Differs(found, desired) <==> SixFieldsAgree(found, desired)
  {
    ContainersAgree(found.containers[0], desired.containers[0]);
  }

  lemma MergeAgrees(found: StatefulSet, desired: StatefulSet)
    requires |found.containers| > 0 && |desired.containers| > 0
    ensures SixFieldsAgree(Merge(found, desired), desired) && !Differs(Merge(found, desired), desired)
  {
    MergedContainerAgrees(found.containers[0], desired.containers[0]);
    DiffersExactly(Merge(found, desired), desired);
  }

  // ---- undisturbed steps ----

  predicate Idle(w: World) { w.turns == [] }

  lemma IdleSend(w: World, r: Request)
    requires Idle(w) && Perform(w.store, r).Written?
    ensures var step := Send(w, r);
            && step.error.None? && Idle(step.world) && step.world.store == Perform(w.store, r).store
            && step.world.trace == w.trace + [Event(OperatorActor(r), w.store, step.world.store)]
  {
  }

  function OperatorActor(r: Request): Actor { Operator(r, None) }

  lemma IdleRead(w: World)
    requires Idle(w)
    ensures Read(w) == Step(w, None)
  {
  }

  /** The stored configuration text is the wanted one. */
  predicate StoresText(s: Store, i: Intent) {
    s.configMap.Some? && TextIn(s.configMap.value.content) == TextIn(i.data)
  }

  lemma IdleConfigMap(w: World, i: Intent)
    requires Idle(w)
    ensures var step := ReconcileConfigMap(w, i); var s := step.world.store;
            && Idle(step.world) && s == w.store.(clock := s.clock, configMap := s.configMap)
            && (step.error.None? <==> !Held(w.store.configMap, i.me))
            && (step.error.None? ==>
                  StoresText(s, i) && !Held(s.configMap, i.me))
            && (StoresText(w.store, i) ==> step.world == w)
            && (w.store.configMap.Some? && !StoresText(w.store, i) && step.error.None? ==>
                  |step.world.trace| == |w.trace| + 1)
  {
    IdleRead(w);
    if w.store.configMap.None? {
      IdleSend(w, CreateConfigMap(i.me, i.data));
    } else {
      var found := w.store.configMap.value;
      if !Held(w.store.configMap, i.me) && TextIn(found.content) != TextIn(i.data) {
        IdleSend(w, UpdateConfigMap(found.version, Adopted(found.controller, i.me), i.data));
      }
    }
  }

  lemma IdleServicesAndBudget(w: World, i: Intent)
    requires Idle(w)
    ensures var s1, s2 := ReconcileServices(w), ReconcileBudget(w, i);
            && s1.error.None? && Idle(s1.world)
            && s1.world.store == w.store.(clock := s1.world.store.clock, headless := true, client := true)
            && (w.store.headless && w.store.client ==> s1.world == w)
            && s2.error.None? && Idle(s2.world)
            && s2.world.store == w.store.(clock := s2.world.store.clock, budget := w.store.budget || i.budget)
            && ((i.budget ==> w.store.budget) ==> s2.world == w)
  {
  }

  /** What the merge leaves alone: everything but the count and five fields of the first container, and of those
      every compound field that already agrees. */
  predicate OnlySixFieldsChanged(before: StatefulSet, after: StatefulSet) {
    && after.fixed == before.fixed && |after.containers| == |before.containers|
    && (forall k :: 1 <= k < |before.containers| ==> after.containers[k] == before.containers[k])
    && (|before.containers| > 0 ==> MinimallyChanged(before.containers[0], after.containers[0]))
  }

  predicate MinimallyChanged(a: Container, b: Container) {
    && b.name == a.name
    && (ComputeOf(a.resources) == ComputeOf(b.resources) ==> b.resources == a.resources)
    && (ProbeSeen(a.readiness) == ProbeSeen(b.readiness) ==> b.readiness == a.readiness)
    && (ProbeSeen(a.liveness) == ProbeSeen(b.liveness) ==> b.liveness == a.liveness)
    && (LifecycleSeen(a.lifecycle) == LifecycleSeen(b.lifecycle) ==> b.lifecycle == a.lifecycle)
  }

  lemma MergeIsMinimal(found: StatefulSet, desired: StatefulSet)
    ensures OnlySixFieldsChanged(found, Merge(found, desired))
  {
    if |found.containers| > 0 && |desired.containers| > 0 {
      var a, b := found.containers[0], desired.containers[0];
      ProbesEqualDecides(a.readiness, b.readiness);
      ProbesEqualDecides(a.liveness, b.liveness);
      LifecyclesEqualDecides(a.lifecycle, b.lifecycle);
      ResourcesEqualDecides(a.resources, b.resources);
    }
  }

  /** The object that a successful reconcileStatefulSet leaves when it found this one. */
  function Settled(found: Object<StatefulSet>, version: nat, i: Intent): Object<StatefulSet> {
    Object(version, Adopted(found.controller, i.me),
           if Differs(found.content, i.desired) then Merge(found.content, i.desired) else found.content)
  }

  lemma IdleUpdate(w: World, found: Object<StatefulSet>, i: Intent)
    requires Idle(w) && w.store.statefulSet == Some(found)
    ensures var step := UpdateIfDifferent(w, found, i.desired); var s := step.world.store;
            && step.error.None? && Idle(step.world) && s == w.store.(clock := s.clock, statefulSet := s.statefulSet)
            && s.statefulSet.Some? && s.statefulSet.value.controller == found.controller
            && s.statefulSet.value.content
                 == (if Differs(found.content, i.desired) then Merge(found.content, i.desired) else found.content)
            && (!Differs(found.content, i.desired) ==> step.world == w)
            && |step.world.trace| == |w.trace| + (if Differs(found.content, i.desired) then 1 else 0)
  {
    if Differs(found.content, i.desired) {
      IdleSend(w, UpdateStatefulSet(found.version, found.controller, Merge(found.content, i.desired)));
    }
  }

  /** How many writes a found StatefulSet costs: one for the adoption, one for all differences together. */
  function WritesFor(found: Object<StatefulSet>, i: Intent): nat {
    (if ControlledBy(found.controller, i.me) then 0 else 1) + (if Differs(found.content, i.desired) then 1 else 0)
  }

  lemma IdleFound(w: World, found: Object<StatefulSet>, i: Intent)
    requires Idle(w) && w.store.statefulSet == Some(found) && !Unadoptable(found.controller, i.me)
    ensures var step := FoundStatefulSet(w, found, i.me, i.desired); var s := step.world.store;
            && step.error.None? && Idle(step.world) && s == w.store.(clock := s.clock, statefulSet := s.statefulSet)
            && s.statefulSet.Some? && s.statefulSet.value == Settled(found, s.statefulSet.value.version, i)
            && (WritesFor(found, i) == 0 ==> step.world == w)
            && |step.world.trace| == |w.trace| + WritesFor(found, i)
  {
    if ControlledBy(found.controller, i.me) {
      IdleUpdate(w, found, i);
    } else {
      var r := UpdateStatefulSet(found.version, Some(i.me), found.content);
      IdleSend(w, r);
      var w1 := Send(w, r).world;
      IdleUpdate(w1, Object(w1.store.clock, Some(i.me), found.content), i);
    }
  }

  lemma IdleStatefulSet(w: World, i: Intent)
    requires Idle(w)
    ensures var step := ReconcileStatefulSet(w, i); var s := step.world.store;
            && Idle(step.world) && s == w.store.(clock := s.clock, statefulSet := s.statefulSet)
            && (step.error.None? <==> !Held(w.store.statefulSet, i.me))
            && (step.error.None? ==>
                  && s.statefulSet.Some? && ControlledBy(s.statefulSet.value.controller, i.me)
                  && match w.store.statefulSet
                     case None => s.statefulSet.value.content == i.desired
                     case Some(found) =>
                       && s.statefulSet.value == Settled(found, s.statefulSet.value.version, i)
                       && |step.world.trace| == |w.trace| + WritesFor(found, i)
                       && (WritesFor(found, i) == 0 ==> step.world == w))
  {
    IdleRead(w);
    if w.store.statefulSet.None? {
      IdleSend(w, CreateStatefulSet(i.me, i.desired));
    } else if !Held(w.store.statefulSet, i.me) {
      IdleFound(w, w.store.statefulSet.value, i);
    }
  }

  lemma SettledAgrees(found: Object<StatefulSet>, version: nat, i: Intent)
    requires |i.desired.containers| > 0 && |found.content.containers| > 0
    ensures var o := Settled(found, version, i);
            && SixFieldsAgree(o.content, i.desired) && OnlySixFieldsChanged(found.content, o.content)
            && WritesFor(o, i) == 0
  {
    DiffersExactly(found.content, i.desired);
    MergeAgrees(found.content, i.desired);
    MergeIsMinimal(found.content, i.desired);
  }

  /** Undisturbed, it is a step to a fixed point that leaves the rest of the store alone. */
  lemma IdleFixedPoint(w: World, i: Intent)
    requires Idle(w) && |i.desired.containers| > 0 && HasServer(w.store.statefulSet)
    requires ReconcileStatefulSet(w, i).error.None?
    ensures var w1 := ReconcileStatefulSet(w, i).world; var s := w1.store.statefulSet;
            && s.Some? && SixFieldsAgree(s.value.content, i.desired) && ControlledBy(s.value.controller, i.me)
            && (w.store.statefulSet.Some? ==> OnlySixFieldsChanged(w.store.statefulSet.value.content, s.value.content))
            && w1.store == w.store.(clock := w1.store.clock, statefulSet := s)
            && ReconcileStatefulSet(w1, i) == Step(w1, None)
  {
    IdleStatefulSet(w, i);
    var w1 := ReconcileStatefulSet(w, i).world;
    match w.store.statefulSet
    case None => DiffersExactly(i.desired, i.desired);
    case Some(found) => SettledAgrees(found, w1.store.statefulSet.value.version, i);
    IdleStatefulSet(w1, i);
  }

  lemma ConvergedWritesNothing(w: World, i: Intent)
    requires Idle(w) && w.store.statefulSet.Some? && SixFieldsAgree(w.store.statefulSet.value.content, i.desired)
    requires ControlledBy(w.store.statefulSet.value.controller, i.me)
    ensures ReconcileStatefulSet(w, i) == Step(w, None)
  {
    DiffersExactly(w.store.statefulSet.value.content, i.desired);
    IdleStatefulSet(w, i);
  }

  // ---- a successful step, whatever others do and whichever faults it meets ----

  lemma UpdateSettles(w: World, found: Object<StatefulSet>, i: Intent)
    requires w.store.statefulSet == Some(found) && UpdateIfDifferent(w, found, i.desired).error.None?
    ensures var s := UpdateIfDifferent(w, found, i.desired).world.store.statefulSet;
            && s.Some? && s.value.controller == found.controller
            && s.value.content
                 == if Differs(found.content, i.desired) then Merge(found.content, i.desired) else found.content
  {
    if Differs(found.content, i.desired) {
      SendSucceeds(w, UpdateStatefulSet(found.version, found.controller, Merge(found.content, i.desired)));
    }
  }

  lemma FoundSettles(w: World, found: Object<StatefulSet>, i: Intent)
    requires w.store.statefulSet == Some(found) && FoundStatefulSet(w, found, i.me, i.desired).error.None?
    ensures var s := FoundStatefulSet(w, found, i.me, i.desired).world.store.statefulSet;
            s.Some? && s.value == Settled(found, s.value.version, i) && ControlledBy(s.value.controller, i.me)
  {
    if ControlledBy(found.controller, i.me) {
      UpdateSettles(w, found, i);
    } else {
      var r := UpdateStatefulSet(found.version, Some(i.me), found.content);
      SendSucceeds(w, r);
      var w1 := Send(w, r).world;
      UpdateSettles(w1, Object(w1.store.clock, Some(i.me), found.content), i);
    }
  }

  /** What the call's Get finds. */
  function ReadStatefulSet(w: World): Option<Object<StatefulSet>> {
    if Read(w).error.Some? then None else Read(w).world.store.statefulSet
  }

  lemma StepSettles(w: World, i: Intent)
    requires ReconcileStatefulSet(w, i).error.None?
    ensures var s := ReconcileStatefulSet(w, i).world.store.statefulSet;
            && s.Some? && ControlledBy(s.value.controller, i.me)
            && match ReadStatefulSet(w)
               case None => s.value.content == i.desired && s.value.controller == Some(i.me)
               case Some(found) => s.value == Settled(found, s.value.version, i)
  {
    var w1 := Read(w).world;
    match ReadStatefulSet(w)
    case None => SendSucceeds(w1, CreateStatefulSet(i.me, i.desired));
    case Some(found) => FoundSettles(w1, found, i);
  }

  /** Every successful reconcileStatefulSet, whatever other writers did meanwhile and whatever faults it could have
      met, is a minimal step to a fixed point: all six fields of the stored object agree, nothing else differs from
      the object that was read, the adoption changes only the owner, and a second call does nothing at all. */
  lemma StatefulSetFixedPoint(w: World, i: Intent)
    requires |i.desired.containers| > 0 && HasServer(ReadStatefulSet(w))
    requires ReconcileStatefulSet(w, i).error.None?
    ensures var w1 := ReconcileStatefulSet(w, i).world; var s := w1.store.statefulSet; var idle := w1.(turns := []);
            && s.Some? && SixFieldsAgree(s.value.content, i.desired) && ControlledBy(s.value.controller, i.me)
            && (ReadStatefulSet(w).Some? ==>
                  && OnlySixFieldsChanged(ReadStatefulSet(w).value.content, s.value.content)
                  && s.value.controller == Adopted(ReadStatefulSet(w).value.controller, i.me))
            && ReconcileStatefulSet(idle, i) == Step(idle, None)
  {
    StepSettles(w, i);
    var w1 := ReconcileStatefulSet(w, i).world;
    match ReadStatefulSet(w) {
      case None => DiffersExactly(i.desired, i.desired);
      case Some(found) => SettledAgrees(found, w1.store.statefulSet.value.version, i);
    }
    ConvergedWritesNothing(w1.(turns := []), i);
  }

  // ---- one undisturbed run ----

  lemma IdleChildren(w: World, i: Intent)
    requires Idle(w) && |i.desired.containers| > 0 && HasServer(w.store.statefulSet)
    ensures var step := ReconcileLoop.Children(w, i); var s := step.world.store;
            && Idle(step.world) && s.cluster == w.store.cluster && s.observedReady == w.store.observedReady
            && s.observedReplicas == w.store.observedReplicas
            && (step.error.None? <==> !Held(w.store.configMap, i.me) && !Held(w.store.statefulSet, i.me))
            && (step.error.None? ==>
                  Converged(s, i) && ControlledBy(s.statefulSet.value.controller, i.me) && !Held(s.configMap, i.me))
  {
    IdleConfigMap(w, i);
    var w1 := ReconcileConfigMap(w, i).world;
    IdleServicesAndBudget(w1, i);
    var w2 := ReconcileServices(w1).world;
    IdleServicesAndBudget(w2, i);
    var w3 := ReconcileBudget(w2, i).world;
    IdleStatefulSet(w3, i);
    if !Held(w3.store.statefulSet, i.me) { IdleFixedPoint(w3, i); }
  }

  /** What an undisturbed status update writes. */
  function StatusWrite(s: Store): Request
    requires s.cluster.Some?
  {
    UpdateStatus(s.cluster.value.version, Observed(s.cluster.value.status, s.observedReplicas, s.observedReady))
  }

  /** One write of the status, and nothing else. */
  predicate OnlyWritesStatus(w: World, w': World) {
    && w.store.cluster.Some? && Idle(w')
    && Perform(w.store, StatusWrite(w.store)) == Written(w'.store)
    && w'.trace == w.trace + [Event(OperatorActor(StatusWrite(w.store)), w.store, w'.store)]
  }

  lemma IdleStatus(w: World)
    requires Idle(w) && w.store.cluster.Some? && w.store.statefulSet.Some?
    ensures var step := StatusFrom(w, 0); step.error.None? && OnlyWritesStatus(w, step.world)
  {
    IdleRead(w);
    IdleSend(w, StatusWrite(w.store));
  }

  lemma IdleFollow(w: World, i: Intent, effort: Effort)
    requires Idle(w) && w.store.cluster.Some? && Converged(w.store, i) && Proper(i)
    ensures var step := Follow(w, i, effort); step.error.None? && OnlyWritesStatus(w, step.world)
  {
    IdleRead(w);
    IdleStatus(w);
  }

  /** An undisturbed run on an accepted spec succeeds exactly if no other controller holds the ConfigMap or the
      StatefulSet; whatever else it found, afterwards all children are as desired, and of the cluster object only
      the status changed. */
  lemma IdleRunConverges(w: World, generate: Generator, effort: Effort)
    requires Idle(w) && w.store.cluster.Some? && HasServer(w.store.statefulSet)
    requires var i := generate(w.store.cluster.value); i.raw == w.store.cluster.value && Gated(i) && Proper(i)
    ensures var i := generate(w.store.cluster.value);
            var step := Reconcile(w, generate, effort); var s := step.world.store;
            && (step.error.None? <==> !Held(w.store.configMap, i.me) && !Held(w.store.statefulSet, i.me))
            && (step.error.None? ==>
                  && Converged(s, i) && ControlledBy(s.statefulSet.value.controller, i.me) && !Held(s.configMap, i.me)
                  && s.cluster.Some? && Idle(step.world)
                  && s.cluster.value == i.raw.(version := s.cluster.value.version, status := s.cluster.value.status))
  {
    var i := generate(w.store.cluster.value);
    IdleRead(w);
    IdleChildren(w, i);
    var w1 := ReconcileLoop.Children(w, i).world;
    if ReconcileLoop.Children(w, i).error.None? { IdleFollow(w1, i, effort); }
  }

  lemma HeldChildren(w: World, i: Intent)
    requires Idle(w) && |i.desired.containers| > 0 && HasServer(w.store.statefulSet)
    ensures Held(w.store.configMap, i.me) ==>
              ReconcileLoop.Children(w, i).error.Some? && ReconcileLoop.Children(w, i).world.store == w.store
    ensures !Held(w.store.configMap, i.me) && Held(w.store.statefulSet, i.me) ==>
              var step := ReconcileLoop.Children(w, i);
              step.error.Some? && (Converged(step.world.store, i)
                                   <==> SixFieldsAgree(w.store.statefulSet.value.content, i.desired))
  {
    IdleConfigMap(w, i);
    IdleRead(w);
    if !Held(w.store.configMap, i.me) && Held(w.store.statefulSet, i.me) {
      var w1 := ReconcileConfigMap(w, i).world;
      IdleServicesAndBudget(w1, i);
      var w2 := ReconcileServices(w1).world;
      IdleServicesAndBudget(w2, i);
      IdleRead(ReconcileBudget(w2, i).world);
    }
  }

  /** After an undisturbed run the children are as desired if and only if nothing that another controller holds was
      in the way: a held ConfigMap stops the run before it writes anything, so that all must have been as desired
      already; a held StatefulSet must have agreed. */
  lemma ChildrenMatchExactly(w: World, generate: Generator, effort: Effort)
    requires Idle(w) && w.store.cluster.Some? && HasServer(w.store.statefulSet)
    requires var i := generate(w.store.cluster.value); i.raw == w.store.cluster.value && Gated(i) && Proper(i)
    ensures var i := generate(w.store.cluster.value);
            (Converged(Reconcile(w, generate, effort).world.store, i)
             <==> if Held(w.store.configMap, i.me) then Converged(w.store, i)
                  else Held(w.store.statefulSet, i.me) ==> SixFieldsAgree(w.store.statefulSet.value.content, i.desired))
  {
    var i := generate(w.store.cluster.value);
    IdleRead(w);
    IdleRunConverges(w, generate, effort);
    IdleChildren(w, i);
    HeldChildren(w, i);
  }

  /** The children are as desired, up to the text of the configuration. */
  predicate ConvergedButText(s: Store, i: Intent) {
    && s.configMap.Some? && !Held(s.configMap, i.me)
    && s.headless && s.client && (i.budget ==> s.budget)
    && s.statefulSet.Some? && SixFieldsAgree(s.statefulSet.value.content, i.desired)
    && ControlledBy(s.statefulSet.value.controller, i.me)
  }

  lemma QuietChildren(w: World, i: Intent)
    requires Idle(w) && ConvergedButText(w.store, i) && TextIn(w.store.configMap.value.content) == TextIn(i.data)
    ensures ReconcileLoop.Children(w, i) == Step(w, None)
  {
    IdleConfigMap(w, i);
    IdleServicesAndBudget(w, i);
    ConvergedWritesNothing(w, i);
  }

  lemma OneTextWrite(w: World, i: Intent)
    requires Idle(w) && ConvergedButText(w.store, i) && TextIn(w.store.configMap.value.content) != TextIn(i.data)
    ensures var step := ReconcileLoop.Children(w, i);
            && step.error.None? && Idle(step.world) && step.world.store.cluster == w.store.cluster
            && Converged(step.world.store, i) && |step.world.trace| == |w.trace| + 1
  {
    IdleConfigMap(w, i);
    var w1 := ReconcileConfigMap(w, i).world;
    IdleServicesAndBudget(w1, i);
    ConvergedWritesNothing(w1, i);
  }

  /** On converged children a further undisturbed run writes the status and nothing else exactly if its text of
      the configuration is the stored one. */
  lemma QuietExactly(w: World, generate: Generator, effort: Effort)
    requires Idle(w) && w.store.cluster.Some?
    requires var i := generate(w.store.cluster.value);
             i.raw == w.store.cluster.value && Gated(i) && Proper(i) && ConvergedButText(w.store, i)
    ensures var i := generate(w.store.cluster.value); var step := Reconcile(w, generate, effort);
            && step.error.None?
            && (OnlyWritesStatus(w, step.world) <==> TextIn(w.store.configMap.value.content) == TextIn(i.data))
  {
    var i := generate(w.store.cluster.value);
    IdleRead(w);
    if TextIn(w.store.configMap.value.content) == TextIn(i.data) {
      QuietChildren(w, i);
      IdleFollow(w, i, effort);
    } else {
      OneTextWrite(w, i);
      IdleFollow(ReconcileLoop.Children(w, i).world, i, effort);
    }
  }

  // ---- the gates, undisturbed ----

  /** Nothing but the cluster object changed. */
  predicate OnlyCluster(s: Store, s': Store) { s' == s.(clock := s'.clock, cluster := s'.cluster) }

  /** The finalizer comes first: one undisturbed run stores it and nothing else, and the next one converges. */
  lemma FromScratch(w: World, generate: Generator, effort: Effort)
    requires Idle(w) && w.store.cluster.Some? && !w.store.cluster.value.deleting && !Marked(w.store.cluster.value)
    requires HasServer(w.store.statefulSet) && Faithful(generate)
    requires forall raw: Cluster :: raw.spec == w.store.cluster.value.spec ==>
               generate(raw).verdict.None? && Proper(generate(raw))
    ensures var first := Reconcile(w, generate, effort); var s := first.world.store;
            && first.error.None? && OnlyCluster(w.store, s) && s.cluster.Some?
            && s.cluster.value
                 == w.store.cluster.value.(version := s.clock,
                                           finalizers := w.store.cluster.value.finalizers + [FINALIZER])
            && var i := generate(s.cluster.value); var second := Reconcile(first.world, generate, effort);
               && (second.error.None? <==> !Held(w.store.configMap, i.me) && !Held(w.store.statefulSet, i.me))
               && (second.error.None? ==> Converged(second.world.store, i))
  {
    var raw := w.store.cluster.value;
    IdleRead(w);
    IdleSend(w, UpdateCluster(raw.version, raw.finalizers + [FINALIZER], raw.spec));
    var w1 := Reconcile(w, generate, effort).world;
    assert generate(w1.store.cluster.value).raw == w1.store.cluster.value;
    IdleRunConverges(w1, generate, effort);
  }

  /** A deleted object loses the operator's finalizer and no other, and is gone exactly if it had no other; the
      children are left alone. */
  lemma IdleDeletion(w: World, generate: Generator, effort: Effort)
    requires Idle(w) && w.store.cluster.Some? && w.store.cluster.value.deleting && Marked(w.store.cluster.value)
    requires generate(w.store.cluster.value).raw == w.store.cluster.value
    ensures var step := Reconcile(w, generate, effort); var c, s := w.store.cluster.value, step.world.store;
            && step.error.None? && OnlyCluster(w.store, s)
            && (s.cluster.None? <==> forall f :: f in c.finalizers ==> f == FINALIZER)
            && (s.cluster.Some? ==>
                  && s.cluster.value == c.(version := s.clock, finalizers := s.cluster.value.finalizers)
                  && forall f :: f in s.cluster.value.finalizers <==> f in c.finalizers && f != FINALIZER)
  {
    var c := w.store.cluster.value;
    IdleRead(w);
    var rest := Without(c.finalizers, FINALIZER);
    IdleSend(w, UpdateCluster(c.version, rest, c.spec));
    if rest != [] { assert rest[0] in rest; }
  }

  /** An invalid spec is answered with its problem and with the phase Failed; the children are left alone. */
  lemma IdleRejection(w: World, generate: Generator, effort: Effort)
    requires Idle(w) && w.store.cluster.Some? && !w.store.cluster.value.deleting && Marked(w.store.cluster.value)
    requires var i := generate(w.store.cluster.value); i.raw == w.store.cluster.value && i.verdict.Some?
    ensures var step := Reconcile(w, generate, effort); var c, s := w.store.cluster.value, step.world.store;
            && step.error == Some(Rejected(generate(c).verdict.value)) && OnlyCluster(w.store, s)
            && s.cluster == Some(c.(version := s.clock, status := c.status.(phase := Failed)))
  {
    IdleRead(w);
    IdleSend(w, UpdateStatus(w.store.cluster.value.version, w.store.cluster.value.status.(phase := Failed)));
  }

  // ---- the upgrade branch, undisturbed ----

  /** The check asks for an upgrade exactly if it can read a StatefulSet whose first container runs another image than
      the wanted one, or that has no container while an image is wanted. */
  lemma UpgradeNeededExactly(w: World, image: string)
    ensures CheckUpgradeNeeded(w, image).needed <==>
            && Read(w).error.None? && Read(w).world.store.statefulSet.Some?
            && var containers := Read(w).world.store.statefulSet.value.content.containers;
               if containers == [] then image != "" else containers[0].image != image
  {
  }

  /** What a completed upgrade leaves in the status. */
  function Upgraded(status: Status, wanted: string, image: string): Status {
    var u := if status.upgrade.Some? then status.upgrade.value else UpgradeStatus(wanted, "Starting", 0, 0);
    status.(upgrade := Some(u.(phase := "Completed")), currentImage := image)
  }

  lemma IdleManager(w: World, version: nat, status: Status, image: string, effort: Effort)
    requires Idle(w) && effort.reachesPatch && effort.completes && status.upgrade.Some?
    requires w.store.cluster.Some? && w.store.cluster.value.version == version
    requires w.store.statefulSet.Some? && |w.store.statefulSet.value.content.containers| > 0
    ensures var step := RunManager(w, version, status, image, effort);
            && step.error.None? && Rolled(w.store, step.world.store, image)
            && step.world.store.cluster.value.status
                 == status.(upgrade := Some(status.upgrade.value.(phase := "Completed")), currentImage := image)
  {
    IdleRead(w);
    var found := w.store.statefulSet.value;
    var started := WithPhase(status, "InProgress");
    IdleSend(w, UpdateStatus(version, started));
    var w1 := Send(w, UpdateStatus(version, started)).world;
    if CurrentImage(found.content) != image {
      IdleSend(w1, UpdateStatefulSet(found.version, found.controller, PatchImage(found.content, image)));
    }
    var w2 := PatchTemplate(w1, image, found, effort).world;
    IdleSend(w2, UpdateStatus(w1.store.clock, WithPhase(started, "Completed").(currentImage := image)));
  }

  /** The first container runs the image, and but for that and the status of the cluster object all is as before. */
  predicate Rolled(s: Store, s': Store, image: string)
    requires s.cluster.Some? && s.statefulSet.Some? && |s.statefulSet.value.content.containers| > 0
  {
    && s'.cluster.Some? && s'.statefulSet.Some?
    && s' == s.(clock := s'.clock, cluster := s'.cluster, statefulSet := s'.statefulSet)
    && s'.cluster.value
         == s.cluster.value.(version := s'.cluster.value.version, status := s'.cluster.value.status)
    && var before, after := s.statefulSet.value, s'.statefulSet.value;
       && after.controller == before.controller
       && |after.content.containers| == |before.content.containers|
       && after.content.containers[0] == before.content.containers[0].(image := image)
       && after.content.containers[1..] == before.content.containers[1..]
       && after.content.replicas == before.content.replicas && after.content.fixed == before.content.fixed
  }

  /** An undisturbed upgrade that the pods let through patches the first container's image and nothing else of the
      StatefulSet; it records its target where none was recorded, the phase Completed, and the new image. */
  lemma IdleUpgrade(w: World, i: Intent, effort: Effort)
    requires Idle(w) && effort.reachesPatch && effort.completes && w.store.cluster == Some(i.raw)
    requires w.store.statefulSet.Some? && |w.store.statefulSet.value.content.containers| > 0
    ensures var step := PerformRollingUpgrade(w, i, effort); var image := ImageAfterAnswer(i, effort);
            && step.error.None? && Rolled(w.store, step.world.store, image)
            && step.world.store.cluster.value.status == Upgraded(i.raw.status, i.image, image)
  {
    var image := ImageAfterAnswer(i, effort);
    if i.raw.status.upgrade.Some? {
      IdleManager(w, i.raw.version, i.raw.status, image, effort);
    } else {
      var status := i.raw.status.(upgrade := Some(UpgradeStatus(i.image, "Starting", 0, 0)));
      IdleSend(w, UpdateStatus(i.raw.version, status));
      var w1 := Send(w, UpdateStatus(i.raw.version, status)).world;
      IdleManager(w1, w1.store.clock, status, image, effort);
    }
  }
}
