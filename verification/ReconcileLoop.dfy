/** What one Reconcile does to the world, call by call, as functions: the specification of the Controller
    module's methods. They work with any generator of desired objects; Intents has the operator's. */
module ReconcileLoop {
  import opened Types
  import opened Validation
  import opened Comparators
  import opened Workload
  import opened Store

  /** All that a run computes from the cluster object it read: the validator's verdict and itself as an owner, and
      the image, data, and objects it wants. */
  datatype Intent = Intent(raw: Cluster, verdict: Verdict, me: Owner, image: string, data: map<string, string>,
                           budget: bool, desired: StatefulSet)

  type Generator = Cluster -> Intent

  // ---- ownership ----

  predicate ControlledBy(controller: Option<Owner>, me: Owner) { controller.Some? && controller.value.uid == me.uid }

  /** SetControllerReference refuses an object whose controller is of another kind or name. */
  predicate Foreign(controller: Option<Owner>, me: Owner) {
    controller.Some? && (controller.value.kind != me.kind || controller.value.name != me.name)
  }

  predicate Unadoptable(controller: Option<Owner>, me: Owner) {
    !ControlledBy(controller, me) && Foreign(controller, me)
  }

  function Adopted(controller: Option<Owner>, me: Owner): Option<Owner> {
    if ControlledBy(controller, me) then controller else Some(me)
  }

  // ---- the cluster object itself ----

  function Without(finalizers: seq<string>, name: string): (r: seq<string>)
    ensures name !in r && forall f :: f != name ==> (f in r <==> f in finalizers)
  {
    if finalizers == [] then []
    else if finalizers[0] == name then Without(finalizers[1..], name)
    else [finalizers[0]] + Without(finalizers[1..], name)
  }

  function HandleDeletion(w: World, c: Cluster): Step {
    if Marked(c) then Send(w, UpdateCluster(c.version, Without(c.finalizers, FINALIZER), c.spec)) else Step(w, None)
  }

  // ---- children ----

  function TextIn(data: map<string, string>): string { if "keydb.conf" in data then data["keydb.conf"] else "" }

  function ReconcileConfigMap(w: World, i: Intent): Step {
    var Step(w1, e) := Read(w);
    match Found(e, w1.store.configMap)
    case Missing(error) => if error == NotFound then Send(w1, CreateConfigMap(i.me, i.data)) else Step(w1, Some(error))
    case Got(found) =>
      if Unadoptable(found.controller, i.me) then Step(w1, Some(AlreadyOwned))
      else if TextIn(found.content) != TextIn(i.data) then
        Send(w1, UpdateConfigMap(found.version, Adopted(found.controller, i.me), i.data))
      else Step(w1, None)
  }

  /** Get, and create when missing: all that is done for Services and the budget. */
  function EnsureExists(w: World, present: Store -> bool, create: Request): Step {
    var Step(w1, e) := Read(w);
    if e.None? && present(w1.store) then Step(w1, None)
    else if e.None? || e.value == NotFound then Send(w1, create)
    else Step(w1, e)
  }

  function HasHeadless(s: Store): bool { s.headless }
  function HasClient(s: Store): bool { s.client }
  function HasBudget(s: Store): bool { s.budget }

  function ReconcileServices(w: World): Step {
    var Step(w1, e) := EnsureExists(w, HasHeadless, CreateHeadless);
    if e.Some? then Step(w1, e) else EnsureExists(w1, HasClient, CreateClient)
  }

  function ReconcileBudget(w: World, i: Intent): Step {
    if !i.budget then Step(w, None) else EnsureExists(w, HasBudget, CreateBudget)
  }

  // ---- the StatefulSet ----

  predicate ContainerDiffers(a: Container, b: Container) {
    || a.image != b.image || !ResourcesEqual(a.resources, b.resources)
    || !ProbesEqual(a.readiness, b.readiness) || !ProbesEqual(a.liveness, b.liveness)
    || !LifecyclesEqual(a.lifecycle, b.lifecycle)
  }

  function MergeContainer(a: Container, b: Container): Container {
    a.(image := b.image,
       resources := if ResourcesEqual(a.resources, b.resources) then a.resources else b.resources,
       readiness := if ProbesEqual(a.readiness, b.readiness) then a.readiness else b.readiness,
       liveness := if ProbesEqual(a.liveness, b.liveness) then a.liveness else b.liveness,
       lifecycle := if LifecyclesEqual(a.lifecycle, b.lifecycle) then a.lifecycle else b.lifecycle)
  }

  predicate Differs(found: StatefulSet, desired: StatefulSet) {
    || found.replicas != desired.replicas
    || (|found.containers| > 0 && |desired.containers| > 0
        && ContainerDiffers(found.containers[0], desired.containers[0]))
  }

  function Merge(found: StatefulSet, desired: StatefulSet): StatefulSet {
    var f := found.(replicas := desired.replicas);
    if |found.containers| > 0 && |desired.containers| > 0
    then f.(containers := found.containers[0 := MergeContainer(found.containers[0], desired.containers[0])])
    else f
  }

  function UpdateIfDifferent(w: World, found: Object<StatefulSet>, desired: StatefulSet): Step {
    if Differs(found.content, desired)
    then Send(w, UpdateStatefulSet(found.version, found.controller, Merge(found.content, desired)))
    else Step(w, None)
  }

  function ReconcileStatefulSet(w: World, i: Intent): Step {
    var Step(w1, e) := Read(w);
    match Found(e, w1.store.statefulSet)
    case Missing(error) =>
      if error == NotFound then Send(w1, CreateStatefulSet(i.me, i.desired)) else Step(w1, Some(error))
    case Got(found) => FoundStatefulSet(w1, found, i.me, i.desired)
  }

  /** Adopt it first, in a write of its own, if it is nobody's. */
  function FoundStatefulSet(w: World, found: Object<StatefulSet>, me: Owner, desired: StatefulSet): Step {
    if ControlledBy(found.controller, me) then UpdateIfDifferent(w, found, desired)
    else if Foreign(found.controller, me) then Step(w, Some(AlreadyOwned))
    else
      var Step(w1, e) := Send(w, UpdateStatefulSet(found.version, Some(me), found.content));
      if e.Some? then Step(w1, e)
      else UpdateIfDifferent(w1, Object(w1.store.clock, Some(me), found.content), desired)
  }

  // ---- upgrades ----

  function CurrentImage(sts: StatefulSet): string { if |sts.containers| > 0 then sts.containers[0].image else "" }

  datatype UpgradeCheck = UpgradeCheck(world: World, error: Option<Error>, needed: bool)

  function CheckUpgradeNeeded(w: World, image: string): UpgradeCheck {
    var Step(w1, e) := Read(w);
    match Found(e, w1.store.statefulSet)
    case Missing(error) => UpgradeCheck(w1, if error == NotFound then None else Some(error), false)
    case Got(found) => UpgradeCheck(w1, None, CurrentImage(found.content) != image)
  }

  /** How far the pods let the upgrade manager come: to the patch of the template, and to the end. And whether the
      defaults survive in the in-memory object when a status write has answered with the stored one. */
  datatype Effort = Effort(reachesPatch: bool, completes: bool, defaultsSurvive: bool)

  function PatchImage(sts: StatefulSet, image: string): StatefulSet {
    if |sts.containers| > 0 then sts.(containers := sts.containers[0 := sts.containers[0].(image := image)]) else sts
  }

  function WithPhase(status: Status, phase: string): Status {
    match status.upgrade case None => status case Some(u) => status.(upgrade := Some(u.(phase := phase)))
  }

  /** The writes of the upgrade manager outside the pods; what it does with the pods is the UpgradeManager
      module's subject. `version` and `status` are the manager's copy of the cluster object. */
  function RunManager(w: World, version: nat, status: Status, image: string, effort: Effort): Step {
    var Step(w1, e) := Read(w);
    match Found(e, w1.store.statefulSet)
    case Missing(error) => Step(w1, Some(error))
    case Got(found) =>
      var started := WithPhase(status, "InProgress");
      var Step(w2, e2) := Send(w1, UpdateStatus(version, started));
      if e2.Some? then Step(w2, e2) else Upgrade(w2, w2.store.clock, started, image, found, effort)
  }

  function Upgrade(w: World, version: nat, status: Status, image: string, found: Object<StatefulSet>,
                   effort: Effort): Step
  {
    var Step(w1, e) := PatchTemplate(w, image, found, effort);
    if e.None? && effort.completes
    then Send(w1, UpdateStatus(version, WithPhase(status, "Completed").(currentImage := image)))
    else Step(Send(w1, UpdateStatus(version, WithPhase(status, "Failed"))).world, Some(UpgradeFailed))
  }

  function PatchTemplate(w: World, image: string, found: Object<StatefulSet>, effort: Effort): Step {
    if effort.reachesPatch && CurrentImage(found.content) != image
    then Send(w, UpdateStatefulSet(found.version, found.controller, PatchImage(found.content, image)))
    else Step(w, None)
  }

  /** The image in the in-memory object once a status write has been answered. */
  function ImageAfterAnswer(i: Intent, effort: Effort): string {
    if effort.defaultsSurvive then i.image else i.raw.spec.image
  }

  /** The manager looks at the image only after its own first status write, so whether there was one before makes
      no difference. */
  function PerformRollingUpgrade(w: World, i: Intent, effort: Effort): Step {
    if i.raw.status.upgrade.Some? then
      RunManager(w, i.raw.version, i.raw.status, ImageAfterAnswer(i, effort), effort)
    else
      var status := i.raw.status.(upgrade := Some(UpgradeStatus(i.image, "Starting", 0, 0)));
      var Step(w1, e) := Send(w, UpdateStatus(i.raw.version, status));
      if e.Some? then Step(w1, e) else RunManager(w1, w1.store.clock, status, ImageAfterAnswer(i, effort), effort)
  }

  // ---- status ----

  function Phased(replicas: int32, ready: int32): ClusterPhase {
    if ready == 0 then Pending else if ready == replicas then Running else Pending
  }

  function Observed(status: Status, replicas: int32, ready: int32): Status {
    var phase := Phased(replicas, ready);
    status.(replicas := replicas, readyReplicas := ready, phase := phase,
            conditions := [if phase == Running then ReadyCondition(true, "Ready")
                           else ReadyCondition(false, "NotReady")])
  }

  function UpdateObserved(w: World, latest: Cluster): Step {
    var Step(w1, e) := Read(w);
    match Found(e, w1.store.statefulSet)
    case Missing(error) => Step(w1, Some(error))
    case Got(_) =>
      Send(w1, UpdateStatus(latest.version, Observed(latest.status, w1.store.observedReplicas, w1.store.observedReady)))
  }

  /** updateStatusWithRetry from attempt i on. */
  function StatusFrom(w: World, i: nat): Step
    decreases 3 - i
  {
    if i >= 3 then Step(w, Some(RetriesExhausted))
    else
      var Step(w1, e) := Read(w);
      match Found(e, w1.store.cluster)
      case Missing(error) => Step(w1, Some(error))
      case Got(latest) =>
        var Step(w2, e2) := UpdateObserved(w1, latest);
        if e2 == Some(Conflict) && i < 2 then StatusFrom(w2, i + 1) else Step(w2, e2)
  }

  // ---- the whole ----

  function Children(w: World, i: Intent): Step {
    var Step(w1, e1) := ReconcileConfigMap(w, i);
    if e1.Some? then Step(w1, e1)
    else
      var Step(w2, e2) := ReconcileServices(w1);
      if e2.Some? then Step(w2, e2)
      else
        var Step(w3, e3) := ReconcileBudget(w2, i);
        if e3.Some? then Step(w3, e3) else ReconcileStatefulSet(w3, i)
  }

  /** After the children: an upgrade or the status. */
  function Follow(w: World, i: Intent, effort: Effort): Step {
    var UpgradeCheck(w1, e, needed) := CheckUpgradeNeeded(w, i.image);
    if e.Some? then Step(w1, e)
    else if needed then PerformRollingUpgrade(w1, i, effort)
    else StatusFrom(w1, 0)
  }

  function ActOnChildren(w: World, i: Intent, effort: Effort): Step {
    var Step(w1, e) := Children(w, i);
    if e.Some? then Step(w1, e) else Follow(w1, i, effort)
  }

  /** What Reconcile does with the object it read. */
  function Act(w: World, i: Intent, effort: Effort): Step {
    if i.raw.deleting then HandleDeletion(w, i.raw)
    else if !Marked(i.raw) then Send(w, UpdateCluster(i.raw.version, i.raw.finalizers + [FINALIZER], i.raw.spec))
    else if i.verdict.Some? then
      Step(Send(w, UpdateStatus(i.raw.version, i.raw.status.(phase := Failed))).world, Some(Rejected(i.verdict.value)))
    else ActOnChildren(w, i, effort)
  }

  function Reconcile(w: World, generate: Generator, effort: Effort): Step {
    var Step(w1, e) := Read(w);
    match Found(e, w1.store.cluster)
    case Missing(error) => Step(w1, if error == NotFound then None else Some(error))
    case Got(raw) => Act(w1, generate(raw), effort)
  }
}
