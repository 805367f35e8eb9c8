/** The reconciler in its own form: methods that call the API server and change their in-memory copies step by
    step. Each does to the world exactly what its specification in ReconcileLoop says. */
module Controller {
  import opened Types
  import opened Validation
  import opened KeyDBConfig
  import opened CustomConfig
  import opened Comparators
  import opened Workload
  import opened Store
  import opened ReconcileLoop
  import opened ReconcileGates
  import opened Intents

  method SetDefaults(given: Spec) returns (spec: Spec)
    ensures spec == Defaulted(given)
  {
    spec := given;
    if spec.image == "" { spec := spec.(image := "eqalpha/keydb:latest"); }
    if spec.replicas == 0 { spec := spec.(replicas := 3); }
    if spec.storage.None? { spec := spec.(storage := Some(Storage("10Gi", ""))); }
    if spec.service.None? { spec := spec.(service := Some(ServiceSpec("ClusterIP", 6379))); }
    if spec.config.None? { spec := spec.(config := Some(Config("", true, None, None, None))); }
  }

  /** A range over a map: every entry once, in no particular order. */
  method RangeOver(custom: map<string, string>) returns (entries: Entries)
    ensures Enumerates(entries, custom)
  {
    entries := [];
    var rest := custom;
    while rest != map[]
      invariant forall key :: key in rest ==> key in custom && rest[key] == custom[key]
      invariant forall i :: 0 <= i < |entries| ==>
                  entries[i].0 in custom && entries[i].0 !in rest && custom[entries[i].0] == entries[i].1
      invariant forall key :: key in custom ==> key in rest || (key, custom[key]) in entries
      invariant forall i, j :: 0 <= i < j < |entries| ==> entries[i].0 != entries[j].0
      decreases |rest|
    {
      var key :| key in rest;
      entries := entries + [(key, rest[key])];
      assert (rest - {key}).Keys == rest.Keys - {key};
      rest := rest - {key};
    }
  }

  method WalkCustom(spec: Spec) returns (entries: Entries)
    ensures Walks(spec, entries)
  {
    entries := [];
    if spec.config.Some? && spec.config.value.custom.Some? {
      entries := RangeOver(spec.config.value.custom.value);
    }
  }

  /** The five comparisons of the first container: the stored container with every differing field replaced. */
  method UpdateContainer(current: Container, desired: Container) returns (updated: Container, needsUpdate: bool)
    ensures updated == MergeContainer(current, desired) && (needsUpdate <==> ContainerDiffers(current, desired))
  {
    updated, needsUpdate := current, false;
    if updated.image != desired.image {
      updated, needsUpdate := updated.(image := desired.image), true;
    }
    if !ResourcesEqual(updated.resources, desired.resources) {
      updated, needsUpdate := updated.(resources := desired.resources), true;
    }
    if !ProbesEqual(updated.readiness, desired.readiness) {
      updated, needsUpdate := updated.(readiness := desired.readiness), true;
    }
    if !ProbesEqual(updated.liveness, desired.liveness) {
      updated, needsUpdate := updated.(liveness := desired.liveness), true;
    }
    if !LifecyclesEqual(updated.lifecycle, desired.lifecycle) {
      updated, needsUpdate := updated.(lifecycle := desired.lifecycle), true;
    }
  }

  class Reconciler {
    const id: Identity
    var store: Store
    var turns: seq<Turn>
    ghost var trace: seq<Event>

    ghost function Now(): World
      reads this
    {
      World(id, store, turns, trace)
    }

    constructor (id: Identity, store: Store, turns: seq<Turn>)
      ensures Now() == World(id, store, turns, [])
    {
      this.id, this.store, this.turns, this.trace := id, store, turns, [];
    }

    // ---- the client ----

    /** Others act, and the next call meets its fault. */
    method NextTurn() returns (fault: Fault)
      modifies this
      ensures Now() == Pass(Arrive(old(Now()))) && fault == NextFault(old(Now()))
    {
      fault := Reliable;
      if turns != [] {
        var seen := turns[0].others(store);
        trace := trace + [Event(Others, store, seen)];
        store, fault, turns := seen, turns[0].fault, turns[1..];
      }
    }

    method Get() returns (error: Option<Error>)
      modifies this
      ensures Step(Now(), error) == Read(old(Now()))
    {
      var fault := NextTurn();
      error := match fault case Reliable => None case Refused(e) => Some(e) case ReplyLost => Some(Unavailable);
    }

    method Write(r: Request) returns (error: Option<Error>)
      modifies this
      ensures Step(Now(), error) == Send(old(Now()), r)
    {
      var fault := NextTurn();
      var before := store;
      match fault {
        case Refused(e) =>
          error := Some(e);
        case _ =>
          match Perform(store, r) {
            case Written(s) => store, error := s, None;
            case Declined(e) => error := Some(e);
          }
          if fault.ReplyLost? { error := Some(Unavailable); }
      }
      trace := trace + [Event(Operator(r, error), before, store)];
    }

    method GetCluster() returns (found: Lookup<Cluster>)
      modifies this
      ensures Now() == Read(old(Now())).world && found == Found(Read(old(Now())).error, store.cluster)
    {
      var error := Get();
      found := Found(error, store.cluster);
    }

    method GetConfigMap() returns (found: Lookup<Object<map<string, string>>>)
      modifies this
      ensures Now() == Read(old(Now())).world && found == Found(Read(old(Now())).error, store.configMap)
    {
      var error := Get();
      found := Found(error, store.configMap);
    }

    method GetStatefulSet() returns (found: Lookup<Object<StatefulSet>>)
      modifies this
      ensures Now() == Read(old(Now())).world && found == Found(Read(old(Now())).error, store.statefulSet)
    {
      var error := Get();
      found := Found(error, store.statefulSet);
    }

    // ---- the cluster object ----

    method HandleDeletion(c: Cluster) returns (error: Option<Error>)
      modifies this
      ensures Step(Now(), error) == ReconcileLoop.HandleDeletion(old(Now()), c)
    {
      if FINALIZER in c.finalizers {
        var remaining := Without(c.finalizers, FINALIZER);
        error := Write(UpdateCluster(c.version, remaining, c.spec));
      } else {
        error := None;
      }
    }

    // ---- children ----

    method ReconcileConfigMap(spec: Spec, me: Owner, entries: Entries, ghost i: Intent) returns (error: Option<Error>)
      requires i.me == me && i.data == ConfigData(spec, entries)
      modifies this
      ensures Step(Now(), error) == ReconcileLoop.ReconcileConfigMap(old(Now()), i)
    {
      var text := GenerateKeyDBConfig(spec, entries);
      var data := map["keydb.conf" := text];
      var found := GetConfigMap();
      match found {
        case Missing(e) =>
          if e != NotFound { return Some(e); }
          error := Write(CreateConfigMap(me, data));
        case Got(configMap) =>
          var controller := configMap.controller;
          if !ControlledBy(controller, me) {
            if Foreign(controller, me) { return Some(AlreadyOwned); }
            controller := Some(me);
          }
          if TextIn(configMap.content) != TextIn(data) {
            error := Write(UpdateConfigMap(configMap.version, controller, data));
          } else {
            error := None;
          }
      }
    }

    method ReconcileServices() returns (error: Option<Error>)
      modifies this
      ensures Step(Now(), error) == ReconcileLoop.ReconcileServices(old(Now()))
    {
      error := Get();
      if error == Some(NotFound) || (error.None? && !store.headless) {
        error := Write(CreateHeadless);
        if error.Some? { return; }
      } else if error.Some? {
        return;
      }
      error := Get();
      if error == Some(NotFound) || (error.None? && !store.client) {
        error := Write(CreateClient);
      }
    }

    method ReconcileBudget(spec: Spec, ghost i: Intent) returns (error: Option<Error>)
      requires i.budget == spec.budget.Some?
      modifies this
      ensures Step(Now(), error) == ReconcileLoop.ReconcileBudget(old(Now()), i)
    {
      if spec.budget.None? { return None; }
      error := Get();
      if error == Some(NotFound) || (error.None? && !store.budget) {
        error := Write(CreateBudget);
      }
    }

    method UpdateIfDifferent(found: Object<StatefulSet>, desired: StatefulSet) returns (error: Option<Error>)
      modifies this
      ensures Step(Now(), error) == ReconcileLoop.UpdateIfDifferent(old(Now()), found, desired)
    {
      var content, needsUpdate := found.content, false;
      if content.replicas != desired.replicas {
        content, needsUpdate := content.(replicas := desired.replicas), true;
      }
      if |content.containers| > 0 && |desired.containers| > 0 {
        var updated, differs := UpdateContainer(content.containers[0], desired.containers[0]);
        content := content.(containers := content.containers[0 := updated]);
        needsUpdate := needsUpdate || differs;
      }
      if !needsUpdate { return None; }
      error := Write(UpdateStatefulSet(found.version, found.controller, content));
    }

    method ReconcileStatefulSet(spec: Spec, me: Owner, ghost i: Intent) returns (error: Option<Error>)
      requires spec.storage.Some? && i.me == me && i.desired == DesiredStatefulSet(spec, id)
      modifies this
      ensures Step(Now(), error) == ReconcileLoop.ReconcileStatefulSet(old(Now()), i)
    {
      var desired := NewStatefulSet(spec, id);
      var found := GetStatefulSet();
      match found {
        case Missing(e) =>
          if e != NotFound { return Some(e); }
          error := Write(CreateStatefulSet(me, desired));
        case Got(statefulSet) =>
          if !ControlledBy(statefulSet.controller, me) {
            if Foreign(statefulSet.controller, me) { return Some(AlreadyOwned); }
            error := Write(UpdateStatefulSet(statefulSet.version, Some(me), statefulSet.content));
            if error.Some? { return; }
            statefulSet := Object(store.clock, Some(me), statefulSet.content);
          }
          error := UpdateIfDifferent(statefulSet, desired);
      }
    }

    // ---- upgrades ----

    method CheckUpgradeNeeded(image: string) returns (needed: bool, error: Option<Error>)
      modifies this
      ensures UpgradeCheck(Now(), error, needed) == ReconcileLoop.CheckUpgradeNeeded(old(Now()), image)
    {
      var found := GetStatefulSet();
      match found {
        case Missing(e) =>
          needed := false;
          error := if e == NotFound then None else Some(e);
        case Got(statefulSet) =>
          var currentImage := "";
          if |statefulSet.content.containers| > 0 { currentImage := statefulSet.content.containers[0].image; }
          needed, error := currentImage != image, None;
      }
    }

    /** The upgrade manager's writes outside the pods. */
    method RunManager(version: nat, given: Status, image: string, effort: Effort) returns (error: Option<Error>)
      modifies this
      ensures Step(Now(), error) == ReconcileLoop.RunManager(old(Now()), version, given, image, effort)
    {
      var found := GetStatefulSet();
      if found.Missing? { return Some(found.error); }
      var status := WithPhase(given, "InProgress");
      error := Write(UpdateStatus(version, status));
      if error.Some? { return; }
      var known := store.clock;
      if effort.reachesPatch && CurrentImage(found.value.content) != image {
        var patched := PatchImage(found.value.content, image);
        error := Write(UpdateStatefulSet(found.value.version, found.value.controller, patched));
      }
      if error.None? && effort.completes {
        status := WithPhase(status, "Completed");
        status := status.(currentImage := image);
        error := Write(UpdateStatus(known, status));
      } else {
        status := WithPhase(status, "Failed");
        var _ := Write(UpdateStatus(known, status));
        error := Some(UpgradeFailed);
      }
    }

    method PerformRollingUpgrade(raw: Cluster, image: string, effort: Effort, ghost i: Intent)
      returns (error: Option<Error>)
      requires i.raw == raw && i.image == image
      modifies this
      ensures Step(Now(), error) == ReconcileLoop.PerformRollingUpgrade(old(Now()), i, effort)
    {
      var answered := if effort.defaultsSurvive then image else raw.spec.image;
      if raw.status.upgrade.None? {
        var status := raw.status.(upgrade := Some(UpgradeStatus(image, "Starting", 0, 0)));
        error := Write(UpdateStatus(raw.version, status));
        if error.Some? { return; }
        error := RunManager(store.clock, status, answered, effort);
      } else {
        error := RunManager(raw.version, raw.status, answered, effort);
      }
    }

    // ---- status ----

    method UpdateObservedStatus(latest: Cluster) returns (error: Option<Error>)
      modifies this
      ensures Step(Now(), error) == UpdateObserved(old(Now()), latest)
    {
      var found := GetStatefulSet();
      if found.Missing? { return Some(found.error); }
      var status := latest.status.(replicas := store.observedReplicas);
      status := status.(readyReplicas := store.observedReady);
      if status.readyReplicas == 0 {
        status := status.(phase := Pending);
      } else if status.readyReplicas == status.replicas {
        status := status.(phase := Running);
      } else {
        status := status.(phase := Pending);
      }
      var condition := ReadyCondition(false, "NotReady");
      if status.phase == Running {
        condition := ReadyCondition(true, "Ready");
      }
      status := status.(conditions := [condition]);
      error := Write(UpdateStatus(latest.version, status));
    }

    method UpdateStatusWithRetry() returns (error: Option<Error>)
      modifies this
      ensures Step(Now(), error) == StatusFrom(old(Now()), 0)
    {
      for i := 0 to 3
        invariant StatusFrom(Now(), i) == StatusFrom(old(Now()), 0)
      {
        var found := GetCluster();
        if found.Missing? { return Some(found.error); }
        error := UpdateObservedStatus(found.value);
        if error == Some(Conflict) && i < 2 { continue; }
        return;
      }
      error := Some(RetriesExhausted);
    }

    // ---- the whole ----

    method ReconcileChildren(spec: Spec, me: Owner, entries: Entries, ghost i: Intent) returns (error: Option<Error>)
      requires spec.storage.Some? && i.me == me && i.data == ConfigData(spec, entries)
      requires i.budget == spec.budget.Some? && i.desired == DesiredStatefulSet(spec, id)
      modifies this
      ensures Step(Now(), error) == ReconcileLoop.Children(old(Now()), i)
    {
      error := ReconcileConfigMap(spec, me, entries, i);
      if error.Some? { return; }
      error := ReconcileServices();
      if error.Some? { return; }
      error := ReconcileBudget(spec, i);
      if error.Some? { return; }
      error := ReconcileStatefulSet(spec, me, i);
    }

    method FollowUp(raw: Cluster, image: string, effort: Effort, ghost i: Intent) returns (error: Option<Error>)
      requires i.raw == raw && i.image == image
      modifies this
      ensures Step(Now(), error) == Follow(old(Now()), i, effort)
    {
      var upgradeNeeded;
      upgradeNeeded, error := CheckUpgradeNeeded(image);
      if error.Some? { return; }
      if upgradeNeeded {
        error := PerformRollingUpgrade(raw, image, effort, i);
      } else {
        error := UpdateStatusWithRetry();
      }
    }

    /** Defaults, and the order in which this run ranges over the custom map. */
    method ReconcilePresent(raw: Cluster, effort: Effort) returns (error: Option<Error>, ghost entries: Entries)
      requires Marked(raw) && !raw.deleting
      modifies this
      ensures Step(Now(), error) == Act(old(Now()), IntentOf(id, raw, entries), effort)
      ensures Walks(Defaulted(raw.spec), entries)
    {
      var spec := SetDefaults(raw.spec);
      var order := WalkCustom(spec);
      entries := order;
      error := ReconcileDefaulted(raw, order, spec, effort, IntentFor(id, raw, spec, order));
    }

    /** Validation, children, and then an upgrade or the status. */
    method ReconcileDefaulted(raw: Cluster, entries: Entries, spec: Spec, effort: Effort, ghost i: Intent)
      returns (error: Option<Error>)
      requires Marked(raw) && !raw.deleting && spec.storage.Some?
      requires i.raw == raw && i.verdict == Validate(spec) && i.me == Me(id, raw) && i.image == spec.image
      requires i.data == ConfigData(spec, entries) && i.budget == spec.budget.Some?
      requires i.desired == DesiredStatefulSet(spec, id)
      modifies this
      ensures Step(Now(), error) == Act(old(Now()), i, effort)
    {
      var verdict := Validate(spec);
      if verdict.Some? {
        var _ := Write(UpdateStatus(raw.version, raw.status.(phase := Failed)));
        return Some(Rejected(verdict.value));
      }
      error := ReconcileChildren(spec, Me(id, raw), entries, i);
      if error.Some? { return; }
      error := FollowUp(raw, spec.image, effort, i);
    }

    /** The deletion and finalizer gates. */
    method ReconcileFound(raw: Cluster, effort: Effort) returns (error: Option<Error>, ghost entries: Entries)
      modifies this
      ensures Step(Now(), error) == Act(old(Now()), IntentOf(id, raw, entries), effort)
      ensures !raw.deleting && Marked(raw) ==> Walks(Defaulted(raw.spec), entries)
    {
      entries := [];
      if raw.deleting {
        error := HandleDeletion(raw);
      } else if FINALIZER !in raw.finalizers {
        error := Write(UpdateCluster(raw.version, raw.finalizers + [FINALIZER], raw.spec));
      } else {
        error, entries := ReconcilePresent(raw, effort);
      }
    }

    /** Reconcile. The order in which it ranges over the custom map is returned for the specification. */
    method Reconcile(effort: Effort) returns (error: Option<Error>, ghost entries: Entries)
      modifies this
      ensures Step(Now(), error) == ReconcileLoop.Reconcile(old(Now()), OperatorIntents(id, entries), effort)
      ensures match Snapshot(old(Now()))
              case Some(raw) => !raw.deleting && Marked(raw) ==> Walks(Defaulted(raw.spec), entries)
              case None => true
    {
      entries := [];
      var found := GetCluster();
      if found.Missing? {
        error := if found.error == NotFound then None else Some(found.error);
        return;
      }
      error, entries := ReconcileFound(found.value, effort);
    }
  }
}
