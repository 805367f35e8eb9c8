/** Every run of Reconcile, whatever other writers do meanwhile and whichever calls fail, sends only sanctioned
    writes; what follows from that about gates, deletion and lost updates. */
module ReconcileGates {
  import opened Types
  import opened Workload
  import opened Store
  import opened ReconcileLoop
  import opened ReconcileTrace

  // ---- children ----

  lemma ConfigMapFollows(w: World, i: Intent)
    requires Sound(w) && Gated(i)
    ensures Follows(w, ReconcileConfigMap(w, i).world, i)
  {
    ReadFollows(w, i);
    var w1, e := Read(w).world, Read(w).error;
    match Found(e, w1.store.configMap) {
      case Missing(error) =>
        if error == NotFound {
          SendFollows(w1, CreateConfigMap(i.me, i.data), i);
          FollowsTrans(w, w1, Send(w1, CreateConfigMap(i.me, i.data)).world, i);
        }
      case Got(found) =>
        if !Unadoptable(found.controller, i.me) && TextIn(found.content) != TextIn(i.data) {
          var r := UpdateConfigMap(found.version, Adopted(found.controller, i.me), i.data);
          forall s | Lawful(w1.store, s) ensures Allowed(i, r, s) {
          }
          SendFollows(w1, r, i);
          FollowsTrans(w, w1, Send(w1, r).world, i);
        }
    }
  }

  lemma EnsureFollows(w: World, present: Store -> bool, create: Request, i: Intent)
    requires Sound(w) && forall s :: Allowed(i, create, s)
    ensures Follows(w, EnsureExists(w, present, create).world, i)
  {
    ReadFollows(w, i);
    var w1 := Read(w).world;
    SendFollows(w1, create, i);
    FollowsTrans(w, w1, Send(w1, create).world, i);
  }

  lemma ServicesFollow(w: World, i: Intent)
    requires Sound(w) && Gated(i)
    ensures Follows(w, ReconcileServices(w).world, i)
  {
    EnsureFollows(w, HasHeadless, CreateHeadless, i);
    var w1 := EnsureExists(w, HasHeadless, CreateHeadless).world;
    EnsureFollows(w1, HasClient, CreateClient, i);
    FollowsTrans(w, w1, EnsureExists(w1, HasClient, CreateClient).world, i);
  }

  lemma BudgetFollows(w: World, i: Intent)
    requires Sound(w) && Gated(i)
    ensures Follows(w, ReconcileBudget(w, i).world, i)
  {
    if !i.budget { FollowsRefl(w, i); } else { EnsureFollows(w, HasBudget, CreateBudget, i); }
  }

  /** The stored object under this version is this one. */
  predicate Pins(s: Store, found: Object<StatefulSet>) {
    found.version <= s.clock
    && (s.statefulSet.Some? && s.statefulSet.value.version == found.version ==> s.statefulSet.value == found)
  }

  lemma UpdateFollows(w: World, found: Object<StatefulSet>, controller: Option<Owner>, updated: StatefulSet, i: Intent)
    requires Sound(w) && Gated(i) && Pins(w.store, found) && Intended(i, found.content, updated)
    requires controller == found.controller || (controller == Some(i.me) && !Unadoptable(found.controller, i.me))
    ensures Follows(w, Send(w, UpdateStatefulSet(found.version, controller, updated)).world, i)
  {
    var r := UpdateStatefulSet(found.version, controller, updated);
    forall s | Lawful(w.store, s) ensures Allowed(i, r, s) {
      assert Pins(s, found);
    }
    SendFollows(w, r, i);
  }

  lemma UpdateIfDifferentFollows(w: World, found: Object<StatefulSet>, i: Intent)
    requires Sound(w) && Gated(i) && Pins(w.store, found)
    ensures Follows(w, UpdateIfDifferent(w, found, i.desired).world, i)
  {
    FollowsRefl(w, i);
    UpdateFollows(w, found, found.controller, Merge(found.content, i.desired), i);
  }

  /** A write that was answered with success is stored as sent. */
  lemma SendSucceeds(w: World, r: Request)
    requires Send(w, r).error.None?
    ensures Perform(Arrive(w).store, r) == Written(Send(w, r).world.store)
  {
  }

  lemma StatefulSetFollows(w: World, i: Intent)
    requires Sound(w) && Gated(i)
    ensures Follows(w, ReconcileStatefulSet(w, i).world, i)
  {
    ReadFollows(w, i);
    var w1, e := Read(w).world, Read(w).error;
    match Found(e, w1.store.statefulSet) {
      case Missing(error) =>
        if error == NotFound {
          SendFollows(w1, CreateStatefulSet(i.me, i.desired), i);
          FollowsTrans(w, w1, Send(w1, CreateStatefulSet(i.me, i.desired)).world, i);
        }
      case Got(found) =>
        FoundStatefulSetFollows(w1, found, i);
        FollowsTrans(w, w1, FoundStatefulSet(w1, found, i.me, i.desired).world, i);
    }
  }

  lemma FoundStatefulSetFollows(w: World, found: Object<StatefulSet>, i: Intent)
    requires Sound(w) && Gated(i) && Pins(w.store, found)
    ensures Follows(w, FoundStatefulSet(w, found, i.me, i.desired).world, i)
  {
    if ControlledBy(found.controller, i.me) {
      UpdateIfDifferentFollows(w, found, i);
    } else if Foreign(found.controller, i.me) {
      FollowsRefl(w, i);
    } else {
      var r := UpdateStatefulSet(found.version, Some(i.me), found.content);
      UpdateFollows(w, found, Some(i.me), found.content, i);
      var w2 := Send(w, r).world;
      if Send(w, r).error.None? {
        SendSucceeds(w, r);
        var adopted := Object(w2.store.clock, Some(i.me), found.content);
        UpdateIfDifferentFollows(w2, adopted, i);
        FollowsTrans(w, w2, UpdateIfDifferent(w2, adopted, i.desired).world, i);
      }
    }
  }

  lemma ChildrenFollow(w: World, i: Intent)
    requires Sound(w) && Gated(i)
    ensures Follows(w, ReconcileLoop.Children(w, i).world, i)
  {
    ConfigMapFollows(w, i);
    var w1 := ReconcileConfigMap(w, i).world;
    if ReconcileConfigMap(w, i).error.None? {
      ServicesFollow(w1, i);
      var w2 := ReconcileServices(w1).world;
      FollowsTrans(w, w1, w2, i);
      if ReconcileServices(w1).error.None? {
        BudgetFollows(w2, i);
        var w3 := ReconcileBudget(w2, i).world;
        FollowsTrans(w, w2, w3, i);
        StatefulSetFollows(w3, i);
        FollowsTrans(w, w3, ReconcileStatefulSet(w3, i).world, i);
      }
    }
  }

  // ---- status and upgrades ----

  /** The stored cluster under this version has this status. */
  predicate KnowsStatus(s: Store, version: nat, status: Status) {
    && version <= s.clock
    && (s.cluster.Some? && s.cluster.value.version == version ==> s.cluster.value.status == status)
  }

  lemma StatusFollows(w: World, version: nat, known: Status, status: Status, i: Intent)
    requires Sound(w) && KnowsStatus(w.store, version, known) && OneConcern(i, known, status)
    requires !i.raw.deleting && Marked(i.raw)
    ensures var step := Send(w, UpdateStatus(version, status));
            && Follows(w, step.world, i)
            && (step.error.None? ==> KnowsStatus(step.world.store, step.world.store.clock, status))
  {
    var r := UpdateStatus(version, status);
    forall s | Lawful(w.store, s) ensures Allowed(i, r, s) && KnowsStatus(s, version, known) {
    }
    SendFollows(w, r, i);
    ArriveIsLawful(w);
    if Send(w, r).error.None? { SendSucceeds(w, r); }
  }

  lemma ObservedFollows(w: World, latest: Cluster, i: Intent)
    requires Sound(w) && KnowsStatus(w.store, latest.version, latest.status) && !i.raw.deleting && Marked(i.raw)
    ensures Follows(w, UpdateObserved(w, latest).world, i)
  {
    ReadFollows(w, i);
    var w1 := Read(w).world;
    if Found(Read(w).error, w1.store.statefulSet).Got? {
      assert KnowsStatus(w1.store, latest.version, latest.status);
      var status := Observed(latest.status, w1.store.observedReplicas, w1.store.observedReady);
      StatusFollows(w1, latest.version, latest.status, status, i);
      FollowsTrans(w, w1, Send(w1, UpdateStatus(latest.version, status)).world, i);
    }
  }

  lemma {:induction false} RetryFollows(w: World, attempt: nat, i: Intent)
    requires Sound(w) && !i.raw.deleting && Marked(i.raw)
    ensures Follows(w, StatusFrom(w, attempt).world, i)
    decreases 3 - attempt
  {
    if attempt >= 3 {
      FollowsRefl(w, i);
    } else {
      ReadFollows(w, i);
      var w1 := Read(w).world;
      match Found(Read(w).error, w1.store.cluster)
      case Missing(_) =>
      case Got(latest) =>
        ObservedFollows(w1, latest, i);
        var w2 := UpdateObserved(w1, latest).world;
        FollowsTrans(w, w1, w2, i);
        RetryFollows(w2, attempt + 1, i);
        FollowsTrans(w, w2, StatusFrom(w2, attempt + 1).world, i);
    }
  }

  lemma PatchFollows(w: World, image: string, found: Object<StatefulSet>, effort: Effort, i: Intent)
    requires Sound(w) && Gated(i) && Pins(w.store, found) && image in {i.raw.spec.image, i.image}
    ensures Follows(w, PatchTemplate(w, image, found, effort).world, i)
  {
    FollowsRefl(w, i);
    UpdateFollows(w, found, found.controller, PatchImage(found.content, image), i);
  }

  lemma UpgradeFollows(w: World, version: nat, status: Status, image: string, found: Object<StatefulSet>,
                       effort: Effort, i: Intent)
    requires Sound(w) && Gated(i) && Pins(w.store, found) && image in {i.raw.spec.image, i.image}
    requires KnowsStatus(w.store, version, status) && status.upgrade.Some?
    ensures Follows(w, Upgrade(w, version, status, image, found, effort).world, i)
  {
    PatchFollows(w, image, found, effort, i);
    var w1 := PatchTemplate(w, image, found, effort).world;
    var done, failed := WithPhase(status, "Completed").(currentImage := image), WithPhase(status, "Failed");
    StatusFollows(w1, version, status, done, i);
    StatusFollows(w1, version, status, failed, i);
    FollowsTrans(w, w1, Send(w1, UpdateStatus(version, done)).world, i);
    FollowsTrans(w, w1, Send(w1, UpdateStatus(version, failed)).world, i);
  }

  lemma ManagerFollows(w: World, version: nat, status: Status, image: string, effort: Effort, i: Intent)
    requires Sound(w) && Gated(i) && KnowsStatus(w.store, version, status) && image in {i.raw.spec.image, i.image}
    requires status.upgrade.Some?
    ensures Follows(w, RunManager(w, version, status, image, effort).world, i)
  {
    ReadFollows(w, i);
    var w1 := Read(w).world;
    match Found(Read(w).error, w1.store.statefulSet)
    case Missing(_) =>
    case Got(found) =>
      var started := WithPhase(status, "InProgress");
      StatusFollows(w1, version, status, started, i);
      var step := Send(w1, UpdateStatus(version, started));
      var w2 := step.world;
      FollowsTrans(w, w1, w2, i);
      if step.error.None? {
        UpgradeFollows(w2, w2.store.clock, started, image, found, effort, i);
        FollowsTrans(w, w2, Upgrade(w2, w2.store.clock, started, image, found, effort).world, i);
      }
  }

  lemma RollingUpgradeFollows(w: World, effort: Effort, i: Intent)
    requires Sound(w) && Gated(i) && KnowsStatus(w.store, i.raw.version, i.raw.status)
    ensures Follows(w, PerformRollingUpgrade(w, i, effort).world, i)
  {
    if i.raw.status.upgrade.Some? {
      ManagerFollows(w, i.raw.version, i.raw.status, ImageAfterAnswer(i, effort), effort, i);
    } else {
      var status := i.raw.status.(upgrade := Some(UpgradeStatus(i.image, "Starting", 0, 0)));
      StatusFollows(w, i.raw.version, i.raw.status, status, i);
      var step := Send(w, UpdateStatus(i.raw.version, status));
      var w1 := step.world;
      if step.error.None? {
        ManagerFollows(w1, w1.store.clock, status, ImageAfterAnswer(i, effort), effort, i);
        FollowsTrans(w, w1, RunManager(w1, w1.store.clock, status, ImageAfterAnswer(i, effort), effort).world, i);
      }
    }
  }

  lemma FollowFollows(w: World, effort: Effort, i: Intent)
    requires Sound(w) && Gated(i) && KnowsStatus(w.store, i.raw.version, i.raw.status)
    ensures Follows(w, Follow(w, i, effort).world, i)
  {
    ReadFollows(w, i);
    var w1 := CheckUpgradeNeeded(w, i.image).world;
    RollingUpgradeFollows(w1, effort, i);
    FollowsTrans(w, w1, PerformRollingUpgrade(w1, i, effort).world, i);
    RetryFollows(w1, 0, i);
    FollowsTrans(w, w1, StatusFrom(w1, 0).world, i);
  }

  // ---- the whole ----

  lemma OwnWriteFollows(w: World, r: Request, i: Intent)
    requires Sound(w) && w.store.cluster == Some(i.raw) && r.UpdateCluster? && Allowed(i, r, w.store)
    requires r.version == i.raw.version
    ensures Follows(w, Send(w, r).world, i)
  {
    SendFollows(w, r, i);
  }

  lemma ActFollows(w: World, i: Intent, effort: Effort)
    requires Sound(w) && w.store.cluster == Some(i.raw)
    ensures Follows(w, Act(w, i, effort).world, i)
  {
    FollowsRefl(w, i);
    if i.raw.deleting {
      if Marked(i.raw) {
        OwnWriteFollows(w, UpdateCluster(i.raw.version, Without(i.raw.finalizers, FINALIZER), i.raw.spec), i);
      }
    } else if !Marked(i.raw) {
      OwnWriteFollows(w, UpdateCluster(i.raw.version, i.raw.finalizers + [FINALIZER], i.raw.spec), i);
    } else if i.verdict.Some? {
      StatusFollows(w, i.raw.version, i.raw.status, i.raw.status.(phase := Failed), i);
    } else {
      ChildrenFollow(w, i);
      var w1 := ReconcileLoop.Children(w, i).world;
      FollowFollows(w1, effort, i);
      FollowsTrans(w, w1, Follow(w1, i, effort).world, i);
    }
  }

  /** The generator keeps the snapshot in the intent. */
  ghost predicate Faithful(generate: Generator) { forall raw :: generate(raw).raw == raw }

  /** What the first call of a run finds, if it finds the cluster object. */
  function Snapshot(w: World): Option<Cluster> {
    match Found(Read(w).error, Read(w).world.store.cluster) case Missing(_) => None case Got(raw) => Some(raw)
  }

  /** From w to w' only others act. */
  ghost predicate OthersOnly(w: World, w': World) {
    && w'.id == w.id && Sound(w') && w.trace <= w'.trace && Chained(New(w, w'), w.store, w'.store)
    && forall e :: e in New(w, w') ==> e.actor == Others && Lawful(e.before, e.after)
  }

  lemma ReadAlone(w: World)
    requires Sound(w)
    ensures OthersOnly(w, Read(w).world)
  {
    ArriveIsLawful(w);
    var w' := Read(w).world;
    if w.turns == [] {
      assert New(w, w') == [];
    } else {
      assert New(w, w') == [Event(Others, w.store, w'.store)];
      assert New(w, w')[1..] == [];
      assert forall t :: t in w.turns[1..] ==> t in w.turns;
    }
  }

  /** A run sends sanctioned writes only, all with the intent of the one snapshot with which it started; without
      a snapshot it sends nothing. */
  lemma RunFollows(w: World, generate: Generator, effort: Effort)
    requires Sound(w) && Faithful(generate)
    ensures match Snapshot(w)
            case Some(raw) => Follows(w, Reconcile(w, generate, effort).world, generate(raw))
            case None => OthersOnly(w, Reconcile(w, generate, effort).world)
  {
    var w1 := Read(w).world;
    match Snapshot(w)
    case None => ReadAlone(w);
    case Some(raw) =>
      var i := generate(raw);
      ReadFollows(w, i);
      ActFollows(w1, i, effort);
      FollowsTrans(w, w1, Act(w1, i, effort).world, i);
  }
}
