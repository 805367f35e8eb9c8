/** Everything that happens during a Reconcile: which writes it sends, from which snapshot, under which gates,
    and what they find when they arrive. */
module ReconcileTrace {
  import opened Types
  import opened Workload
  import opened Store
  import opened ReconcileLoop

  // ---- the rules compose ----

  lemma LawfulTransitive(a: Store, b: Store, c: Store)
    requires Lawful(a, b) && Lawful(b, c)
    ensures Lawful(a, c)
  {
  }

  lemma ArriveIsLawful(w: World)
    requires Sound(w)
    ensures Lawful(w.store, Arrive(w).store)
  {
    if w.turns != [] { assert w.turns[0] in w.turns; }
  }

  // ---- what a Reconcile may send ----

  /** The snapshot passed every gate. */
  predicate Gated(i: Intent) { Marked(i.raw) && !i.raw.deleting && i.verdict.None? }

  predicate ForChild(r: Request) { !r.UpdateCluster? && !r.UpdateStatus? }

  function ChildrenOf(s: Store): (Option<Object<map<string, string>>>, bool, bool, bool, Option<Object<StatefulSet>>) {
    (s.configMap, s.headless, s.client, s.budget, s.statefulSet)
  }

  /** What an update of the StatefulSet makes of the stored one: an adoption, the merge, or the manager's patch of
      the image. */
  predicate Intended(i: Intent, stored: StatefulSet, updated: StatefulSet) {
    || updated == stored
    || updated == Merge(stored, i.desired)
    || updated == PatchImage(stored, i.raw.spec.image)
    || updated == PatchImage(stored, i.image)
  }

  /** The writes of an upgrade: it is started once, with the image that is wanted; afterwards its phase moves, and at
      the end the current image is the one that was rolled out. Nothing else of the status changes. */
  predicate UpgradeProgress(i: Intent, stored: Status, status: Status) {
    match stored.upgrade
    case None => status == stored.(upgrade := Some(UpgradeStatus(i.image, "Starting", 0, 0)))
    case Some(u) =>
      || status == stored.(upgrade := Some(u.(phase := "InProgress")))
      || status == stored.(upgrade := Some(u.(phase := "Failed")))
      || (status == stored.(upgrade := Some(u.(phase := "Completed")), currentImage := status.currentImage)
          && (status.currentImage == i.image || status.currentImage == i.raw.spec.image))
  }

  /** A status write changes one group of fields: the phase after a failed validation, what was observed, or the
      upgrade's progress; it never touches the node list. */
  predicate OneConcern(i: Intent, stored: Status, status: Status) {
    || (i.verdict.Some? && status == stored.(phase := Failed))
    || status == Observed(stored, status.replicas, status.readyReplicas)
    || (i.verdict.None? && UpgradeProgress(i, stored, status))
  }

  /** The request is one that a Reconcile with this intent sends, and where it is accepted it overwrites
      nothing that was not read. */
  predicate Allowed(i: Intent, r: Request, s: Store) {
    && (ForChild(r) ==> Gated(i))
    && match r
       case UpdateCluster(version, finalizers, spec) =>
         && spec == i.raw.spec
         && (if i.raw.deleting then Marked(i.raw) && finalizers == Without(i.raw.finalizers, FINALIZER)
             else !Marked(i.raw) && finalizers == i.raw.finalizers + [FINALIZER])
         && (s.cluster.Some? && s.cluster.value.version == version ==> s.cluster.value == i.raw)
       case UpdateStatus(version, status) =>
         && !i.raw.deleting && Marked(i.raw)
         && (s.cluster.Some? && s.cluster.value.version == version ==> OneConcern(i, s.cluster.value.status, status))
       case CreateConfigMap(owner, data) =>
         owner == i.me && data == i.data
       case UpdateConfigMap(version, controller, data) =>
         && controller.Some? && !Unadoptable(controller, i.me) && data == i.data
         && (s.configMap.Some? && s.configMap.value.version == version ==>
               !Unadoptable(s.configMap.value.controller, i.me))
       case CreateHeadless => true
       case CreateClient => true
       case CreateBudget => i.budget
       case CreateStatefulSet(owner, created) => owner == i.me && created == i.desired
       case UpdateStatefulSet(version, controller, updated) =>
         s.statefulSet.Some? && s.statefulSet.value.version == version ==>
           && Intended(i, s.statefulSet.value.content, updated)
           && (controller == s.statefulSet.value.controller
               || (controller == Some(i.me) && !Unadoptable(s.statefulSet.value.controller, i.me)))
  }

  /** The API server's answer to a request: accepted as it stands, or no effect; an error may hide an effect. */
  predicate Answered(r: Request, error: Option<Error>, before: Store, after: Store) {
    || Perform(before, r) == Written(after)
    || (after == before && error.Some?)
  }

  predicate Sanctioned(i: Intent, e: Event) {
    && Lawful(e.before, e.after)
    && match e.actor
       case Others => true
       case Operator(r, error) => Allowed(i, r, e.before) && Answered(r, error, e.before, e.after)
  }

  /** The events that w' has and w has not. */
  function New(w: World, w': World): seq<Event> {
    if |w.trace| <= |w'.trace| then w'.trace[|w.trace|..] else []
  }

  /** From w to w': a chain of events, all sanctioned. */
  ghost predicate Follows(w: World, w': World, i: Intent) {
    && w'.id == w.id && Sound(w') && Lawful(w.store, w'.store)
    && w.trace <= w'.trace && Chained(New(w, w'), w.store, w'.store)
    && forall e :: e in New(w, w') ==> Sanctioned(i, e)
  }

  lemma FollowsRefl(w: World, i: Intent)
    requires Sound(w)
    ensures Follows(w, w, i)
  {
    assert New(w, w) == [];
  }

  lemma FollowsTrans(a: World, b: World, c: World, i: Intent)
    requires Follows(a, b, i) && Follows(b, c, i)
    ensures Follows(a, c, i)
  {
    LawfulTransitive(a.store, b.store, c.store);
    assert New(a, c) == New(a, b) + New(b, c);
    ChainedConcat(New(a, b), New(b, c), a.store, b.store, c.store);
  }

  lemma ArriveFollows(w: World, i: Intent)
    requires Sound(w)
    ensures Follows(w, Pass(Arrive(w)), i) && Follows(w, Arrive(w), i)
  {
    ArriveIsLawful(w);
    var a := Arrive(w);
    if w.turns == [] {
      FollowsRefl(w, i);
    } else {
      assert New(w, a) == [Event(Others, w.store, a.store)] == New(w, Pass(a));
      assert New(w, a)[1..] == [];
      assert forall t :: t in w.turns[1..] ==> t in w.turns;
    }
  }

  lemma ReadFollows(w: World, i: Intent)
    requires Sound(w)
    ensures Follows(w, Read(w).world, i)
  {
    ArriveFollows(w, i);
  }

  lemma PerformIsLawful(i: Intent, r: Request, s: Store)
    requires Coherent(s) && Allowed(i, r, s) && Perform(s, r).Written?
    ensures Lawful(s, Perform(s, r).store)
  {
  }

  function Sent(w: World, r: Request): Event {
    Event(Operator(r, Send(w, r).error), Arrive(w).store, Send(w, r).world.store)
  }

  lemma SentIsSanctioned(w: World, r: Request, i: Intent)
    requires Coherent(Arrive(w).store) && Allowed(i, r, Arrive(w).store)
    ensures Sanctioned(i, Sent(w, r))
  {
    if Perform(Arrive(w).store, r).Written? { PerformIsLawful(i, r, Arrive(w).store); }
  }

  /** A write is sanctioned if it is allowed in whatever lawful state it arrives. */
  lemma SendFollows(w: World, r: Request, i: Intent)
    requires Sound(w)
    requires forall s :: Lawful(w.store, s) ==> Allowed(i, r, s)
    ensures Follows(w, Send(w, r).world, i)
  {
    ArriveFollows(w, i);
    var a, e, w' := Arrive(w), Sent(w, r), Send(w, r).world;
    SentIsSanctioned(w, r, i);
    assert w'.trace == a.trace + [e];
    assert New(a, w') == [e] && [e][1..] == [];
    assert forall t :: t in Pass(w).turns ==> t in w.turns;
    FollowsTrans(w, a, w', i);
  }

  /** The operator never changes the spec, and makes of the StatefulSet what it intends. */
  predicate KeepsSpec(before: Store, after: Store) {
    after.cluster.Some? ==> before.cluster.Some? && after.cluster.value.spec == before.cluster.value.spec
  }

  predicate ShapesStatefulSet(i: Intent, before: Store, after: Store) {
    || after.statefulSet == before.statefulSet
    || (after.statefulSet.Some? &&
        if before.statefulSet.None? then
          after.statefulSet.value.content == i.desired && after.statefulSet.value.controller == Some(i.me)
        else
          && Intended(i, before.statefulSet.value.content, after.statefulSet.value.content)
          && (after.statefulSet.value.controller in {before.statefulSet.value.controller, Some(i.me)}))
  }

  /** Past the finalizer and deletion gates only the status of the cluster object is written. */
  predicate KeepsMetadata(i: Intent, before: Store, after: Store) {
    Marked(i.raw) && !i.raw.deleting ==>
      if before.cluster.None? then after.cluster.None?
      else after.cluster.Some? && after.cluster.value
             == before.cluster.value.(version := after.cluster.value.version, status := after.cluster.value.status)
  }

  predicate OwnsConfigMap(i: Intent, before: Store, after: Store) {
    || after.configMap == before.configMap
    || (after.configMap.Some? && !Unadoptable(after.configMap.value.controller, i.me))
  }

  lemma PerformEffects(i: Intent, r: Request, s: Store)
    requires Allowed(i, r, s) && Perform(s, r).Written?
    ensures KeepsSpec(s, Perform(s, r).store) && ShapesStatefulSet(i, s, Perform(s, r).store)
    ensures KeepsMetadata(i, s, Perform(s, r).store) && OwnsConfigMap(i, s, Perform(s, r).store)
  {
    if ForChild(r) {
      assert Perform(s, r).store.cluster == s.cluster;
    } else {
      assert Perform(s, r).store.statefulSet == s.statefulSet;
    }
  }

  lemma WriteEffects(i: Intent, e: Event)
    requires Sanctioned(i, e) && e.actor.Operator?
    ensures KeepsSpec(e.before, e.after) && ShapesStatefulSet(i, e.before, e.after)
    ensures KeepsMetadata(i, e.before, e.after) && OwnsConfigMap(i, e.before, e.after)
  {
    if e.after != e.before { PerformEffects(i, e.actor.request, e.before); }
  }
}
