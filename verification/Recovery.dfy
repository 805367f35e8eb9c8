/** Recovery: no sequence of disturbed runs keeps a later one from converging. */
module Recovery {
  import opened Types
  import opened Validation
  import opened KeyDBConfig
  import opened CustomConfig
  import opened Workload
  import opened Store
  import opened ReconcileLoop
  import opened ReconcileTrace
  import opened ReconcileSafety
  import opened Convergence
  import opened Intents

  // ---- after any sequence of disturbed runs ----

  /** What a run needs to converge: the cluster object, not deleted and with its finalizer, and children that can be
      adopted. */
  predicate Prepared(s: Store, uid: nat, spec: Spec, me: Owner) {
    && s.cluster.Some? && s.cluster.value.uid == uid && s.cluster.value.spec == spec
    && Marked(s.cluster.value) && !s.cluster.value.deleting
    && !Held(s.configMap, me) && !Held(s.statefulSet, me) && HasServer(s.statefulSet)
  }

  /** The generator's answer for this object and spec: accepted, with this owner. */
  ghost predicate Aims(generate: Generator, uid: nat, spec: Spec, me: Owner) {
    forall raw: Cluster :: raw.uid == uid && raw.spec == spec ==>
      var i := generate(raw); i.raw == raw && i.verdict.None? && i.me == me && Proper(i)
  }

  /** Version and status of the snapshot make no difference to what is wanted. */
  ghost predicate Steady(generate: Generator) {
    forall a: Cluster, b: Cluster :: a.uid == b.uid && a.spec == b.spec ==> generate(a) == generate(b).(raw := a)
  }

  lemma EffectsKeepPrepared(i: Intent, before: Store, after: Store, uid: nat, spec: Spec)
    requires Gated(i) && Proper(i) && Prepared(before, uid, spec, i.me)
    requires ShapesStatefulSet(i, before, after) && KeepsMetadata(i, before, after) && OwnsConfigMap(i, before, after)
    ensures Prepared(after, uid, spec, i.me)
  {
  }

  lemma OperatorKeepsPrepared(generate: Generator, uid: nat, spec: Spec, me: Owner, holds: Store -> bool)
    requires Aims(generate, uid, spec, me) && forall s :: holds(s) <==> Prepared(s, uid, spec, me)
    ensures KeptByOperator(generate, holds)
  {
    forall s: Store, e: Event | s.cluster.Some? && holds(s) && holds(e.before) && ByOperator(e)
                                && Sanctioned(generate(s.cluster.value), e)
      ensures holds(e.after)
    {
      var i := generate(s.cluster.value);
      WriteEffects(i, e);
      EffectsKeepPrepared(i, e.before, e.after, uid, spec);
    }
  }

  /** The two generators differ at most in the configuration data. */
  ghost predicate Alike(a: Generator, b: Generator) {
    forall raw: Cluster :: b(raw) == a(raw).(data := b(raw).data)
  }

  /** What two undisturbed runs in a row do: the first makes all children as desired, and the second writes nothing
      but the status exactly if both want the same text of the configuration. */
  ghost predicate Settles(w: World, first: Generator, second: Generator, effort: Effort, spec: Spec) {
    var step := Reconcile(w, first, effort);
    var next := Reconcile(step.world, second, effort);
    && step.error.None? && next.error.None? && step.world.store.cluster.Some?
    && var raw := step.world.store.cluster.value;
       && raw.spec == spec && Converged(step.world.store, first(raw))
       && (OnlyWritesStatus(step.world, next.world) <==> TextIn(first(raw).data) == TextIn(second(raw).data))
  }

  /** Runs may be cut short anywhere, calls refused or their replies lost, and other writers may change anything
      but the spec and the ownership: afterwards two undisturbed runs settle the cluster. */
  lemma CrashRestart(w: World, runs: seq<Run>, first: Generator, second: Generator, effort: Effort,
                     uid: nat, spec: Spec, me: Owner)
    requires Coherent(w.store) && SoundRuns(runs) && Prepared(w.store, uid, spec, me)
    requires Aims(first, uid, spec, me) && forall r :: r in runs ==> Aims(r.generate, uid, spec, me)
    requires Steady(first) && Alike(first, second)
    requires KeptByOthers(New(w, Runs(w, runs)), s => Prepared(s, uid, spec, me))
    ensures Settles(Runs(w, runs).(turns := []), first, second, effort, spec)
  {
    var holds := s => Prepared(s, uid, spec, me);
    forall r | r in runs ensures KeptByOperator(r.generate, holds) {
      OperatorKeepsPrepared(r.generate, uid, spec, me, holds);
    }
    EveryState(w, runs, holds);
    TwoRuns(Runs(w, runs).(turns := []), first, second, effort, uid, spec, me);
  }

  lemma TwoRuns(w: World, first: Generator, second: Generator, effort: Effort, uid: nat, spec: Spec, me: Owner)
    requires Idle(w) && Prepared(w.store, uid, spec, me) && Aims(first, uid, spec, me)
    requires Steady(first) && Alike(first, second)
    ensures Settles(w, first, second, effort, spec)
  {
    IdleRunConverges(w, first, effort);
    QuietExactly(Reconcile(w, first, effort).world, second, effort);
  }

  // ---- the operator ----

  lemma OperatorAccepts(id: Identity, entries: Entries, raw: Cluster)
    requires Accepted(raw.spec)
    ensures var i := OperatorIntents(id, entries)(raw); i.raw == raw && i.verdict.None? && i.me == Me(id, raw)
  {
  }

  lemma OperatorIsProper(id: Identity, entries: Entries, raw: Cluster)
    ensures Proper(OperatorIntents(id, entries)(raw))
  {
    var i := OperatorIntents(id, entries)(raw);
    assert i.desired.containers[0] == ServerContainer(Defaulted(raw.spec), id);
  }

  lemma OperatorSteady(id: Identity, entries: Entries, a: Cluster, b: Cluster)
    requires a.uid == b.uid && a.spec == b.spec
    ensures OperatorIntents(id, entries)(a) == OperatorIntents(id, entries)(b).(raw := a)
  {
  }

  lemma OperatorAims(id: Identity, entries: Entries, uid: nat, spec: Spec)
    requires Accepted(spec)
    ensures Aims(OperatorIntents(id, entries), uid, spec, Owner("KeyDBCluster", id.name, uid))
  {
    var generate, me := OperatorIntents(id, entries), Owner("KeyDBCluster", id.name, uid);
    forall raw: Cluster | raw.uid == uid && raw.spec == spec
      ensures generate(raw).raw == raw && generate(raw).verdict.None? && generate(raw).me == me && Proper(generate(raw))
    {
      OperatorAccepts(id, entries, raw);
      OperatorIsProper(id, entries, raw);
    }
  }

  lemma OperatorIsSteady(id: Identity, entries: Entries)
    ensures Steady(OperatorIntents(id, entries))
  {
    var generate := OperatorIntents(id, entries);
    forall a: Cluster, b: Cluster | a.uid == b.uid && a.spec == b.spec
      ensures generate(a) == generate(b).(raw := a)
    {
      OperatorSteady(id, entries, a, b);
    }
  }

  /** In the operator's terms: the configuration text is the generated one, the StatefulSet agrees with the desired
      one, and Services and budget exist. */
  lemma ConvergedMeans(s: Store, id: Identity, raw: Cluster, entries: Entries)
    requires Accepted(raw.spec) && Converged(s, OperatorIntents(id, entries)(raw))
    ensures var d := Defaulted(raw.spec);
            && s.configMap.Some? && "keydb.conf" in s.configMap.value.content
            && s.configMap.value.content["keydb.conf"] == ConfigText(d, entries)
            && s.headless && s.client && (raw.spec.budget.Some? ==> s.budget)
            && s.statefulSet.Some? && SixFieldsAgree(s.statefulSet.value.content, DesiredStatefulSet(d, id))
  {
    TextIsNotEmpty(Defaulted(raw.spec), entries);
  }

  /** The stored replica count is the number of masters, or of pods in all shards, that the spec asks for. */
  lemma ConvergedCount(s: Store, id: Identity, raw: Cluster, entries: Entries)
    requires Accepted(raw.spec) && Converged(s, OperatorIntents(id, entries)(raw))
    ensures var d, n := Defaulted(raw.spec), s.statefulSet.value.content.replicas;
            if d.mode == MultiMaster then 1 <= n == d.replicas <= 10
            else d.cluster.Some? && 3 <= n == d.cluster.value.shards * (1 + d.cluster.value.replicasPerShard) <= 6000
  {
    ConvergedMeans(s, id, raw, entries);
    AcceptedSizes(raw.spec);
  }

  lemma OperatorSettles(w: World, runs: seq<Run>, e1: Entries, e2: Entries, effort: Effort, uid: nat, spec: Spec)
    requires Coherent(w.store) && OperatorRuns(w.id, runs) && LawfulRuns(runs) && Accepted(spec)
    requires Prepared(w.store, uid, spec, Owner("KeyDBCluster", w.id.name, uid))
    requires KeptByOthers(New(w, Runs(w, runs)), s => Prepared(s, uid, spec, Owner("KeyDBCluster", w.id.name, uid)))
    ensures Settles(Runs(w, runs).(turns := []), OperatorIntents(w.id, e1), OperatorIntents(w.id, e2), effort, spec)
  {
    var me := Owner("KeyDBCluster", w.id.name, uid);
    OperatorRunsAreSound(w.id, runs);
    OperatorAims(w.id, e1, uid, spec);
    OperatorIsSteady(w.id, e1);
    OperatorsAlike(w.id, e1, e2);
    forall r | r in runs ensures Aims(r.generate, uid, spec, me) {
      var es :| r.generate == OperatorIntents(w.id, es);
      OperatorAims(w.id, es, uid, spec);
    }
    CrashRestart(w, runs, OperatorIntents(w.id, e1), OperatorIntents(w.id, e2), effort, uid, spec, me);
  }

  lemma OperatorsAlike(id: Identity, e1: Entries, e2: Entries)
    ensures Alike(OperatorIntents(id, e1), OperatorIntents(id, e2))
  {
  }

  lemma TextOfIntent(id: Identity, raw: Cluster, entries: Entries)
    ensures TextIn(OperatorIntents(id, entries)(raw).data) == ConfigText(Defaulted(raw.spec), entries)
  {
  }

  lemma SettledTexts(w: World, id: Identity, e1: Entries, e2: Entries, effort: Effort, spec: Spec)
    requires Settles(w, OperatorIntents(id, e1), OperatorIntents(id, e2), effort, spec)
    ensures var step := Reconcile(w, OperatorIntents(id, e1), effort);
            var next := Reconcile(step.world, OperatorIntents(id, e2), effort);
            && step.error.None? && next.error.None? && step.world.store.cluster.Some?
            && step.world.store.cluster.value.spec == spec
            && Converged(step.world.store, IntentOf(id, step.world.store.cluster.value, e1))
            && (OnlyWritesStatus(step.world, next.world)
                <==> ConfigText(Defaulted(spec), e1) == ConfigText(Defaulted(spec), e2))
  {
    var raw := Reconcile(w, OperatorIntents(id, e1), effort).world.store.cluster.value;
    TextOfIntent(id, raw, e1);
    TextOfIntent(id, raw, e2);
  }

  // ---- every walk over the custom map ----

  /** The children are what the operator wants under the walk e0. */
  predicate AtRest(w: World, raw: Cluster, e0: Entries) {
    && Idle(w) && w.store.cluster == Some(raw) && Marked(raw) && !raw.deleting && Accepted(raw.spec)
    && Converged(w.store, IntentOf(w.id, raw, e0))
    && !Held(w.store.configMap, Me(w.id, raw)) && ControlledBy(w.store.statefulSet.value.controller, Me(w.id, raw))
  }

  ghost predicate QuietUnder(w: World, entries: Entries, effort: Effort) {
    OnlyWritesStatus(w, Reconcile(w, OperatorIntents(w.id, entries), effort).world)
  }

  lemma QuietUnderExactly(w: World, raw: Cluster, e0: Entries, e1: Entries, effort: Effort)
    requires AtRest(w, raw, e0)
    ensures QuietUnder(w, e1, effort) <==> ConfigText(Defaulted(raw.spec), e0) == ConfigText(Defaulted(raw.spec), e1)
  {
    OperatorAims(w.id, e1, raw.uid, raw.spec);
    OperatorsAlike(w.id, e0, e1);
    TextOfIntent(w.id, raw, e0);
    TextOfIntent(w.id, raw, e1);
    QuietExactly(w, OperatorIntents(w.id, e1), effort);
  }

  /** On children at rest the next undisturbed run writes the status and nothing else, in whatever order it walks the
      custom map, if and only if that map has no two keys. */
  lemma QuietForEveryWalk(w: World, raw: Cluster, e0: Entries, effort: Effort)
    requires AtRest(w, raw, e0) && Readable(Defaulted(raw.spec)) && Walks(Defaulted(raw.spec), e0)
    ensures (forall entries :: Walks(Defaulted(raw.spec), entries) ==> QuietUnder(w, entries, effort))
       <==> AtMostOneKey(Defaulted(raw.spec))
  {
    var d := Defaulted(raw.spec);
    TextOrderExactly(d);
    forall entries | Walks(d, entries)
      ensures QuietUnder(w, entries, effort) <==> ConfigText(d, e0) == ConfigText(d, entries)
    {
      QuietUnderExactly(w, raw, e0, entries, effort);
    }
  }

  // ---- after disturbed runs ----

  /** Crash-restart convergence of the operator itself. The two final runs walk the custom map in orders of their
      own; with at most one key that makes no difference, and the second run is quiet. */
  lemma OperatorRecovers(w: World, runs: seq<Run>, e1: Entries, e2: Entries, effort: Effort, uid: nat, spec: Spec)
    requires Coherent(w.store) && OperatorRuns(w.id, runs) && LawfulRuns(runs) && Accepted(spec)
    requires Prepared(w.store, uid, spec, Owner("KeyDBCluster", w.id.name, uid))
    requires KeptByOthers(New(w, Runs(w, runs)), s => Prepared(s, uid, spec, Owner("KeyDBCluster", w.id.name, uid)))
    ensures var step := Reconcile(Runs(w, runs).(turns := []), OperatorIntents(w.id, e1), effort);
            var next := Reconcile(step.world, OperatorIntents(w.id, e2), effort);
            && step.error.None? && next.error.None? && step.world.store.cluster.Some?
            && step.world.store.cluster.value.spec == spec
            && Converged(step.world.store, IntentOf(w.id, step.world.store.cluster.value, e1))
            && (OnlyWritesStatus(step.world, next.world)
                <==> ConfigText(Defaulted(spec), e1) == ConfigText(Defaulted(spec), e2))
            && (AtMostOneKey(Defaulted(spec)) && Walks(Defaulted(spec), e1) && Walks(Defaulted(spec), e2) ==>
                  OnlyWritesStatus(step.world, next.world))
  {
    OperatorSettles(w, runs, e1, e2, effort, uid, spec);
    SettledTexts(Runs(w, runs).(turns := []), w.id, e1, e2, effort, spec);
    if AtMostOneKey(Defaulted(spec)) && Walks(Defaulted(spec), e1) && Walks(Defaulted(spec), e2) {
      OneKeyOneText(Defaulted(spec), e1, e2);
    }
  }
}
