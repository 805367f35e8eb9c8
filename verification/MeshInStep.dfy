/** In multi-master mode the stored replica count and the number in the stored post-start script never
    disagree. */
module MeshInStep {
  import opened Types
  import opened Validation
  import opened KeyDBConfig
  import opened Comparators
  import opened Workload
  import opened Store
  import opened ReconcileLoop
  import opened ReconcileTrace
  import opened ReconcileSafety
  import opened Intents

  /** The script that runs after a container's start. */
  function HookScript(lifecycle: Option<Lifecycle>): Option<string> {
    if lifecycle.Some? && lifecycle.value.postStart.Some? && lifecycle.value.postStart.value.exec.Some?
       && |lifecycle.value.postStart.value.exec.value| == 3
    then Some(lifecycle.value.postStart.value.exec.value[2])
    else None
  }

  predicate HookPrints(lifecycle: Option<Lifecycle>, replicas: int) {
    HookScript(lifecycle).Some? && ScriptReplicas(HookScript(lifecycle).value) == Some(replicas)
  }

  predicate InStep(sts: StatefulSet) {
    |sts.containers| > 0 && HookPrints(sts.containers[0].lifecycle, sts.replicas)
  }

  predicate MeshStore(s: Store) {
    && (s.cluster.Some? ==> s.cluster.value.spec.mode == MultiMaster)
    && (s.statefulSet.Some? ==> InStep(s.statefulSet.value.content))
  }

  lemma EqualHooksRunTheSameScript(a: Option<Lifecycle>, b: Option<Lifecycle>)
    requires LifecyclesEqual(a, b)
    ensures HookScript(a) == HookScript(b)
  {
  }

  lemma DesiredInStep(spec: Spec, id: Identity)
    requires spec.storage.Some? && spec.mode == MultiMaster
    ensures InStep(DesiredStatefulSet(spec, id))
  {
    ScriptRoundTrip(spec.replicas, id);
  }

  lemma IntentInStep(id: Identity, raw: Cluster, entries: Entries)
    requires raw.spec.mode == MultiMaster
    ensures InStep(OperatorIntents(id, entries)(raw).desired)
  {
    DesiredInStep(Defaulted(raw.spec), id);
  }

  /** The merge brings count and script over together, whatever was stored. */
  lemma MergeInStep(stored: StatefulSet, desired: StatefulSet)
    requires |stored.containers| > 0 && InStep(desired)
    ensures InStep(Merge(stored, desired))
  {
    var a, b := stored.containers[0], desired.containers[0];
    if LifecyclesEqual(a.lifecycle, b.lifecycle) { EqualHooksRunTheSameScript(a.lifecycle, b.lifecycle); }
  }

  /** Equality of the hooks forces equal numbers, so a new count always means a new script in the same write. */
  lemma CountAndScriptChangeTogether(stored: StatefulSet, desired: StatefulSet)
    requires InStep(stored) && InStep(desired)
    ensures stored.replicas != desired.replicas ==>
              !LifecyclesEqual(stored.containers[0].lifecycle, desired.containers[0].lifecycle)
              && Merge(stored, desired).containers[0].lifecycle == desired.containers[0].lifecycle
  {
    var a, b := stored.containers[0].lifecycle, desired.containers[0].lifecycle;
    if LifecyclesEqual(a, b) { EqualHooksRunTheSameScript(a, b); }
  }

  lemma IntendedInStep(i: Intent, stored: StatefulSet, updated: StatefulSet)
    requires Intended(i, stored, updated) && InStep(stored) && InStep(i.desired)
    ensures InStep(updated)
  {
    MergeInStep(stored, i.desired);
  }

  lemma EffectsKeepMesh(i: Intent, before: Store, after: Store)
    requires InStep(i.desired) && KeepsSpec(before, after) && ShapesStatefulSet(i, before, after) && MeshStore(before)
    ensures MeshStore(after)
  {
    if before.statefulSet.Some? && after.statefulSet.Some? && after.statefulSet != before.statefulSet {
      IntendedInStep(i, before.statefulSet.value.content, after.statefulSet.value.content);
    }
  }

  lemma EventKeepsMesh(i: Intent, e: Event)
    requires InStep(i.desired) && Sanctioned(i, e) && ByOperator(e) && MeshStore(e.before)
    ensures MeshStore(e.after)
  {
    WriteEffects(i, e);
    EffectsKeepMesh(i, e.before, e.after);
  }

  /** Of every multi-master spec the generator makes a StatefulSet in step. */
  ghost predicate WantsInStep(generate: Generator) {
    forall raw: Cluster :: raw.spec.mode == MultiMaster ==> InStep(generate(raw).desired)
  }

  lemma GeneratorKeepsMesh(generate: Generator)
    requires WantsInStep(generate)
    ensures KeptByOperator(generate, MeshStore)
  {
    forall s: Store, e: Event | s.cluster.Some? && MeshStore(s) && MeshStore(e.before) && ByOperator(e)
                                && Sanctioned(generate(s.cluster.value), e)
      ensures MeshStore(e.after)
    {
      EventKeepsMesh(generate(s.cluster.value), e);
    }
  }

  lemma OperatorKeepsMesh(id: Identity, entries: Entries)
    ensures KeptByOperator(OperatorIntents(id, entries), MeshStore)
  {
    forall raw: Cluster | raw.spec.mode == MultiMaster ensures InStep(OperatorIntents(id, entries)(raw).desired) {
      IntentInStep(id, raw, entries);
    }
    GeneratorKeepsMesh(OperatorIntents(id, entries));
  }

  /** Start with a StatefulSet in step, or none. As long as others keep the mode and leave count and script alone,
      every state in and between any runs, failing or not, with any edits of the spec and any image updates of the
      upgrade manager, has the count equal to the REPLICAS that its script assigns. */
  lemma CountAndScriptStayInStep(w: World, runs: seq<Run>)
    requires Coherent(w.store) && OperatorRuns(w.id, runs) && LawfulRuns(runs) && MeshStore(w.store)
    requires KeptByOthers(New(w, Runs(w, runs)), MeshStore)
    ensures MeshStore(Runs(w, runs).store) && AlwaysIn(New(w, Runs(w, runs)), MeshStore)
  {
    OperatorRunsAreSound(w.id, runs);
    forall r | r in runs ensures KeptByOperator(r.generate, MeshStore) {
      var entries :| r.generate == OperatorIntents(w.id, entries);
      OperatorKeepsMesh(w.id, entries);
    }
    EveryState(w, runs, MeshStore);
  }
}
