/** What a converged cluster gives its servers: the configuration they read and the mesh they build. */
module EndToEnd {
  import opened Types
  import opened Naming
  import opened Validation
  import opened Texts
  import opened Parameters
  import opened KeyDBConfig
  import opened ConfigReading
  import opened CustomConfig
  import opened Workload
  import opened MeshScript
  import opened Comparators
  import opened Store
  import opened ReconcileLoop
  import opened Intents
  import opened Convergence
  import opened MeshInStep

  /** A server that reads the stored ConfigMap finds for every parameter exactly the values of the table, unless a
      custom key names it, which none can do with a reserved one; and the user's value for every custom key. */
  lemma StoredConfigReads(s: Store, id: Identity, raw: Cluster, entries: Entries, p: Parameter, key: string)
    requires Accepted(raw.spec) && Converged(s, IntentOf(id, raw, entries))
    requires Readable(Defaulted(raw.spec)) && Walks(Defaulted(raw.spec), entries)
    ensures var d, text := Defaulted(raw.spec), TextIn(s.configMap.value.content);
            && (Reserved(p) || !Overridden(d, p) ==> Readings(Lines(text), Name(p)) == Expected(d, p))
            && (CustomOf(d).Some? && CaseConsistent(CustomOf(d).value) && key in CustomOf(d).value ==>
                  ConfigReading.Read(text, Lower(key)) == Some(CustomOf(d).value[key]))
  {
    var d := Defaulted(raw.spec);
    StoredText(s, id, raw, entries);
    if Reserved(p) {
      ReservedNames(p);
      ReservedKeepOperatorValue(d, entries, p);
    } else if !Overridden(d, p) {
      OperatorValuesAreRead(d, entries, p);
    }
    if CustomOf(d).Some? && CaseConsistent(CustomOf(d).value) && key in CustomOf(d).value {
      CustomIsRead(d, entries, key);
    }
  }

  lemma StoredText(s: Store, id: Identity, raw: Cluster, entries: Entries)
    requires Converged(s, IntentOf(id, raw, entries))
    ensures TextIn(s.configMap.value.content) == ConfigText(Defaulted(raw.spec), entries)
  {
  }

  /** The scripts of the converged StatefulSet's pods, run with the number that each of them assigns, together make
      every ordered pair of different pods exactly once. */
  lemma StoredScriptsBuildTheMesh(s: Store, id: Identity, raw: Cluster, entries: Entries)
    requires Accepted(raw.spec) && raw.spec.mode == MultiMaster && Converged(s, IntentOf(id, raw, entries))
    ensures BuildsTheMesh(s.statefulSet.value.content, id)
  {
    StoredInStep(s, id, raw, entries);
    InStepBuildsTheMesh(s.statefulSet.value.content, id);
  }

  lemma InStepBuildsTheMesh(sts: StatefulSet, id: Identity)
    requires InStep(sts) && 1 <= sts.replicas
    ensures BuildsTheMesh(sts, id)
  {
    FullMesh(id.name, sts.replicas);
  }

  /** The stored script assigns the replica count, and that many scripts together make every ordered pair of different
      pods exactly once. */
  ghost predicate BuildsTheMesh(sts: StatefulSet, id: Identity) {
    && |sts.containers| > 0
    && var script := HookScript(sts.containers[0].lifecycle);
       && script.Some? && ScriptReplicas(script.value).Some?
       && var n := ScriptReplicas(script.value).value;
          && 1 <= n == sts.replicas
          && Complete(Links(id.name, n, n), n, n) && |Links(id.name, n, n)| == n * (n - 1)
  }

  lemma StoredInStep(s: Store, id: Identity, raw: Cluster, entries: Entries)
    requires Accepted(raw.spec) && raw.spec.mode == MultiMaster && Converged(s, IntentOf(id, raw, entries))
    ensures InStep(s.statefulSet.value.content) && 1 <= s.statefulSet.value.content.replicas
  {
    var d := Defaulted(raw.spec);
    DesiredInStep(d, id);
    SameHook(s.statefulSet.value.content, DesiredStatefulSet(d, id));
    AcceptedMode(raw.spec);
  }

  /** The hosts that a script connects to are the StatefulSet's pods, under the Service that governs it. */
  lemma HostsAreUnderTheService(spec: Spec, id: Identity, ordinal: nat)
    requires spec.storage.Some?
    ensures Host(id, ordinal) == PodName(id.name, ordinal) + "." + DesiredStatefulSet(spec, id).fixed.serviceName
                                 + "." + id.namespace + ".svc.cluster.local"
  {
  }

  lemma SameHook(found: StatefulSet, desired: StatefulSet)
    requires SixFieldsAgree(found, desired) && InStep(desired)
    ensures InStep(found)
  {
    var a, b := found.containers[0].lifecycle, desired.containers[0].lifecycle;
    LifecyclesEqualDecides(a, b);
    EqualHooksRunTheSameScript(a, b);
  }
}
