/** What the operator computes from a cluster object: its defaults, the validator's verdict, and the objects
    that it wants. */
module Intents {
  import opened Types
  import opened Validation
  import opened KeyDBConfig
  import opened Workload
  import opened Store
  import opened ReconcileLoop
  import opened ReconcileGates
  import opened ReconcileSafety

  function Me(id: Identity, raw: Cluster): Owner { Owner("KeyDBCluster", id.name, raw.uid) }

  function ConfigData(spec: Spec, entries: Entries): map<string, string> {
    map["keydb.conf" := ConfigText(spec, entries)]
  }

  /** `entries` is the order in which this run ranges over the custom map. */
  function IntentOf(id: Identity, raw: Cluster, entries: Entries): Intent {
    IntentFor(id, raw, Defaulted(raw.spec), entries)
  }

  /** The same for the spec with its defaults. */
  function IntentFor(id: Identity, raw: Cluster, d: Spec, entries: Entries): Intent
    requires d.storage.Some?
  {
    Intent(raw, Validate(d), Me(id, raw), d.image, ConfigData(d, entries), d.budget.Some?, DesiredStatefulSet(d, id))
  }

  function OperatorIntents(id: Identity, entries: Entries): Generator { raw => IntentOf(id, raw, entries) }

  /** The operator's own runs, each with the order in which it ranges over the custom map. */
  ghost predicate OperatorRuns(id: Identity, runs: seq<Run>) {
    forall r :: r in runs ==> exists entries :: r.generate == OperatorIntents(id, entries)
  }

  lemma OperatorIsFaithful(id: Identity, entries: Entries)
    ensures Faithful(OperatorIntents(id, entries))
  {
  }

  lemma OperatorRunsAreSound(id: Identity, runs: seq<Run>)
    requires OperatorRuns(id, runs) && LawfulRuns(runs)
    ensures SoundRuns(runs)
  {
    forall r | r in runs ensures Faithful(r.generate) {
      var entries :| r.generate == OperatorIntents(id, entries);
      OperatorIsFaithful(id, entries);
    }
  }
}
