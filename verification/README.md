# A verified model of the KeyDB operator

The KeyDB operator is a Kubernetes controller. It turns a `KeyDBCluster` resource into a ConfigMap, two
Services, an optional PodDisruptionBudget and a StatefulSet, and it replaces the pods one by one when the image
changes. This project models three linked parts of it and proves what they promise over whole runs, with other
writers acting between any two API calls and with calls that are refused or lose their reply.

**Rolling upgrade.** `RollingUpgrade` is a state machine: the manager's API calls, interleaved with pods that
terminate, disappear, come back from the stored template and report conditions. Pod incarnations carry a uid, so
that the old and the new pod under one name are told apart. `RollingUpgradeSafety` proves what every interleaving
keeps, `RollingUpgradeExactly` under which starts. `UpgradeManager` is the manager in its own imperative form; its ghost history shows that every execution is
a run of the machine, and its ghost log of calls and waits says why it stops. `UpgradeOrder` has the index loops that
compute the order of the pods, with int32 wrap-around.

**Reconcile loop.** `Store` is the API server: versioned objects, conflicts, finalizers, faults, and a trace of all
events. `ReconcileLoop` says call by call what one `Reconcile` does, for any generator of desired objects (`Intents`
has the operator's). `Controller` holds the reconciler's methods, each equal to its specification there.
`ReconcileTrace`, `ReconcileGates` and `ReconcileSafety` prove safety for every run and every sequence of runs;
`Convergence`, `Success` and `Recovery` prove that the loop repairs what it finds; `StatusRetry` covers the status loop;
`Comparators` the comparisons on which the fixed point rests.

**Generated artefacts.** `Validation` has the validator and the defaults, and `Acceptance` says problem by problem which
specs are accepted. `Parameters` names the parameters of keydb.conf, `KeyDBConfig` has the configuration builder,
`Texts`, `ConfigReading` and `CustomConfig` what a server reads out of the text, `Workload` the StatefulSet and the
post-start script inside it, `MeshScript` the loops of that script, `MeshInStep` the agreement between the script
and the replica count, `Naming` the names that Go prints and the script takes apart. `EndToEnd` says what a
converged cluster gives its servers.

## Assumptions

- A read returns what is stored when it arrives. Other writers obey the API server's rules: fresh versions, fresh
  uids, final deletion marks, no finalizer added to an object that is being deleted.
- Pods: only deleted pods disappear, new pods come from the stored template, and only a terminating pod loses its
  readiness. Whether every visible pod carries a Ready condition is a parameter of the upgrade plan.
- What becomes of the upgrade manager's n-th call is a given, arbitrary sequence (`Manager.outcomes`).
- A lost reply means that the write took effect and the caller sees an error. A crash is a run whose remaining
  calls are all refused.
- `SetControllerReference` belongs to controller-runtime, which is not part of this model; it is taken to refuse an
  object whose controller has another kind or name, and to replace the reference otherwise.
- The API server stores a written object as it was sent: defaulting on the server leaves the fields that the operator
  writes alone. That the next run writes no child rests on this.
- During a rolling upgrade nobody but the manager writes the StatefulSet's template or the upgrade status.
- Whether the answer to a status write removes the defaults from the operator's in-memory object depends on the
  client's decoder, which is not part of this model; both cases are covered (`Effort.defaultsSurvive`).
- Results about what a server reads, and about the text and map order, are for specs whose password and custom values
  keep to one line and whose custom keys are printable ASCII words that do not start a comment (`Readable`).
- The reader of a configuration compares words as they are written. KeyDB's parser, which is not part of this model,
  also removes quotes, so that for a custom key written with quotes nothing is claimed about KeyDB.
- The order in which Go ranges over a map is arbitrary; it is a parameter or a nondeterministic choice.
- The StatefulSet has a stored replica count (the code dereferences it), and a container where a result says so.

## What turned out false, and exactly when

- *At most one deleted pod is down.* From any start with two pods or more, healthy or not, this holds over all
  interleavings if and only if pods carry a Ready condition from their creation on and every pod of the order but the
  last is old: shown, not terminating, and not on the target image; only the first may be missing instead, while the
  template is old (`AvailabilityExactly`). A pod that is terminating gracefully is still Ready, and if it shows the
  target image it passes the check meant for its successor. A pod that was missing or terminating comes back on the
  target image as soon as the template is patched. Unready pods do no harm.
- *The configuration does not depend on map order.* Two walks over the custom map can give a server different
  settings if and only if two keys differ only in letter case and disagree (`OrderMattersExactly`).
- *An unchanged spec is reconciled quietly.* The text of the configuration is the same for every walk if and only if
  the custom map has at most one key (`TextOrderExactly`). So on converged children the next undisturbed run writes
  only the status, whatever its walk, if and only if the map has at most one key; with two or more, a later run can
  rewrite the ConfigMap (`QuietForEveryWalk`).
- *A reconcile makes the children match.* An undisturbed run succeeds exactly if no other controller holds the
  ConfigMap or the StatefulSet (`IdleRunConverges`). The children match after it if and only if: with a held
  ConfigMap, they all matched before; otherwise, a held StatefulSet agreed already (`ChildrenMatchExactly`).
- *The cluster order is a permutation.* For shardings that are not negative it is one if and only if the ordinals
  fit into int32 (`FitsExactly`); the validator accepts only shardings that do (`AcceptedSizes`).
- *The upgrade branch is for changed images.* Without other writers, whichever calls fail, a run that got through
  reconcileStatefulSet and whose check can read takes the branch exactly if the StatefulSet had no container, because
  the image was already written before the check (`UpgradeWithoutContainers`).
- The comment at controllers/keydbcluster_controller.go:398 announces a deep comparison of probes; the code leaves
  out HTTP headers and the termination grace period, and the model follows the code.

## Model

| member | source | states |
|---|---|---|
| UpgradeOrder.GetClusterModeUpgradeOrder | internal/upgrade/manager.go:185-215 | for every int32 sharding the computed order, products and sums wrapping; where the ordinals fit into int32 it is the reference order, non-multiples of the shard width ascending, then the multiples; three pods without a sharding |
| UpgradeOrder.GetMultiMasterUpgradeOrder | internal/upgrade/manager.go:217-224 | the order is 0, 1, 2 and so on up to the count, empty for a negative one |
| UpgradeOrder.ReplicasFirstIsPermutation | internal/upgrade/manager.go:200-212 | the cluster order contains every ordinal exactly once |
| UpgradeOrder.ReplicasBeforeMasters | internal/upgrade/manager.go:200-212 | in every prefix no master appears before all replicas of all shards have |
| UpgradeOrder.OrderCoversReplicas | internal/resources/statefulset.go:187-199 | the order visits exactly the pods that the stored replica count creates, in every mode and with the default of three |
| UpgradeOrder.FitsExactly | internal/upgrade/manager.go:200-212 | the order that the loops compute is a permutation of the ordinals exactly if they fit into int32, and the replica count is exact exactly if it does not wrap |
| RollingUpgrade.BasicsAlways | internal/upgrade/manager.go:64-107 | in every state of every run: deletions are a prefix of the order at most one ahead of the successes, the counters follow, later pods are untouched, accepted pods are never shown on another image |
| RollingUpgradeSafety.Availability | internal/upgrade/manager.go:135-183 | whenever the next pod has been deleted, a new incarnation of the one before is up on the target image; never two deleted pods are down together; of the start only the pods' age is assumed, not their health |
| RollingUpgradeExactly.AvailabilityExactly | internal/upgrade/manager.go:226-272 | the exact condition on the start, whatever the state of its pods, under which every interleaving keeps that |
| RollingUpgradeSafety.Completion | internal/upgrade/manager.go:64-107 | after nil: phase, image, counters stored, every pod deleted once, every pod of the plan on the target image, and under the assumptions a new incarnation of each is up |
| RollingUpgradeSafety.FailureLeavesPrefix | internal/upgrade/manager.go:85-98 | after an error: k pods fully upgraded, at most the next one deleted, none later; memory counts k, the store lags by at most one; Failed in memory exactly if upgradePod failed; under the assumptions a new incarnation of each upgraded pod is up |
| UpgradeManager.PodNamesDistinct | internal/upgrade/manager.go:137 | one rolling upgrade addresses as many pods as there are replicas and never the same name twice |
| UpgradeManager.PrefixRespectsOrder | internal/upgrade/manager.go:200-212 | in whatever prefix of the plan: in cluster mode no master before every replica of every shard, both kinds ascending; in the other modes ascending ordinals |
| UpgradeManager.Manager.ValidatePodBeforeUpgrade | internal/upgrade/manager.go:226-246 | nil exactly if the Get was served and found the pod, and no Ready condition is other than True |
| UpgradeManager.Manager.ValidatePodAfterUpgrade | internal/upgrade/manager.go:248-272 | the same, and the first container, if any, runs the target image |
| UpgradeManager.Manager.UpgradePod | internal/upgrade/manager.go:135-183 | every step of one pod's upgrade is a step of the machine; nil exactly if no call failed that matters, no pod was missing, no validation objected, and no wait took its whole time without a ready pod |
| UpgradeManager.Manager.WaitForPodReady | internal/upgrade/manager.go:274-299 | it polls until a poll shows a Ready condition that is True, and gives up only when the whole timeout has passed without one; failed polls do not end it |
| UpgradeManager.Manager.AnyNotReady | internal/upgrade/manager.go:238-242 | the scan finds a Ready condition that is not True exactly if there is one |
| UpgradeManager.Manager.AnyReady | internal/upgrade/manager.go:289-293 | the scan finds a Ready condition that is True exactly if there is one |
| UpgradeManager.Manager.PerformRollingUpdate | internal/upgrade/manager.go:64-107 | whatever the cluster does, the execution is a run of the machine, with availability and the order of deletions in every state; nil exactly if nothing that is a reason to stop was logged; after nil every ordinal below the replica count runs the image of the spec and the totals agree; after an error all of the prefix result holds |
| Naming.PodIndexRoundTrip | internal/resources/statefulset.go:229 | cutting a printed pod name after its last dash gives back the ordinal, for any cluster name |
| Naming.PodNameInjective | internal/upgrade/manager.go:137 | a pod name determines the cluster and the ordinal |
| Naming.ServiceNamesApart | internal/resources/service.go:19 | no headless Service of one cluster has the name of another's client Service, and within a kind names are injective |
| Acceptance.AcceptedExactly | internal/validation/validator.go:21-55 | a spec is accepted exactly if, after defaulting, the conditions of all problems hold, each stated on the fields of the spec |
| Acceptance.FirstProblem | internal/validation/validator.go:21-55 | the verdict is the first problem, in the order of the checks, whose condition fails |
| Acceptance.ImageExactly | internal/validation/validator.go:121-124 | an image passes exactly if it is a name and a tag of the allowed characters |
| Acceptance.SizeExactly | internal/validation/validator.go:239-257 | a size passes exactly if it is a number and one of the units |
| Acceptance.DefaultsAre | controllers/keydbcluster_controller.go:182-205 | the five defaults, that given and other fields are kept, and that defaulting twice changes nothing |
| Acceptance.BareSpecIsAccepted | internal/validation/validator.go:68-81 | of a multi-master spec without anything but up to ten replicas the defaults make an accepted one |
| Validation.AcceptedSizes | internal/validation/validator.go:68-105 | an accepted spec asks for 1 to 10 masters or 3 to 6000 pods, int32 arithmetic is exact, and all upgrade ordinals are below 6000 |
| KeyDBConfig.GenerateKeyDBConfig | internal/resources/configmap.go:30-162 | the text that the builder collects is the rendering of the operator's lines followed by the custom entries in the order of the walk |
| Texts.LinesRender | internal/resources/configmap.go:30-162 | splitting a rendered text gives back its lines |
| Parameters.NameInjective | internal/resources/configmap.go:30-162 | no two of the parameters have the same name |
| ConfigReading.OperatorReads | internal/resources/configmap.go:30-151 | the operator's own lines set every parameter to exactly the values of a table on the fields of the spec, in that order |
| CustomConfig.OperatorValuesAreRead | internal/resources/configmap.go:30-162 | in the whole text, for every walk, a parameter that no custom key names has exactly the values of the table |
| CustomConfig.ReservedKeepOperatorValue | internal/validation/validator.go:259-290 | whatever the custom map holds and however it is walked, each reserved parameter has exactly the values of the table |
| CustomConfig.PasswordIsRequired | internal/resources/configmap.go:81-85 | requirepass is read as the password exactly if the spec gives one |
| CustomConfig.PasswordIsPresented | internal/resources/configmap.go:81-85 | masterauth is read as the password exactly if the spec gives one |
| CustomConfig.DataIsLogged | internal/resources/configmap.go:61-79 | appendonly is read as yes exactly if the spec asks for persistence |
| CustomConfig.PortFollowsTls | internal/resources/configmap.go:90-94 | the plain port is read as 0 exactly with TLS and as 6379 exactly without |
| CustomConfig.CustomIsRead | internal/resources/configmap.go:153-159 | every custom parameter is read with the user's value, also over an operator default |
| CustomConfig.TextOrderExactly | internal/resources/configmap.go:153-159 | the text is the same for every walk over the custom map exactly if that has at most one key |
| CustomConfig.OrderMattersExactly | internal/resources/configmap.go:153-159 | two walks can be read differently exactly if two keys differ only in letter case and disagree |
| Workload.NewStatefulSet | internal/resources/statefulset.go:15-185 | the object that is filled in branch by branch follows the spec field by field: each probe is absent exactly if switched off and has its own numbers, defaults and command; resources, hook, sidecar, init image, TLS secret, claim and service name follow their own fields |
| Workload.ScriptRoundTrip | internal/resources/statefulset.go:220-227 | the number printed into the post-start script is the number that its REPLICAS assignment yields |
| MeshScript.AwaitReady | internal/resources/statefulset.go:235-256 | the loop succeeds exactly if the server answers as ready in one of 60 attempts |
| MeshScript.PostStart | internal/resources/statefulset.go:229-268 | a pod that becomes ready connects to its peers in order and exits 0; one that does not exits 1 without connecting |
| MeshScript.PeersAreTheOthers | internal/resources/statefulset.go:258-264 | the peers of a pod are all other ordinals, ascending, each once |
| MeshScript.HostInjective | internal/resources/statefulset.go:262 | different ordinals are different hosts |
| MeshScript.FullMesh | internal/resources/statefulset.go:258-264 | all n pods together make each of the n(n-1) ordered links exactly once |
| Comparators.ExecActionsEqual | controllers/keydbcluster_controller.go:410-426 | the scan decides equality of two optional commands |
| Comparators.ProbesEqualDecides | controllers/keydbcluster_controller.go:391-408 | probes are equal exactly in everything but HTTP headers and grace period |
| Comparators.LifecyclesEqualDecides | controllers/keydbcluster_controller.go:452-473 | lifecycles are equal exactly in everything but HTTP headers |
| Comparators.ResourcesEqualDecides | controllers/keydbcluster_controller.go:384-389 | resources are equal exactly if the four amounts agree, an absent one read as zero |
| Comparators.ComparisonsAreEquivalences | controllers/keydbcluster_controller.go:384-473 | all comparisons are reflexive, symmetric and transitive |
| Controller.SetDefaults | controllers/keydbcluster_controller.go:182-205 | filling in the defaults one by one gives the defaulted spec that validation and children use |
| Controller.RangeOver | internal/resources/configmap.go:155-157 | a range over a map visits every entry once, in some order |
| Controller.UpdateContainer | controllers/keydbcluster_controller.go:320-378 | the five comparisons give the merged container, and ask for a write exactly if one differs |
| Controller.Reconciler.HandleDeletion | controllers/keydbcluster_controller.go:167-180 | the finalizer is removed, in a write that conflicts if the object changed since it was read; nothing is written without it |
| Controller.Reconciler.ReconcileConfigMap | controllers/keydbcluster_controller.go:207-242 | the whole new state: create if missing, refuse if held by another controller, adopt and replace the data exactly if the text differs, for every fault of either call |
| Controller.Reconciler.ReconcileServices | controllers/keydbcluster_controller.go:244-276 | the whole new state: each Service is created exactly if its Get reports it missing, the client Service only after the headless one |
| Controller.Reconciler.ReconcileBudget | controllers/keydbcluster_controller.go:549-568 | the whole new state: nothing unless a budget is configured, else created exactly if its Get reports it missing |
| Controller.Reconciler.ReconcileStatefulSet | controllers/keydbcluster_controller.go:278-381 | the whole new state: create, refuse, or adopt in a write of its own and then merge all differing fields in one more, with the version that the adoption returned |
| Controller.Reconciler.CheckUpgradeNeeded | controllers/keydbcluster_controller.go:570-592 | the answer compares the stored first image, or an empty one, with the wanted image; a missing StatefulSet means no |
| Controller.Reconciler.PerformRollingUpgrade | controllers/keydbcluster_controller.go:594-613 | a missing upgrade status is stored first, an existing one is kept; the manager works with the image that its object holds after its first status write |
| Controller.Reconciler.UpdateStatusWithRetry | controllers/keydbcluster_controller.go:475-547 | the loop is the recursion over attempts, each on a fresh read, about which RetryOutcome speaks |
| Controller.Reconciler.Reconcile | controllers/keydbcluster_controller.go:66-165 | one call does to the world exactly what the specification says, for the order in which it walked the custom map |
| ReconcileGates.RunFollows | controllers/keydbcluster_controller.go:66-165 | every run, under any interference and faults, sends only sanctioned writes, all derived from the one snapshot it started with; accepted ones overwrite nothing unread; a status write moves one concern: the phase after a rejection, what was observed, or the upgrade by one of its phases with the wanted target and image |
| ReconcileSafety.GatesHold | controllers/keydbcluster_controller.go:81-105 | children are written only from a snapshot with finalizer, without deletion mark, and accepted; otherwise no child changes |
| ReconcileSafety.NeverTakesOver | controllers/keydbcluster_controller.go:225-231 | no run takes an object over from another controller, or writes a ConfigMap that has one |
| ReconcileSafety.MissingClusterIsDone | controllers/keydbcluster_controller.go:72-76 | a cluster object that the first Get reports missing: nil, and nothing is sent |
| ReconcileSafety.EveryState | controllers/keydbcluster_controller.go:66-165 | a property that sanctioned writes and other writers keep holds in every state of every sequence of runs |
| ReconcileSafety.NeverRegainsFinalizer | controllers/keydbcluster_controller.go:81-90 | an object that is being deleted never gets the finalizer again, over any sequence of runs |
| MeshInStep.CountAndScriptStayInStep | controllers/keydbcluster_controller.go:313-378 | in multi-master mode, in every state of every sequence of runs, the stored replica count is the REPLICAS of the stored script |
| MeshInStep.CountAndScriptChangeTogether | controllers/keydbcluster_controller.go:364-378 | a new count always brings a new hook in the same write |
| StatusRetry.RetryOutcome | controllers/keydbcluster_controller.go:520-547 | at most three writes; nil exactly if the last was acknowledged; only conflicts were retried; no accepted write loses another writer's change; the end of the loop is never reached |
| StatusRetry.ConflictsAreRetried | controllers/keydbcluster_controller.go:534-539 | if conflicts come from versions only, a conflict is returned only after three writes |
| StatusRetry.ReadyExactly | controllers/keydbcluster_controller.go:487-517 | Ready is True, and the phase Running, exactly if the ready count equals the total and is not zero; nodes, image and upgrade status are kept |
| Convergence.DiffersExactly | controllers/keydbcluster_controller.go:313-378 | an update is asked for exactly if one of the six fields disagrees |
| Convergence.StatefulSetFixedPoint | controllers/keydbcluster_controller.go:278-381 | after any success, whatever other writers do and whatever faults it could have met: all six stored fields agree, nothing else differs from the object that was read, adoption changes only the owner, and a second call does nothing |
| Convergence.IdleRunConverges | controllers/keydbcluster_controller.go:66-165 | an undisturbed run on an accepted spec succeeds exactly if nothing is held by another controller, and then all children are as desired |
| Convergence.ChildrenMatchExactly | controllers/keydbcluster_controller.go:107-130 | after an undisturbed run the children match exactly if, with a ConfigMap held by another controller, they matched before, and otherwise a held StatefulSet agreed already |
| Convergence.FromScratch | controllers/keydbcluster_controller.go:86-90 | the finalizer is stored first and alone; the second run converges |
| Convergence.IdleDeletion | controllers/keydbcluster_controller.go:167-180 | a deleted object loses exactly the operator's finalizer, and is gone exactly if that was the only one |
| Convergence.IdleRejection | controllers/keydbcluster_controller.go:95-105 | an invalid spec yields its problem and the phase Failed, and no child changes |
| Convergence.UpgradeNeededExactly | controllers/keydbcluster_controller.go:570-592 | the check says yes exactly if it reads a StatefulSet whose first container runs another image, or that has none while an image is wanted |
| Convergence.IdleUpgrade | controllers/keydbcluster_controller.go:594-613 | an undisturbed upgrade that the pods let through changes the first container's image and nothing else of the StatefulSet, and leaves its target, the phase Completed and the new image in the status |
| Recovery.CrashRestart | controllers/keydbcluster_controller.go:66-165 | after any sequence of disturbed runs one undisturbed run converges, and the next writes only the status exactly if it wants the same configuration text |
| Recovery.OperatorRecovers | controllers/keydbcluster_controller.go:66-165 | the same for the operator's own desired objects and any accepted spec, the two last runs walking the custom map in orders of their own; with at most one key the last run is always quiet |
| Recovery.QuietForEveryWalk | controllers/keydbcluster_controller.go:226-242 | on converged children the next undisturbed run writes only the status, for every walk over the custom map, exactly if the map has at most one key |
| Recovery.ConvergedCount | internal/resources/statefulset.go:187-199 | the converged replica count is the number of pods that the accepted spec asks for, between 1 and 10 or between 3 and 6000 |
| EndToEnd.StoredConfigReads | internal/resources/configmap.go:14-28 | on a converged cluster a server reads, out of the stored ConfigMap, the table's values for every parameter that no custom key names, and the user's value for each custom key |
| EndToEnd.HostsAreUnderTheService | internal/resources/statefulset.go:262 | the hosts of the script are pods under the StatefulSet's governing Service |
| EndToEnd.StoredScriptsBuildTheMesh | internal/resources/statefulset.go:170-182 | the scripts stored in a converged multi-master StatefulSet assign its replica count, and together build the full mesh on that many pods |
| Success.NoUpgradeAfterReconcile | controllers/keydbcluster_controller.go:126-146 | without other writers, once reconcileStatefulSet returned nil the upgrade check says no, whatever was stored and whichever calls fail |
| Success.UpgradeWithoutContainers | controllers/keydbcluster_controller.go:585-591 | without other writers, and if its read succeeds, it says yes exactly if the StatefulSet was stored without a container |
| Success.FollowIsStatus | controllers/keydbcluster_controller.go:132-152 | without other writers, a run whose children succeeded ends in the status loop or with the error of the check's read, whichever calls fail |
| Success.SuccessConverges | controllers/keydbcluster_controller.go:66-165 | without other writers, a run on an accepted spec that returns nil has made all children as desired, whichever calls could have failed |

## Left out

- UpgradeOrder.GetClusterModeUpgradeOrder: a replica count per shard of the largest int32 is excluded, because the loop over it does not end.
- ReconcileLoop.RunManager: within the reconcile loop one status write stands for the manager's write per pod, and how far the pods let it come is a parameter; the pods themselves are the subject of UpgradeManager.
- Controller.Reconciler.RunManager: the same abstraction in imperative form.
- Controller.Reconciler.PerformRollingUpgrade: calls the manager in that abstraction.
- Controller.Reconciler.Reconcile: so does its upgrade branch.
- Controller.Reconciler.ReconcileServices: content and owner of the Services are not modelled, because they are written once and never looked at again; only their existence is.
- Controller.Reconciler.ReconcileBudget: the same for the budget.
- Workload.NewStatefulSet: ports, environment, volumes other than TLS, labels, topology constraints and the bodies of the scripts are absent.
- EndToEnd.StoredScriptsBuildTheMesh: the stored script provides the number of masters; the loops that use it are the methods of MeshScript, not an interpretation of the stored text.
- UpgradeManager.Manager.WaitForPodReady: the time that polling takes is a sum of arbitrary steps; no bound on real time is stated.
- Workload.MeshLines: of the post-start script's text only the assignments and the first comment appear; its loops are modelled as methods, its messages are not.
- Workload.ReadinessCommand: each built-in readiness script is represented by its first line.
- PerformRollingUpgrade's choice of strategy, and the Recreate strategy: its wait accepts an empty pod list and checks no image.
- Content of Services, budgets, ports, volumes, environment variables and topology constraints: written at creation and never compared; only existence, or the parts in `Creation`, is modelled.
- ConfigMap ownership: adoption is stored only together with a new text, so only text equality is claimed.
- Parsing of quantities and the general form of images and sizes beyond the validator's patterns; an accepted size need not parse.
- Unicode case folding beyond what can reach an ASCII letter.
- Requeue delays, logging, events, leader election, caches and watches.
- StatefulSet rolling updates, evictions and `maxUnavailable`, which the manager does not use; KeyDB's own replication and failover; ServiceMonitor types.
- Stale reads: reads return the current store.
