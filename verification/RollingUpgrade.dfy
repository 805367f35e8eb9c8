/** The rolling upgrade as a state machine: the manager's API calls, each of which may be refused or may
    lose its reply, interleaved with everything the cluster does to the pods meanwhile. */
module RollingUpgrade {
  import opened Types

  // ---- pods as the API server shows them ----

  datatype ConditionKind = PodReady | OtherCondition(name: string)
  datatype ConditionStatus = True | False | Unknown
  datatype Condition = Condition(kind: ConditionKind, status: ConditionStatus)

  /** One incarnation of a pod; uid tells incarnations under the same name apart. `containers` are the
      images; a terminating pod stays visible until its grace period is over. */
  datatype Pod = Pod(uid: nat, containers: seq<string>, conditions: seq<Condition>, terminating: bool)

  predicate NotReady(c: Condition) { c.kind.PodReady? && !c.status.True? }
  predicate Ready(c: Condition) { c.kind.PodReady? && c.status.True? }

  /** The test that both validations make: no Ready condition says otherwise. */
  predicate NoneNotReady(conditions: seq<Condition>) { forall c :: c in conditions ==> !NotReady(c) }

  /** The test that the wait loop makes: some Ready condition is True. */
  predicate SomeReady(conditions: seq<Condition>) { exists c :: c in conditions && Ready(c) }

  predicate CarriesReady(conditions: seq<Condition>) { exists c :: c in conditions && c.kind.PodReady? }

  predicate IsReady(conditions: seq<Condition>) { CarriesReady(conditions) && NoneNotReady(conditions) }

  predicate RunsImage(pod: Pod, image: string) { pod.containers != [] && pod.containers[0] == image }

  // ---- the machine ----

  /** names: the pods in upgrade order. publishes: whether every pod the cluster shows carries a Ready
      condition from its creation on. */
  datatype Plan = Plan(names: seq<string>, target: string, total: int32, publishes: bool)

  datatype Phase = InProgress | Failed | Completed | OtherPhase(name: string)
  datatype Progress = Progress(phase: Phase, upgradedPods: int32, totalPods: int32, currentImage: string)

  /** Where the manager is; k counts the pods it is done with. */
  datatype Control =
    | Begin
    | NextPod(k: nat)       // about to validate names[k], or done when there is none
    | Prechecked(k: nat)
    | Patched(k: nat)       // the template is known to carry the target image
    | Fetched(k: nat)
    | Waiting(k: nat)       // names[k] was deleted
    | SawReady(k: nat)
    | Validated(k: nat)     // upgradePod returned nil; the counter is not yet moved
    | PodFailed(k: nat)     // upgradePod returned an error for names[k]
    | Finished
    | Stopped(k: nat, fromPod: bool)   // returned an error, after k successful upgradePod calls

  /** `template` and `stored` are in the API server; `local` and `progress` are the manager's copies. */
  datatype State = State(control: Control, pods: map<string, Pod>, template: seq<string>, local: seq<string>,
                         progress: Progress, stored: Progress, deleted: seq<string>, nextUid: nat)

  // ---- what the cluster does ----

  datatype EnvAction =
    | Remove(name: string)                              // the grace period of a deleted pod ends
    | Recreate(name: string, conditions: seq<Condition>)   // the StatefulSet controller fills a gap
    | Report(name: string, conditions: seq<Condition>)     // the kubelet reports

  /** Assumptions on the cluster: only deleted pods disappear, new pods come from the stored template, and
      only a terminating pod loses its readiness. */
  predicate Enabled(p: Plan, s: State, a: EnvAction) {
    match a
    case Remove(name) => name in s.pods && s.pods[name].terminating
    case Recreate(name, conditions) => name in p.names && name !in s.pods && (p.publishes ==> CarriesReady(conditions))
    case Report(name, conditions) =>
      && name in s.pods && (p.publishes ==> CarriesReady(conditions))
      && (IsReady(s.pods[name].conditions) && !s.pods[name].terminating ==> IsReady(conditions))
  }

  function Apply(s: State, a: EnvAction): State
    requires a.Report? ==> a.name in s.pods
  {
    match a
    case Remove(name) => s.(pods := s.pods - {name})
    case Recreate(name, conditions) =>
      s.(pods := s.pods[name := Pod(s.nextUid, s.template, conditions, false)], nextUid := s.nextUid + 1)
    case Report(name, conditions) => s.(pods := s.pods[name := s.pods[name].(conditions := conditions)])
  }

  ghost predicate EnvStep(p: Plan, s: State, a: EnvAction, s': State) {
    Enabled(p, s, a) && s' == Apply(s, a)
  }

  // ---- what the manager does ----

  function SetImage(template: seq<string>, image: string): seq<string>
    requires template != []
  {
    template[0 := image]
  }

  /** A status write: the manager keeps its own copy whatever happens; an error may hide a write that
      took effect. */
  ghost predicate StatusWrite(s: State, progress: Progress, ok: Control, err: Control, s': State) {
    || s' == s.(progress := progress, stored := progress, control := ok)
    || s' == s.(progress := progress, control := err)
    || s' == s.(progress := progress, stored := progress, control := err)
  }

  /** upgradedPods++ on an int32, and k of them. */
  function Increment(x: int32): int32 { Wrap32(x + 1) }

  function Plus(x: int32, k: nat): int32 {
    if k == 0 then x else Increment(Plus(x, k - 1))
  }

  lemma WrapThenIncrement(y: int)
    ensures Increment(Wrap32(y)) == Wrap32(y + 1)
  {
    var m := (y + 0x8000_0000) % 0x1_0000_0000;
    assert (m + 1) % 0x1_0000_0000 == (y + 1 + 0x8000_0000) % 0x1_0000_0000;
  }

  lemma {:induction false} PlusWraps(x: int32, k: nat)
    ensures Plus(x, k) == Wrap32(x + k)
  {
    if k > 0 {
      PlusWraps(x, k - 1);
      WrapThenIncrement(x + k - 1);
    }
  }

  function Started(p: Plan, g: Progress): Progress { g.(phase := InProgress, totalPods := p.total) }
  function Counted(g: Progress): Progress { g.(upgradedPods := Increment(g.upgradedPods)) }
  function Done(p: Plan, g: Progress): Progress { g.(phase := Completed, currentImage := p.target) }

  predicate PassesBefore(s: State, name: string) {
    name in s.pods && NoneNotReady(s.pods[name].conditions)
  }

  predicate PassesAfter(s: State, name: string, target: string) {
    && PassesBefore(s, name)
    && (s.pods[name].containers != [] ==> s.pods[name].containers[0] == target)
  }

  ghost predicate ManagerStep(p: Plan, s: State, s': State) {
    match s.control
    case Begin => StatusWrite(s, Started(p, s.progress), NextPod(0), Stopped(0, false), s')
    case NextPod(k) =>
      if k < |p.names| then
        (PassesBefore(s, p.names[k]) && s' == s.(control := Prechecked(k))) || PodError(s, k, s')
      else StatusWrite(s, Done(p, s.progress), Finished, Stopped(k, false), s')
    case Prechecked(k) =>
      s.local != [] &&
      if s.local[0] == p.target then s' == s.(control := Patched(k))
      else
        var patched := SetImage(s.local, p.target);
        || s' == s.(local := patched, template := patched, control := Patched(k))
        || s' == s.(local := patched, template := patched, control := PodFailed(k))
        || s' == s.(local := patched, control := PodFailed(k))
    case Patched(k) =>
      k < |p.names| && ((p.names[k] in s.pods && s' == s.(control := Fetched(k))) || PodError(s, k, s'))
    case Fetched(k) =>
      k < |p.names| &&
      ((p.names[k] in s.pods &&
        (s' == Delete(s, p.names[k], Waiting(k)) || s' == Delete(s, p.names[k], PodFailed(k))))
       || PodError(s, k, s'))
    case Waiting(k) =>
      k < |p.names| &&
      ((p.names[k] in s.pods && SomeReady(s.pods[p.names[k]].conditions) && s' == s.(control := SawReady(k)))
       || PodError(s, k, s'))
    case SawReady(k) =>
      k < |p.names| &&
      ((PassesAfter(s, p.names[k], p.target) && s' == s.(control := Validated(k))) || PodError(s, k, s'))
    case Validated(k) => StatusWrite(s, Counted(s.progress), NextPod(k + 1), Stopped(k + 1, false), s')
    case PodFailed(k) => StatusWrite(s, s.progress.(phase := Failed), Stopped(k, true), Stopped(k, true), s')
    case Finished => false
    case Stopped(_, _) => false
  }

  ghost predicate PodError(s: State, k: nat, s': State) { s' == s.(control := PodFailed(k)) }

  /** Graceful deletion by name: whatever incarnation is there starts to terminate. */
  function Delete(s: State, name: string, control: Control): State
    requires name in s.pods
  {
    s.(pods := s.pods[name := s.pods[name].(terminating := true)], deleted := s.deleted + [name], control := control)
  }

  ghost predicate Next(p: Plan, s: State, s': State) {
    ManagerStep(p, s, s') || exists a :: EnvStep(p, s, a, s')
  }

  lemma EnvMoves(p: Plan, s: State, a: EnvAction, s': State)
    requires Enabled(p, s, a) && s' == Apply(s, a)
    ensures Next(p, s, s')
  {
    assert EnvStep(p, s, a, s');
  }

  // ---- runs ----

  ghost predicate Init(p: Plan, s: State) {
    && s.control == Begin && s.deleted == []
    && s.local == s.template && s.template != []          // the manager has just read the StatefulSet
    && (forall name :: name in s.pods ==> s.pods[name].uid < s.nextUid && s.pods[name].containers != [])
    && (forall i, j :: 0 <= i < j < |p.names| ==> p.names[i] != p.names[j])
  }

  /** The i-th pod of the order is shown, nobody is deleting it, and it does not run the target image; only the first
      may be missing instead, if the template does not have the target image yet. */
  predicate OldAt(p: Plan, s: State, i: nat)
    requires i < |p.names|
  {
    if p.names[i] in s.pods then !s.pods[p.names[i]].terminating && !RunsImage(s.pods[p.names[i]], p.target)
    else i == 0 && s.template != [] && s.template[0] != p.target
  }

  ghost predicate StepAt(p: Plan, h: seq<State>, i: nat)
    requires i + 1 < |h|
  {
    Next(p, h[i], h[i + 1])
  }

  /** The states of a run so far, first to last. */
  ghost predicate Run(p: Plan, h: seq<State>) {
    h != [] && Init(p, h[0]) && forall i: nat {:trigger StepAt(p, h, i)} :: i + 1 < |h| ==> StepAt(p, h, i)
  }

  lemma ExtendRun(p: Plan, h: seq<State>, s: State)
    requires Run(p, h) && Next(p, h[|h| - 1], s)
    ensures Run(p, h + [s])
  {
    var h' := h + [s];
    forall i: nat | i + 1 < |h'| ensures StepAt(p, h', i) {
      if i + 1 < |h| { assert StepAt(p, h, i); }
    }
  }

  // ---- the invariant ----

  /** The number of successful upgradePod calls. */
  function Successes(p: Plan, c: Control): nat {
    match c
    case Begin => 0
    case Finished => |p.names|
    case Validated(k) => k + 1
    case _ => c.k
  }

  /** How many of them the in-memory counter shows. */
  function CounterAt(p: Plan, c: Control): nat {
    match c
    case Validated(k) => k
    case _ => Successes(p, c)
  }

  /** The manager got past patching the template at least once. */
  predicate PastPatch(s: State) {
    s.control.Patched? || s.control.Fetched? || s.deleted != []
  }

  /** The deleted pods are a prefix of the order, one longer than the successes while a pod is in flight. */
  ghost predicate Ledger(p: Plan, s: State) {
    var n, d, c := Successes(p, s.control), |s.deleted|, s.control;
    && n <= d <= |p.names| && s.deleted == p.names[..d]
    && (d == n || (d == n + 1 && (c.Waiting? || c.SawReady? || c.PodFailed? || (c.Stopped? && c.fromPod))))
    && (c.Waiting? || c.SawReady? ==> d == n + 1)
    && (c.Prechecked? || c.Patched? || c.Fetched? || c.Waiting? || c.SawReady? || c.PodFailed? ==> c.k < |p.names|)
  }

  ghost predicate Templates(p: Plan, s0: State, s: State) {
    && s.template != [] && s.local != []
    && (!s.control.PodFailed? && !s.control.Stopped? ==> s.local == s.template)
    && (PastPatch(s) ==> s.template[0] == p.target)
    && s.nextUid >= s0.nextUid
    && (forall name :: name in s.pods ==> s.pods[name].containers != [])
  }

  ghost predicate Counters(p: Plan, s0: State, s: State) {
    var c := s.control;
    && s.progress.upgradedPods == Plus(s0.progress.upgradedPods, CounterAt(p, c))
    && (s.stored.upgradedPods == s.progress.upgradedPods
        || (c.Begin? && s.stored == s0.stored)
        || (c.Stopped? && c.k == 0 && s.stored == s0.stored)
        || (c.Stopped? && 0 < c.k && s.stored.upgradedPods == Plus(s0.progress.upgradedPods, c.k - 1)))
    && (if c.Begin? then s.progress == s0.progress && s.stored == s0.stored
        else s.progress.totalPods == p.total
             && (!c.Stopped? && !c.Finished? ==> s.progress.phase == InProgress)
             && (s.progress.phase == Failed <==> c.Stopped? && c.fromPod)
             && (c.Finished? ==> s.progress == s.stored && s.progress.phase == Completed
                                 && s.progress.currentImage == p.target))
  }

  /** Pods that were not deleted are the ones the upgrade started with. */
  ghost predicate Untouched(p: Plan, s0: State, s: State) {
    forall i :: |s.deleted| <= i < |p.names| && p.names[i] in s0.pods && !s0.pods[p.names[i]].terminating ==>
      && p.names[i] in s.pods
      && s.pods[p.names[i]] == s0.pods[p.names[i]].(conditions := s.pods[p.names[i]].conditions)
  }

  /** A pod that passed its upgrade is never shown with another image again. */
  ghost predicate OnTarget(p: Plan, s: State) {
    forall i :: 0 <= i < Successes(p, s.control) <= |p.names| && p.names[i] in s.pods ==>
      RunsImage(s.pods[p.names[i]], p.target)
  }

  ghost predicate Basics(p: Plan, s0: State, s: State) {
    Ledger(p, s) && Templates(p, s0, s) && Counters(p, s0, s) && Untouched(p, s0, s) && OnTarget(p, s)
  }

  lemma BasicsInit(p: Plan, s: State)
    requires Init(p, s)
    ensures Basics(p, s, s)
  {
  }

  lemma BasicsEnv(p: Plan, s0: State, s: State, a: EnvAction, s': State)
    requires Basics(p, s0, s) && EnvStep(p, s, a, s')
    ensures Basics(p, s0, s')
  {
    assert forall i :: 0 <= i < Successes(p, s.control) ==> p.names[i] == s.deleted[i];
    assert Ledger(p, s') && Templates(p, s0, s') && Counters(p, s0, s');
  }

  /** All that a manager step does to the pods and to the list of deletions: nothing, or one deletion. */
  ghost predicate DeletesAtMost(p: Plan, s: State, s': State) {
    || (s'.pods == s.pods && s'.deleted == s.deleted)
    || (s.control.Fetched? && s.control.k < |p.names| && p.names[s.control.k] in s.pods
        && s' == Delete(s, p.names[s.control.k], s'.control))
  }

  /** A success is counted only after the pod passed its validation. */
  ghost predicate SucceedsValidly(p: Plan, s: State, s': State) {
    var n, n' := Successes(p, s.control), Successes(p, s'.control);
    n' == n || (n' == n + 1 && n < |p.names| && s'.pods == s.pods && s'.deleted == s.deleted
                && PassesAfter(s, p.names[n], p.target))
  }

  lemma ManagerFrame(p: Plan, s: State, s': State)
    requires Ledger(p, s) && ManagerStep(p, s, s')
    ensures DeletesAtMost(p, s, s') && SucceedsValidly(p, s, s')
  {
  }

  lemma LedgerManager(p: Plan, s: State, s': State)
    requires Ledger(p, s) && ManagerStep(p, s, s')
    ensures Ledger(p, s')
  {
    ManagerFrame(p, s, s');
    if s'.deleted != s.deleted {
      assert s'.deleted == p.names[..s.control.k + 1];
    }
  }

  lemma TemplatesManager(p: Plan, s0: State, s: State, s': State)
    requires Ledger(p, s) && Templates(p, s0, s) && ManagerStep(p, s, s')
    ensures Templates(p, s0, s')
  {
  }

  predicate WritesStatus(c: Control) { c.Begin? || c.NextPod? || c.Validated? || c.PodFailed? }

  lemma CountersManager(p: Plan, s0: State, s: State, s': State)
    requires Ledger(p, s) && Counters(p, s0, s) && ManagerStep(p, s, s')
    ensures Counters(p, s0, s')
  {
    if WritesStatus(s.control) {
      CountersStatus(p, s0, s, s');
    } else {
      assert s'.progress == s.progress && s'.stored == s.stored;
    }
  }

  lemma CountersStatus(p: Plan, s0: State, s: State, s': State)
    requires Ledger(p, s) && Counters(p, s0, s) && ManagerStep(p, s, s') && WritesStatus(s.control)
    ensures Counters(p, s0, s')
  {
  }

  lemma PodsManager(p: Plan, s0: State, s: State, s': State)
    requires Init(p, s0) && Ledger(p, s) && Ledger(p, s') && Templates(p, s0, s)
    requires DeletesAtMost(p, s, s') && SucceedsValidly(p, s, s')
    ensures Untouched(p, s0, s) ==> Untouched(p, s0, s')
    ensures OnTarget(p, s) ==> OnTarget(p, s')
  {
  }

  lemma BasicsManager(p: Plan, s0: State, s: State, s': State)
    requires Init(p, s0) && Basics(p, s0, s) && ManagerStep(p, s, s')
    ensures Basics(p, s0, s')
  {
    ManagerFrame(p, s, s');
    LedgerManager(p, s, s');
    TemplatesManager(p, s0, s, s');
    CountersManager(p, s0, s, s');
    PodsManager(p, s0, s, s');
  }

  lemma {:induction false} BasicsAlways(p: Plan, h: seq<State>, i: nat)
    requires Run(p, h) && i < |h|
    ensures Basics(p, h[0], h[i])
  {
    if i == 0 {
      BasicsInit(p, h[0]);
    } else {
      BasicsAlways(p, h, i - 1);
      var s, s' := h[i - 1], h[i];
      assert StepAt(p, h, i - 1);
      if a :| EnvStep(p, s, a, s') { BasicsEnv(p, h[0], s, a, s'); } else { BasicsManager(p, h[0], s, s'); }
    }
  }
}
