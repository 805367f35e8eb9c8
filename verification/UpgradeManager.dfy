/** The upgrade manager in its own form: methods that call the API server, mutate their in-memory objects and
    poll. Between any two calls the cluster acts. Every execution is a run of the RollingUpgrade machine. */
module UpgradeManager {
  import opened Types
  import opened Naming
  import opened UpgradeOrder
  import opened RollingUpgrade
  import opened RollingUpgradeSafety

  /** The pods in the order of their upgrade. */
  function PodNames(cluster: string, order: seq<int>): (names: seq<string>)
    requires forall x :: x in order ==> x >= 0
    ensures |names| == |order|
    ensures forall i :: 0 <= i < |order| ==> order[i] >= 0 && names[i] == PodName(cluster, order[i])
  {
    if order == [] then []
    else
      assert order[0] in order && forall x :: x in order[1..] ==> x in order;
      [PodName(cluster, order[0])] + PodNames(cluster, order[1..])
  }

  function PlanFor(cluster: string, spec: Spec, replicas: int32, publishes: bool): Plan
    requires Countable(spec)
  {
    OrderCoversReplicas(spec);
    Plan(PodNames(cluster, OrderOf(spec)), spec.image, replicas, publishes)
  }

  /** One rolling upgrade never deletes through the same name twice. */
  lemma PodNamesDistinct(cluster: string, spec: Spec, replicas: int32, publishes: bool)
    requires Countable(spec)
    ensures var names := PlanFor(cluster, spec, replicas, publishes).names;
            |names| == CalculateReplicas(spec) && forall i, j :: 0 <= i < j < |names| ==> names[i] != names[j]
  {
    OrderCoversReplicas(spec);
    var order := OrderOf(spec);
    var names := PodNames(cluster, order);
    forall i, j | 0 <= i < j < |names| ensures names[i] != names[j] {
      assert order[i] >= 0 && order[j] >= 0 && order[i] != order[j];
      if names[i] == names[j] { PodNameInjective(cluster, order[i], cluster, order[j]); }
    }
  }

  /** Every ordinal below the pod count has its place in the plan. */
  lemma OrdinalInPlan(cluster: string, spec: Spec, replicas: int32, publishes: bool, ordinal: nat)
    requires Countable(spec) && ordinal < CalculateReplicas(spec)
    ensures PodName(cluster, ordinal) in PlanFor(cluster, spec, replicas, publishes).names
  {
    OrderCoversReplicas(spec);
    var order := OrderOf(spec);
    assert ordinal in order;
    var k :| 0 <= k < |order| && order[k] == ordinal;
    assert PodNames(cluster, order)[k] == PodName(cluster, ordinal);
  }

  // ---- the order of the deletions ----

  /** The first ordinal of each shard is its master. */
  function Masters(width: nat): int -> bool
    requires 1 <= width
  {
    x => x % width == 0
  }

  /** In cluster mode no master is deleted before every replica of every shard, and within both kinds the ordinals
      ascend; in the other modes the pods are deleted in ascending order. */
  ghost predicate RespectsOrder(cluster: string, spec: Spec, deleted: seq<string>) {
    if spec.mode == ClusterMode && spec.cluster.Some? then
      var c := spec.cluster.value;
      && 0 <= c.replicasPerShard
      && var width := 1 + c.replicasPerShard;
         && MastersLast(cluster, c.shards * width, Masters(width), deleted)
         && KindsAscend(cluster, Masters(width), deleted)
    else forall i :: 0 <= i < |deleted| ==> deleted[i] == PodName(cluster, i)
  }

  /** If a master's name is there, then the names of all replicas below n are. */
  ghost predicate MastersLast(cluster: string, n: int, isMaster: int -> bool, deleted: seq<string>) {
    forall x: nat, y: nat ::
      (PodName(cluster, x) in deleted && isMaster(x) && y < n && !isMaster(y)) ==> PodName(cluster, y) in deleted
  }

  ghost predicate KindsAscend(cluster: string, isMaster: int -> bool, deleted: seq<string>) {
    forall i, j, x: nat, y: nat ::
      (0 <= i < j < |deleted| && deleted[i] == PodName(cluster, x) && deleted[j] == PodName(cluster, y)
       && isMaster(x) == isMaster(y)) ==> x < y
  }

  lemma OrdinalAt(cluster: string, order: seq<int>, k: nat, x: nat)
    requires k < |order| && (forall v :: v in order ==> v >= 0) && PodNames(cluster, order)[k] == PodName(cluster, x)
    ensures order[k] == x
  {
    PodNameInjective(cluster, order[k], cluster, x);
  }

  /** The order is two ascending lists, first m ordinals that are no masters, then the masters. */
  ghost predicate TwoKinds(order: seq<int>, m: nat, n: nat, isMaster: int -> bool) {
    && m <= |order| && (forall v :: v in order ==> v >= 0)
    && (forall k :: 0 <= k < m ==> !isMaster(order[k]))
    && (forall k :: m <= k < |order| ==> isMaster(order[k]))
    && (forall k, l :: 0 <= k < l < |order| && (l < m || m <= k) ==> order[k] < order[l])
    && (forall y: nat :: y < n && !isMaster(y) ==> y in order[..m])
  }

  /** Two ascending lists of the two kinds, one after the other. */
  lemma TwoLists(rs: seq<int>, ms: seq<int>, n: nat, isMaster: int -> bool)
    requires forall x :: x in rs <==> 0 <= x < n && !isMaster(x)
    requires forall x :: x in ms <==> 0 <= x < n && isMaster(x)
    requires forall i, j :: 0 <= i < j < |rs| ==> rs[i] < rs[j]
    requires forall i, j :: 0 <= i < j < |ms| ==> ms[i] < ms[j]
    ensures TwoKinds(rs + ms, |rs|, n, isMaster)
  {
    var order := rs + ms;
    assert order[..|rs|] == rs;
    forall v | v in order ensures v >= 0 {
      assert v in rs || v in ms;
    }
    forall k | 0 <= k < |rs| ensures !isMaster(order[k]) {
      assert rs[k] in rs;
    }
    forall k | |rs| <= k < |order| ensures isMaster(order[k]) {
      assert ms[k - |rs|] in ms;
    }
  }

  lemma ReplicasFirstHasTwoKinds(n: nat, width: nat)
    requires 1 <= width
    ensures TwoKinds(ReplicasFirst(n, width), |Ordinals(n, width, false)|, n, Masters(width))
  {
    TwoLists(Ordinals(n, width, false), Ordinals(n, width, true), n, Masters(width));
  }

  lemma PrefixMastersLast(cluster: string, order: seq<int>, m: nat, n: nat, isMaster: int -> bool, d: nat)
    requires TwoKinds(order, m, n, isMaster) && d <= |order|
    ensures MastersLast(cluster, n, isMaster, PodNames(cluster, order)[..d])
  {
    var names := PodNames(cluster, order);
    forall x: nat, y: nat | PodName(cluster, x) in names[..d] && isMaster(x) && y < n && !isMaster(y)
      ensures PodName(cluster, y) in names[..d]
    {
      var k :| 0 <= k < d && names[k] == PodName(cluster, x);
      OrdinalAt(cluster, order, k, x);
      assert y in order[..m];
      var i :| 0 <= i < m && order[i] == y;
      assert names[..d][i] == PodName(cluster, y);
    }
  }

  lemma PrefixKindsAscend(cluster: string, order: seq<int>, m: nat, n: nat, isMaster: int -> bool, d: nat)
    requires TwoKinds(order, m, n, isMaster) && d <= |order|
    ensures KindsAscend(cluster, isMaster, PodNames(cluster, order)[..d])
  {
    var names := PodNames(cluster, order);
    forall i, j, x: nat, y: nat | 0 <= i < j < d && names[i] == PodName(cluster, x) && names[j] == PodName(cluster, y)
                                  && isMaster(x) == isMaster(y)
      ensures x < y
    {
      OrdinalAt(cluster, order, i, x);
      OrdinalAt(cluster, order, j, y);
    }
  }

  /** Whatever prefix of the plan has been deleted respects the order. */
  lemma PrefixRespectsOrder(cluster: string, spec: Spec, replicas: int32, publishes: bool, d: nat)
    requires Countable(spec) && d <= |PlanFor(cluster, spec, replicas, publishes).names|
    ensures RespectsOrder(cluster, spec, PlanFor(cluster, spec, replicas, publishes).names[..d])
  {
    OrderCoversReplicas(spec);
    if spec.mode == ClusterMode && spec.cluster.Some? {
      var c, order := spec.cluster.value, OrderOf(spec);
      var width := 1 + c.replicasPerShard;
      var n := c.shards * width;
      ReplicasFirstHasTwoKinds(n, width);
      PrefixMastersLast(cluster, order, |Ordinals(n, width, false)|, n, Masters(width), d);
      PrefixKindsAscend(cluster, order, |Ordinals(n, width, false)|, n, Masters(width), d);
    }
  }

  // ---- what the manager sees of the API server ----

  /** A call is served, refused without effect, or takes effect and loses its reply. */
  datatype Reply = Served | Refused | ReplyLost

  datatype Verb = Get | Delete | Update | WriteStatus

  /** A call, with where the manager was, and for a Get or Delete the pod that it found; and the end of a wait, with
      what its polls found and how long it took. */
  datatype Entry =
    | Call(at: Control, verb: Verb, reply: Reply, pod: Option<Pod>)
    | GaveUp(polls: seq<Option<Pod>>, waited: nat)

  /** The entry is a reason to stop: a call that is not served, a missing pod, a pod that a validation objects to, or a
      wait that took its whole time without seeing a ready pod. Polls and the write of the phase Failed are none. */
  predicate Fatal(spec: Spec, e: Entry) {
    match e
    case Call(at, verb, reply, pod) =>
      (match at
       case NextPod(_) =>
         if verb.Get? then pod.None? || !NoneNotReady(pod.value.conditions) else reply != Served
       case Patched(_) => pod.None?
       case Fetched(_) => pod.None?
       case SawReady(_) =>
         pod.None? || !NoneNotReady(pod.value.conditions)
         || (pod.value.containers != [] && pod.value.containers[0] != spec.image)
       case Waiting(_) => false
       case PodFailed(_) => false
       case _ => reply != Served)
    case GaveUp(polls, waited) =>
      && waited >= (if spec.upgrade.Some? && spec.upgrade.value.validationTimeoutSeconds > 0
                    then spec.upgrade.value.validationTimeoutSeconds else 300)
      && polls != [] && forall pod :: pod in polls ==> pod.None? || !SomeReady(pod.value.conditions)
  }

  predicate Smooth(spec: Spec, log: seq<Entry>) { forall e :: e in log ==> !Fatal(spec, e) }

  lemma SmoothConcat(spec: Spec, a: seq<Entry>, b: seq<Entry>)
    ensures Smooth(spec, a + b) <==> Smooth(spec, a) && Smooth(spec, b)
  {
    assert forall e :: e in a + b <==> e in a || e in b;
  }

  lemma SmoothOne(spec: Spec, before: seq<Entry>, e: Entry)
    ensures Smooth(spec, (before + [e])[|before|..]) <==> !Fatal(spec, e)
  {
    assert (before + [e])[|before|..] == [e] && e in [e];
  }

  predicate IsPoll(e: Entry, at: Control, pod: Option<Pod>) { e.Call? && e.at == at && e.verb == Get && e.pod == pod }

  /** From before to after the log grew by these polls at one place, and nothing else. */
  ghost predicate Polled(at: Control, before: seq<Entry>, after: seq<Entry>, polls: seq<Option<Pod>>) {
    && |after| == |before| + |polls| && before <= after
    && forall j :: 0 <= j < |polls| ==> IsPoll(after[|before| + j], at, polls[j])
  }

  lemma PolledOnceMore(at: Control, before: seq<Entry>, after: seq<Entry>, polls: seq<Option<Pod>>, e: Entry)
    requires Polled(at, before, after, polls) && e.Call? && e.at == at && e.verb == Get
    ensures Polled(at, before, after + [e], polls + [e.pod])
  {
    var more, pods := after + [e], polls + [e.pod];
    forall j | 0 <= j < |pods| ensures IsPoll(more[|before| + j], at, pods[j]) {
      if j < |polls| { assert IsPoll(after[|before| + j], at, polls[j]); }
    }
  }

  lemma PollsAreSmooth(spec: Spec, at: Control, before: seq<Entry>, after: seq<Entry>, polls: seq<Option<Pod>>)
    requires at.Waiting? && Polled(at, before, after, polls)
    ensures Smooth(spec, after[|before|..])
  {
    var grown := after[|before|..];
    forall e | e in grown ensures !Fatal(spec, e) {
      var j :| 0 <= j < |grown| && grown[j] == e;
      assert IsPoll(after[|before| + j], at, polls[j]);
    }
  }

  /** Which status writes the manager makes at which point. */
  ghost predicate Writes(p: Plan, c: Control, was: Progress, now: Progress, ok: Control, err: Control) {
    match c
    case Begin => now == Started(p, was) && ok == NextPod(0) && err == Stopped(0, false)
    case NextPod(k) => k >= |p.names| && now == Done(p, was) && ok == Finished && err == Stopped(k, false)
    case Validated(k) => now == Counted(was) && ok == NextPod(k + 1) && err == Stopped(k + 1, false)
    case PodFailed(k) => now == was.(phase := Failed) && ok == err == Stopped(k, true)
    case _ => false
  }

  lemma WritesAreSteps(p: Plan, s: State, now: Progress, ok: Control, err: Control, s': State)
    requires Writes(p, s.control, s.progress, now, ok, err) && StatusWrite(s, now, ok, err, s')
    ensures Next(p, s, s')
  {
  }

  predicate ShowsReady(pod: Option<Pod>) { pod.Some? && SomeReady(pod.value.conditions) }

  class Manager {
    const cluster: string
    const plan: Plan

    /** What becomes of the n-th call. */
    const outcomes: nat -> Reply

    // The API server's objects.
    var pods: map<string, Pod>
    var template: seq<string>
    var stored: Progress
    var nextUid: nat

    // The manager's copies: the images of the StatefulSet it has read, and the status of the custom resource.
    var local: seq<string>
    var progress: Progress

    var calls: nat
    var clock: nat
    ghost var log: seq<Entry>
    ghost var control: Control
    ghost var deleted: seq<string>
    ghost var history: seq<State>

    /** The machine's state when the manager's last API call saw the copies l and g. */
    ghost function Shown(l: seq<string>, g: Progress): State
      reads this
    {
      State(control, pods, template, l, g, stored, deleted, nextUid)
    }

    ghost predicate Valid(l: seq<string>, g: Progress)
      reads this
    {
      Run(plan, history) && history[|history| - 1] == Shown(l, g)
    }

    /** PerformRollingUpgrade starts by reading the StatefulSet; the cluster object was read before. */
    constructor (cluster: string, spec: Spec, replicas: int32, publishes: bool, outcomes: nat -> Reply,
                 pods: map<string, Pod>, template: seq<string>, progress: Progress, nextUid: nat)
      requires Countable(spec) && template != []
      requires forall name :: name in pods ==> pods[name].uid < nextUid && pods[name].containers != []
      ensures plan == PlanFor(cluster, spec, replicas, publishes) && this.cluster == cluster
      ensures Valid(local, this.progress) && control == Begin && |history| == 1
      ensures this.pods == pods && this.template == template == local && stored == progress == this.progress
      ensures this.outcomes == outcomes && calls == 0 && log == []
    {
      PodNamesDistinct(cluster, spec, replicas, publishes);
      this.cluster, this.outcomes := cluster, outcomes;
      this.plan := PlanFor(cluster, spec, replicas, publishes);
      this.pods, this.template, this.stored, this.nextUid := pods, template, progress, nextUid;
      this.local, this.progress := template, progress;
      this.calls, this.clock, this.log := 0, 0, [];
      this.control, this.deleted := Begin, [];
      this.history := [State(Begin, pods, template, template, progress, progress, [], nextUid)];
    }

    /** Record that the machine moved. */
    ghost method Record(l: seq<string>, g: Progress)
      requires Run(plan, history) && Next(plan, history[|history| - 1], Shown(l, g))
      modifies `history
      ensures Valid(l, g) && old(history) <= history
    {
      ExtendRun(plan, history, Shown(l, g));
      history := history + [Shown(l, g)];
    }

    /** Something the cluster does on its own, if it can. */
    method InterfereOnce(ghost g: Progress, ghost l: seq<string>)
      requires Valid(l, g)
      modifies `pods, `nextUid, `history
      ensures Valid(l, g) && old(history) <= history
    {
      var a: EnvAction := *;
      var s := State(Begin, pods, template, template, stored, stored, [], nextUid);
      if Enabled(plan, s, a) {
        var s' := Apply(s, a);
        ghost var before := Shown(l, g);
        pods, nextUid := s'.pods, s'.nextUid;
        EnvMoves(plan, before, a, Shown(l, g));
        Record(l, g);
      }
    }

    /** Any number of things the cluster does on its own. */
    method Interfere(ghost g: Progress, ghost l: seq<string>)
      requires Valid(l, g)
      modifies `pods, `nextUid, `history
      ensures Valid(l, g) && old(history) <= history
    {
      var n: nat := *;
      while n > 0
        invariant Valid(l, g) && old(history) <= history
      {
        InterfereOnce(g, l);
        n := n - 1;
      }
    }

    // ---- API calls ----

    /** The next call's reply; `verb` and the pod that is stored under the name go into the log. */
    method NextReply(ghost verb: Verb, ghost stored: Option<Pod>) returns (reply: Reply)
      modifies `calls, `log
      ensures calls == old(calls) + 1 && reply == outcomes(old(calls))
      ensures log == old(log) + [Call(control, verb, reply, if reply == Served then stored else None)]
    {
      reply := outcomes(calls);
      calls := calls + 1;
      log := log + [Call(control, verb, reply, if reply == Served then stored else None)];
    }

    ghost function Stored(name: string): Option<Pod>
      reads this
    {
      if name in pods then Some(pods[name]) else None
    }

    /** What the call that was just made found. */
    ghost function Latest(verb: Verb, name: string): Entry
      requires calls > 0
      reads this
    {
      var reply := outcomes(calls - 1);
      Call(control, verb, reply, if reply == Served then Stored(name) else None)
    }

    method GetPod(name: string) returns (pod: Option<Pod>)
      requires Valid(local, progress)
      modifies `pods, `nextUid, `history, `calls, `log
      ensures Valid(local, progress) && old(history) <= history
      ensures calls == old(calls) + 1 && log == old(log) + [Latest(Get, name)]
      ensures pod == (if outcomes(old(calls)) == Served then Stored(name) else None)
    {
      Interfere(progress, local);
      var reply := NextReply(Get, Stored(name));
      pod := if reply != Served || name !in pods then None else Some(pods[name]);
    }

    method DeletePod(name: string, ghost k: nat) returns (ok: bool)
      requires Valid(local, progress) && control == Fetched(k) && k < |plan.names| && name == plan.names[k]
      modifies `pods, `nextUid, `history, `control, `deleted, `calls, `log
      ensures Valid(local, progress) && old(history) <= history
      ensures control == if ok then Waiting(k) else PodFailed(k)
      ensures |log| == |old(log)| + 1 && old(log) <= log
      ensures var e := log[|old(log)|];
              e.Call? && e.at == Fetched(k) && e.reply == outcomes(old(calls)) && (ok <==> e.pod.Some?)
              && (e.reply == Served ==> (ok <==> name in pods))
    {
      Interfere(progress, local);
      ok := DeleteNow(name, k);
    }

    /** The call's own effect. */
    method DeleteNow(name: string, ghost k: nat) returns (ok: bool)
      requires Valid(local, progress) && control == Fetched(k) && k < |plan.names| && name == plan.names[k]
      modifies `pods, `history, `control, `deleted, `calls, `log
      ensures Valid(local, progress) && old(history) <= history
      ensures control == if ok then Waiting(k) else PodFailed(k)
      ensures |log| == |old(log)| + 1 && old(log) <= log
      ensures var e := log[|old(log)|];
              e.Call? && e.at == Fetched(k) && e.reply == outcomes(old(calls)) && (ok <==> e.pod.Some?)
              && (e.reply == Served ==> (ok <==> name in pods))
    {
      var reply := NextReply(Delete, Stored(name));
      ok := reply == Served && name in pods;
      control := if ok then Waiting(k) else PodFailed(k);
      if reply != Refused && name in pods {
        pods := pods[name := pods[name].(terminating := true)];
        deleted := deleted + [name];
      }
      Record(local, progress);
    }

    /** Update of the StatefulSet; `was` is the copy before the manager patched it. */
    method UpdateStatefulSet(ghost was: seq<string>, ghost k: nat) returns (ok: bool)
      requires Valid(was, progress) && control == Prechecked(k)
      requires was != [] && was[0] != plan.target && local == SetImage(was, plan.target)
      modifies `pods, `nextUid, `history, `control, `template, `calls, `log
      ensures Valid(local, progress) && old(history) <= history
      ensures control == if ok then Patched(k) else PodFailed(k)
      ensures ok <==> outcomes(old(calls)) == Served
      ensures log == old(log) + [Call(Prechecked(k), Update, outcomes(old(calls)), None)]
    {
      Interfere(progress, was);
      ok := UpdateNow(was, k);
    }

    method UpdateNow(ghost was: seq<string>, ghost k: nat) returns (ok: bool)
      requires Valid(was, progress) && control == Prechecked(k)
      requires was != [] && was[0] != plan.target && local == SetImage(was, plan.target)
      modifies `history, `control, `template, `calls, `log
      ensures Valid(local, progress) && old(history) <= history
      ensures control == if ok then Patched(k) else PodFailed(k)
      ensures ok <==> outcomes(old(calls)) == Served
      ensures log == old(log) + [Call(Prechecked(k), Update, outcomes(old(calls)), None)]
    {
      var reply := NextReply(Update, None);
      ok := reply == Served;
      control := if ok then Patched(k) else PodFailed(k);
      if reply != Refused { template := local; }
      Record(local, progress);
    }

    /** updateStatus; `was` is the status before the manager changed its copy. */
    method UpdateStatus(ghost was: Progress, ghost okControl: Control, ghost errControl: Control) returns (ok: bool)
      requires Valid(local, was) && Writes(plan, control, was, progress, okControl, errControl)
      modifies `pods, `nextUid, `history, `control, `stored, `calls, `log
      ensures Valid(local, progress) && old(history) <= history
      ensures control == if ok then okControl else errControl
      ensures ok <==> outcomes(old(calls)) == Served
      ensures log == old(log) + [Call(old(control), WriteStatus, outcomes(old(calls)), None)]
    {
      Interfere(was, local);
      ok := WriteNow(was, okControl, errControl);
    }

    method WriteNow(ghost was: Progress, ghost okControl: Control, ghost errControl: Control) returns (ok: bool)
      requires Valid(local, was) && Writes(plan, control, was, progress, okControl, errControl)
      modifies `history, `control, `stored, `calls, `log
      ensures Valid(local, progress) && old(history) <= history
      ensures control == if ok then okControl else errControl
      ensures ok <==> outcomes(old(calls)) == Served
      ensures log == old(log) + [Call(old(control), WriteStatus, outcomes(old(calls)), None)]
    {
      var reply := NextReply(WriteStatus, None);
      ok := reply == Served;
      ghost var before := Shown(local, was);
      control := if ok then okControl else errControl;
      if reply != Refused { stored := progress; }
      WritesAreSteps(plan, before, progress, okControl, errControl, Shown(local, progress));
      Record(local, progress);
    }

    /** The manager goes on without an API call. */
    ghost method Advance(c: Control)
      requires Valid(local, progress)
      requires ManagerStep(plan, Shown(local, progress), Shown(local, progress).(control := c))
      modifies `control, `history
      ensures Valid(local, progress) && old(history) <= history && control == c
    {
      control := c;
      Record(local, progress);
    }

    // ---- the scans over a pod's conditions ----

    method AnyNotReady(conditions: seq<Condition>) returns (found: bool)
      ensures found <==> !NoneNotReady(conditions)
    {
      for i := 0 to |conditions|
        invariant forall j :: 0 <= j < i ==> !NotReady(conditions[j])
      {
        if conditions[i].kind.PodReady? && conditions[i].status != True {
          assert conditions[i] in conditions && NotReady(conditions[i]);
          return true;
        }
      }
      return false;
    }

    method AnyReady(conditions: seq<Condition>) returns (found: bool)
      ensures found <==> SomeReady(conditions)
    {
      for i := 0 to |conditions|
        invariant forall j :: 0 <= j < i ==> !Ready(conditions[j])
      {
        if conditions[i].kind.PodReady? && conditions[i].status == True {
          assert conditions[i] in conditions && Ready(conditions[i]);
          return true;
        }
      }
      return false;
    }

    /** Nil exactly if the Get was served and found the pod, and no Ready condition is other than True. */
    method ValidatePodBeforeUpgrade(name: string) returns (ok: bool)
      requires Valid(local, progress)
      modifies `pods, `nextUid, `history, `calls, `log
      ensures Valid(local, progress) && old(history) <= history
      ensures calls == old(calls) + 1 && log == old(log) + [Latest(Get, name)]
      ensures ok <==> outcomes(old(calls)) == Served && PassesBefore(Shown(local, progress), name)
    {
      var pod := GetPod(name);
      if pod.None? { return false; }
      var unready := AnyNotReady(pod.value.conditions);
      return !unready;
    }

    /** The same, and the first container, if there is one, runs the target image. */
    method ValidatePodAfterUpgrade(name: string) returns (ok: bool)
      requires Valid(local, progress)
      modifies `pods, `nextUid, `history, `calls, `log
      ensures Valid(local, progress) && old(history) <= history
      ensures calls == old(calls) + 1 && log == old(log) + [Latest(Get, name)]
      ensures ok <==> outcomes(old(calls)) == Served && PassesAfter(Shown(local, progress), name, plan.target)
    {
      var pod := GetPod(name);
      if pod.None? { return false; }
      var unready := AnyNotReady(pod.value.conditions);
      if unready { return false; }
      if |pod.value.containers| > 0 && pod.value.containers[0] != plan.target { return false; }
      return true;
    }

    method Sleep(seconds: nat)
      modifies `clock
      ensures clock >= old(clock) + seconds
    {
      var spent :| 0 <= spent;
      clock := clock + seconds + spent;
    }

    /** One poll of the wait. */
    method Poll(name: string, ghost before: seq<Entry>, ghost polls: seq<Option<Pod>>)
      returns (ready: bool, ghost pod: Option<Pod>)
      requires Valid(local, progress) && Polled(control, before, log, polls)
      modifies `pods, `nextUid, `history, `calls, `log
      ensures Valid(local, progress) && old(history) <= history
      ensures Polled(control, before, log, polls + [pod])
      ensures (ready <==> ShowsReady(pod)) && (ready ==> name in pods && SomeReady(pods[name].conditions))
    {
      var found := GetPod(name);
      pod := found;
      PolledOnceMore(control, before, old(log), polls, Latest(Get, name));
      ready := false;
      if found.Some? {
        ready := AnyReady(found.value.conditions);
      }
    }

    /** Polls until a poll shows a Ready condition that is True, or until the deadline; a poll that fails or shows none
        is followed by five seconds of sleep at least. */
    method WaitForPodReady(name: string, timeout: nat) returns (ok: bool, ghost polls: seq<Option<Pod>>)
      requires Valid(local, progress)
      modifies `pods, `nextUid, `history, `calls, `log, `clock
      ensures Valid(local, progress) && old(history) <= history
      ensures ok ==> name in pods && SomeReady(pods[name].conditions)
      ensures Polled(control, old(log), log, polls) && (timeout > 0 ==> polls != [])
      ensures forall j :: 0 <= j < |polls| - 1 ==> !ShowsReady(polls[j])
      ensures if ok then polls != [] && ShowsReady(polls[|polls| - 1])
              else clock >= old(clock) + timeout && forall j :: 0 <= j < |polls| ==> !ShowsReady(polls[j])
    {
      var deadline := clock + timeout;
      polls := [];
      while clock < deadline
        invariant Valid(local, progress) && old(history) <= history && Polled(control, old(log), log, polls)
        invariant timeout > 0 && clock >= deadline ==> polls != []
        invariant forall j :: 0 <= j < |polls| ==> !ShowsReady(polls[j])
        decreases deadline - clock
      {
        ghost var pod;
        var ready;
        ready, pod := Poll(name, old(log), polls);
        polls := polls + [pod];
        if ready { return true, polls; }
        Sleep(5);
      }
      return false, polls;
    }

    // ---- upgradePod, in the order of its steps, and performRollingUpdate ----

    /** No reason to stop has been logged since. */
    ghost predicate SmoothSince(spec: Spec, before: seq<Entry>)
      reads this
    {
      before <= log && Smooth(spec, log[|before|..])
    }

    lemma SmoothStep(spec: Spec, first: seq<Entry>, second: seq<Entry>)
      requires first <= second <= log
      ensures SmoothSince(spec, first) <==> Smooth(spec, second[|first|..]) && SmoothSince(spec, second)
    {
      assert log[|first|..] == second[|first|..] + log[|second|..];
      SmoothConcat(spec, second[|first|..], log[|second|..]);
    }

    method CheckPod(spec: Spec, podName: string, ghost k: nat) returns (ok: bool)
      requires Valid(local, progress) && control == NextPod(k)
      requires k < |plan.names| && plan.names[k] == podName
      modifies `pods, `nextUid, `history, `control, `calls, `log
      ensures Valid(local, progress) && old(history) <= history
      ensures control == if ok then Prechecked(k) else PodFailed(k)
      ensures old(log) <= log && (ok <==> SmoothSince(spec, old(log)))
    {
      ok := ValidatePodBeforeUpgrade(podName);
      SmoothOne(spec, old(log), Latest(Get, podName));
      Advance(if ok then Prechecked(k) else PodFailed(k));
    }

    method PatchImage(spec: Spec, ghost k: nat) returns (ok: bool)
      requires Valid(local, progress) && control == Prechecked(k) && local != [] && plan.target == spec.image
      modifies `pods, `nextUid, `history, `control, `template, `local, `calls, `log
      ensures Valid(local, progress) && old(history) <= history && local != []
      ensures control == if ok then Patched(k) else PodFailed(k)
      ensures old(log) <= log && (ok <==> SmoothSince(spec, old(log)))
    {
      if local[0] != spec.image {
        ghost var was := local;
        local := local[0 := spec.image];
        ok := UpdateStatefulSet(was, k);
        SmoothOne(spec, old(log), Call(Prechecked(k), Update, outcomes(old(calls)), None));
      } else {
        Advance(Patched(k));
        ok := true;
      }
    }

    method FetchPod(spec: Spec, podName: string, ghost k: nat) returns (ok: bool)
      requires Valid(local, progress) && control == Patched(k)
      requires k < |plan.names| && plan.names[k] == podName
      modifies `pods, `nextUid, `history, `control, `calls, `log
      ensures Valid(local, progress) && old(history) <= history
      ensures control == if ok then Fetched(k) else PodFailed(k)
      ensures old(log) <= log && (ok <==> SmoothSince(spec, old(log)))
    {
      var pod := GetPod(podName);
      SmoothOne(spec, old(log), Latest(Get, podName));
      ok := pod.Some?;
      Advance(if ok then Fetched(k) else PodFailed(k));
    }

    method FetchAndDelete(spec: Spec, podName: string, ghost k: nat) returns (ok: bool)
      requires Valid(local, progress) && control == Patched(k)
      requires k < |plan.names| && plan.names[k] == podName
      modifies `pods, `nextUid, `history, `control, `deleted, `calls, `log
      ensures Valid(local, progress) && old(history) <= history
      ensures control == if ok then Waiting(k) else PodFailed(k)
      ensures old(log) <= log && (ok <==> SmoothSince(spec, old(log)))
    {
      ok := FetchPod(spec, podName, k);
      if !ok { return; }
      ghost var fetched := log;
      ok := DeletePod(podName, k);
      SmoothOne(spec, fetched, log[|fetched|]);
      assert log == fetched + [log[|fetched|]];
      SmoothStep(spec, old(log), fetched);
    }

    function ValidationTimeout(spec: Spec): nat {
      if spec.upgrade.Some? && spec.upgrade.value.validationTimeoutSeconds > 0
      then spec.upgrade.value.validationTimeoutSeconds else 300
    }

    method AwaitPod(spec: Spec, podName: string, ghost k: nat) returns (ok: bool)
      requires Valid(local, progress) && control == Waiting(k)
      requires k < |plan.names| && plan.names[k] == podName
      modifies `pods, `nextUid, `history, `control, `calls, `log, `clock
      ensures Valid(local, progress) && old(history) <= history
      ensures control == if ok then SawReady(k) else PodFailed(k)
      ensures old(log) <= log && (ok <==> SmoothSince(spec, old(log)))
    {
      ghost var polls;
      ok, polls := WaitForPodReady(podName, ValidationTimeout(spec));
      PollsAreSmooth(spec, control, old(log), log, polls);
      ghost var waited := log;
      if !ok { GiveUp(spec, polls, clock - old(clock)); }
      SmoothStep(spec, old(log), waited);
      Advance(if ok then SawReady(k) else PodFailed(k));
    }

    /** The wait's result goes into the log. */
    ghost method GiveUp(spec: Spec, polls: seq<Option<Pod>>, waited: nat)
      requires polls != [] && waited >= ValidationTimeout(spec)
      requires forall j :: 0 <= j < |polls| ==> !ShowsReady(polls[j])
      modifies `log
      ensures log == old(log) + [GaveUp(polls, waited)] && !SmoothSince(spec, old(log))
    {
      log := log + [GaveUp(polls, waited)];
      SmoothOne(spec, old(log), GaveUp(polls, waited));
    }

    method ConfirmPod(spec: Spec, podName: string, ghost k: nat) returns (ok: bool)
      requires Valid(local, progress) && control == SawReady(k) && plan.target == spec.image
      requires k < |plan.names| && plan.names[k] == podName
      modifies `pods, `nextUid, `history, `control, `calls, `log
      ensures Valid(local, progress) && old(history) <= history
      ensures control == if ok then Validated(k) else PodFailed(k)
      ensures old(log) <= log && (ok <==> SmoothSince(spec, old(log)))
    {
      ok := ValidatePodAfterUpgrade(podName);
      SmoothOne(spec, old(log), Latest(Get, podName));
      Advance(if ok then Validated(k) else PodFailed(k));
    }

    /** Validate and patch the template. */
    method Prepare(spec: Spec, podName: string, ghost k: nat) returns (ok: bool)
      requires Valid(local, progress) && control == NextPod(k) && local != [] && plan.target == spec.image
      requires k < |plan.names| && plan.names[k] == podName
      modifies `pods, `nextUid, `history, `control, `template, `local, `calls, `log
      ensures Valid(local, progress) && old(history) <= history && local != []
      ensures control == if ok then Patched(k) else PodFailed(k)
      ensures old(log) <= log && (ok <==> SmoothSince(spec, old(log)))
    {
      ok := CheckPod(spec, podName, k);
      if !ok { return; }
      ghost var checked := log;
      ok := PatchImage(spec, k);
      SmoothStep(spec, old(log), checked);
    }

    /** Wait, and validate again. */
    method BringBack(spec: Spec, podName: string, ghost k: nat) returns (ok: bool)
      requires Valid(local, progress) && control == Waiting(k) && plan.target == spec.image
      requires k < |plan.names| && plan.names[k] == podName
      modifies `pods, `nextUid, `history, `control, `calls, `log, `clock
      ensures Valid(local, progress) && old(history) <= history
      ensures control == if ok then Validated(k) else PodFailed(k)
      ensures old(log) <= log && (ok <==> SmoothSince(spec, old(log)))
    {
      ok := AwaitPod(spec, podName, k);
      if !ok { return; }
      ghost var awaited := log;
      ok := ConfirmPod(spec, podName, k);
      SmoothStep(spec, old(log), awaited);
    }

    /** Nil exactly if nothing happened that is a reason to stop. */
    method UpgradePod(spec: Spec, podIndex: nat, ghost k: nat) returns (ok: bool)
      requires Valid(local, progress) && control == NextPod(k) && local != [] && plan.target == spec.image
      requires k < |plan.names| && plan.names[k] == PodName(cluster, podIndex)
      modifies `pods, `nextUid, `history, `control, `deleted, `template, `local, `calls, `log, `clock
      ensures Valid(local, progress) && old(history) <= history && local != []
      ensures control == if ok then Validated(k) else PodFailed(k)
      ensures old(log) <= log && (ok <==> SmoothSince(spec, old(log)))
    {
      var podName := PodName(cluster, podIndex);
      ok := Prepare(spec, podName, k);
      if !ok { return; }
      ghost var prepared := log;
      ok := FetchAndDelete(spec, podName, k);
      SmoothStep(spec, old(log), prepared);
      if !ok { return; }
      ghost var taken := log;
      ok := BringBack(spec, podName, k);
      SmoothStep(spec, old(log), taken);
    }

    method MarkStarted(spec: Spec, replicas: int32) returns (ok: bool)
      requires Valid(local, progress) && control == Begin && replicas == plan.total
      modifies `pods, `nextUid, `history, `control, `stored, `progress, `calls, `log
      ensures Valid(local, progress) && old(history) <= history
      ensures control == if ok then NextPod(0) else Stopped(0, false)
      ensures old(log) <= log && (ok <==> SmoothSince(spec, old(log)))
    {
      ghost var was := progress;
      progress := progress.(phase := InProgress);
      progress := progress.(totalPods := replicas);
      ok := UpdateStatus(was, NextPod(0), Stopped(0, false));
      SmoothOne(spec, old(log), Call(Begin, WriteStatus, outcomes(old(calls)), None));
    }

    method MarkCompleted(spec: Spec) returns (ok: bool)
      requires Valid(local, progress) && control == NextPod(|plan.names|) && plan.target == spec.image
      modifies `pods, `nextUid, `history, `control, `stored, `progress, `calls, `log
      ensures Valid(local, progress) && old(history) <= history
      ensures control == if ok then Finished else Stopped(|plan.names|, false)
      ensures old(log) <= log && (ok <==> SmoothSince(spec, old(log)))
    {
      ghost var was := progress;
      progress := progress.(phase := Completed);
      progress := progress.(currentImage := spec.image);
      ok := UpdateStatus(was, Finished, Stopped(|plan.names|, false));
      SmoothOne(spec, old(log), Call(NextPod(|plan.names|), WriteStatus, outcomes(old(calls)), None));
    }

    /** The phase becomes Failed; an error of this write is swallowed. */
    method MarkFailed(ghost k: nat)
      requires Valid(local, progress) && control == PodFailed(k)
      modifies `pods, `nextUid, `history, `control, `stored, `progress, `calls, `log
      ensures Valid(local, progress) && old(history) <= history && control == Stopped(k, true)
      ensures old(log) <= log
    {
      ghost var was := progress;
      progress := progress.(phase := Failed);
      var _ := UpdateStatus(was, Stopped(k, true), Stopped(k, true));
    }

    method CountPod(spec: Spec, ghost k: nat) returns (ok: bool)
      requires Valid(local, progress) && control == Validated(k)
      modifies `pods, `nextUid, `history, `control, `stored, `progress, `calls, `log
      ensures Valid(local, progress) && old(history) <= history
      ensures control == if ok then NextPod(k + 1) else Stopped(k + 1, false)
      ensures old(log) <= log && (ok <==> SmoothSince(spec, old(log)))
    {
      ghost var was := progress;
      progress := progress.(upgradedPods := Wrap32(progress.upgradedPods + 1));
      ok := UpdateStatus(was, NextPod(k + 1), Stopped(k + 1, false));
      SmoothOne(spec, old(log), Call(Validated(k), WriteStatus, outcomes(old(calls)), None));
    }

    /** One round of the loop. */
    method UpgradeNext(spec: Spec, podIndex: nat, ghost k: nat) returns (ok: bool)
      requires Valid(local, progress) && control == NextPod(k) && local != [] && plan.target == spec.image
      requires k < |plan.names| && plan.names[k] == PodName(cluster, podIndex)
      modifies this
      ensures Valid(local, progress) && old(history) <= history && local != []
      ensures if ok then control == NextPod(k + 1) else control.Stopped?
      ensures old(log) <= log && (ok <==> SmoothSince(spec, old(log)))
    {
      ok := UpgradePod(spec, podIndex, k);
      ghost var upgraded := log;
      if ok {
        ok := CountPod(spec, k);
        SmoothStep(spec, old(log), upgraded);
      } else {
        MarkFailed(k);
        SmoothStep(spec, old(log), upgraded);
      }
    }

    /** The loop over the order: every pod upgraded and counted, or the first error and what it leaves. */
    method UpgradePods(spec: Spec, upgradeOrder: seq<nat>) returns (ok: bool)
      requires Valid(local, progress) && control == NextPod(0) && local != [] && plan.target == spec.image
      requires plan.names == PodNames(cluster, upgradeOrder)
      modifies this
      ensures Valid(local, progress) && old(history) <= history
      ensures if ok then control == NextPod(|upgradeOrder|) else control.Stopped?
      ensures old(log) <= log && (ok <==> SmoothSince(spec, old(log)))
    {
      for i := 0 to |upgradeOrder|
        invariant Valid(local, progress) && old(history) <= history && local != [] && control == NextPod(i)
        invariant old(log) <= log && SmoothSince(spec, old(log))
      {
        ghost var before := log;
        ok := UpgradeNext(spec, upgradeOrder[i], i);
        SmoothStep(spec, old(log), before);
        if !ok { return; }
      }
      ok := true;
    }

    method ChooseOrder(spec: Spec) returns (upgradeOrder: seq<nat>)
      requires Countable(spec)
      ensures upgradeOrder == OrderOf(spec)
    {
      OrderCoversReplicas(spec);
      var order: seq<int32>;
      if spec.mode == ClusterMode {
        order := GetClusterModeUpgradeOrder(spec.cluster);
      } else {
        order := GetMultiMasterUpgradeOrder(spec.replicas);
      }
      assert forall x: int :: x in OrderOf(spec) ==> x >= 0;
      assert forall i :: 0 <= i < |order| ==> order[i] in OrderOf(spec);
      upgradeOrder := order;
    }

    /** The writes and pods between the first read and the return. */
    method RunUpdate(spec: Spec, replicas: int32) returns (ok: bool)
      requires Valid(local, progress) && control == Begin && local != [] && log == []
      requires Countable(spec) && plan == PlanFor(cluster, spec, replicas, plan.publishes)
      modifies this
      ensures Valid(local, progress) && old(history) <= history
      ensures if ok then control.Finished? else control.Stopped?
      ensures ok <==> Smooth(spec, log)
    {
      ok := MarkStarted(spec, replicas);
      ghost var started := log;
      if ok {
        var upgradeOrder := ChooseOrder(spec);
        ok := UpgradePods(spec, upgradeOrder);
        SmoothStep(spec, [], started);
        ghost var upgraded := log;
        if ok {
          ok := MarkCompleted(spec);
          SmoothStep(spec, [], upgraded);
        }
      }
      assert log[0..] == log;
    }

    /** The whole rolling update, whatever the cluster and the API server do meanwhile: the execution is a run
        of the machine that ends Finished or Stopped, with all that this says about the pods it leaves. It returns nil
        exactly if nothing happened that is a reason to stop, and it deletes pods in the right order only. */
    method PerformRollingUpdate(spec: Spec, replicas: int32) returns (ok: bool)
      requires Valid(local, progress) && control == Begin && |history| == 1 && local != [] && log == []
      requires Countable(spec) && plan == PlanFor(cluster, spec, replicas, plan.publishes)
      modifies this
      ensures Valid(local, progress) && old(history) <= history
      ensures if ok then control.Finished? else control.Stopped?
      ensures ok <==> Smooth(spec, log)
      ensures forall i :: 0 <= i < |history| ==> RespectsOrder(cluster, spec, history[i].deleted)
      ensures |plan.names| == CalculateReplicas(spec)
      ensures SafeThroughout(old(Shown(local, progress)))
      ensures ok ==> LeavesComplete(old(Shown(local, progress)))
      ensures ok ==> LeavesOrdinals(spec, old(Shown(local, progress)))
      ensures ok && replicas == CalculateReplicas(spec) ==> progress.totalPods == CalculateReplicas(spec)
      ensures !ok ==> LeavesPrefix(old(Shown(local, progress)))
    {
      PodNamesDistinct(cluster, spec, replicas, plan.publishes);
      ghost var s0 := Shown(local, progress);
      ok := RunUpdate(spec, replicas);
      assert history[0] == old(history)[0] == s0;
      Conclude(s0);
      ConcludeOrder(spec, replicas);
      if ok { ConcludeOrdinals(spec, replicas, s0); }
    }

    lemma ConcludeOrder(spec: Spec, replicas: int32)
      requires Valid(local, progress)
      requires Countable(spec) && plan == PlanFor(cluster, spec, replicas, plan.publishes)
      ensures forall i :: 0 <= i < |history| ==> RespectsOrder(cluster, spec, history[i].deleted)
    {
      forall i | 0 <= i < |history| ensures RespectsOrder(cluster, spec, history[i].deleted) {
        BasicsAlways(plan, history, i);
        PrefixRespectsOrder(cluster, spec, replicas, plan.publishes, |history[i].deleted|);
      }
    }

    /** Never two deleted pods down, if every pod of the order but the last was old at the start. */
    ghost predicate SafeThroughout(s0: State)
      reads this
    {
      (plan.names != [] ==> Assumed(plan, s0, |plan.names| - 1)) ==>
        forall i :: 0 <= i < |history| ==> AtMostOneDown(history[i])
    }

    ghost predicate LeavesComplete(s0: State)
      reads this
    {
      && stored == progress
      && progress == Progress(Completed, Wrap32(s0.progress.upgradedPods + |plan.names|), plan.total, plan.target)
      && deleted == plan.names
      && (forall i :: 0 <= i < |plan.names| && plan.names[i] in pods ==> RunsImage(pods[plan.names[i]], plan.target))
      && (Assumed(plan, s0, |plan.names|) ==>
            forall i :: 0 <= i < |plan.names| ==> Replaced(plan, s0, Shown(local, progress), plan.names[i]))
    }

    /** The same by ordinal: every pod of the StatefulSet runs the image of the spec, and where the assumptions hold
        a new incarnation of it is up. */
    ghost predicate LeavesOrdinals(spec: Spec, s0: State)
      reads this
    {
      forall i: nat :: i < CalculateReplicas(spec) ==>
        && (PodName(cluster, i) in pods ==> RunsImage(pods[PodName(cluster, i)], spec.image))
        && (Assumed(plan, s0, |plan.names|) ==> Replaced(plan, s0, Shown(local, progress), PodName(cluster, i)))
    }

    lemma ConcludeOrdinals(spec: Spec, replicas: int32, s0: State)
      requires Countable(spec) && plan == PlanFor(cluster, spec, replicas, plan.publishes) && LeavesComplete(s0)
      ensures LeavesOrdinals(spec, s0)
    {
      forall i: nat | i < CalculateReplicas(spec)
        ensures PodName(cluster, i) in pods ==> RunsImage(pods[PodName(cluster, i)], spec.image)
        ensures Assumed(plan, s0, |plan.names|) ==> Replaced(plan, s0, Shown(local, progress), PodName(cluster, i))
      {
        OrdinalInPlan(cluster, spec, replicas, plan.publishes, i);
        var k :| 0 <= k < |plan.names| && plan.names[k] == PodName(cluster, i);
      }
    }

    ghost predicate LeavesPrefix(s0: State)
      requires control.Stopped?
      reads this
    {
      && control.k <= |plan.names|
      && (deleted == plan.names[..control.k]
          || (control.fromPod && control.k < |plan.names| && deleted == plan.names[..control.k + 1]))
      && (forall i :: 0 <= i < control.k && plan.names[i] in pods ==> RunsImage(pods[plan.names[i]], plan.target))
      && progress.upgradedPods == Wrap32(s0.progress.upgradedPods + control.k)
      && (stored.upgradedPods == progress.upgradedPods
          || (if control.k == 0 then stored == s0.stored
              else stored.upgradedPods == Wrap32(s0.progress.upgradedPods + control.k - 1)))
      && (Assumed(plan, s0, control.k) ==>
            forall i :: 0 <= i < control.k ==> Replaced(plan, s0, Shown(local, progress), plan.names[i]))
      && (progress.phase == Failed <==> control.fromPod)
      && Untouched(plan, s0, Shown(local, progress))
    }

    /** What the machine's theorems say about the run recorded so far. */
    lemma Conclude(s0: State)
      requires Valid(local, progress) && history[0] == s0
      ensures SafeThroughout(s0)
      ensures control.Finished? ==> LeavesComplete(s0)
      ensures control.Stopped? ==> LeavesPrefix(s0)
    {
      ConcludeSafe(s0);
      if control.Finished? { Completion(plan, history, |plan.names|); }
      if control.Stopped? { ConcludePrefix(s0); }
    }

    lemma ConcludeSafe(s0: State)
      requires Valid(local, progress) && history[0] == s0
      ensures SafeThroughout(s0)
    {
      if plan.names != [] ==> Assumed(plan, s0, |plan.names| - 1) {
        forall i | 0 <= i < |history| ensures AtMostOneDown(history[i]) {
          BasicsAlways(plan, history, i);
          if plan.names != [] { Availability(plan, history, i); }
        }
      }
    }

    lemma ConcludePrefix(s0: State)
      requires Valid(local, progress) && history[0] == s0 && control.Stopped?
      ensures LeavesPrefix(s0)
    {
      BasicsAlways(plan, history, |history| - 1);
      FailureLeavesPrefix(plan, history, control.k);
    }
  }
}
