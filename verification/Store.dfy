/** The API server's objects of one cluster, and the calls that the operator makes on them: optimistic
    concurrency by versions, other writers before every call, and calls that fail. */
module Store {
  import opened Types
  import opened Validation
  import opened Workload

  // ---- objects ----

  datatype Owner = Owner(kind: string, name: string, uid: nat)
  datatype Object<T> = Object(version: nat, controller: Option<Owner>, content: T)

  datatype ClusterPhase = Pending | Running | Failed | OtherPhase(name: string)
  datatype ReadyCondition = ReadyCondition(status: bool, reason: string)
  datatype UpgradeStatus = UpgradeStatus(targetImage: string, phase: string, upgradedPods: int32, totalPods: int32)
  datatype Status = Status(phase: ClusterPhase, replicas: int32, readyReplicas: int32, conditions: seq<ReadyCondition>,
                           nodes: seq<string>, currentImage: string, upgrade: Option<UpgradeStatus>)

  datatype Cluster = Cluster(version: nat, uid: nat, deleting: bool, finalizers: seq<string>,
                             spec: Spec, status: Status)

  /** `clock` stamps versions; the last two fields are the StatefulSet's own status. */
  datatype Store = Store(clock: nat, cluster: Option<Cluster>, configMap: Option<Object<map<string, string>>>,
                         headless: bool, client: bool, budget: bool, statefulSet: Option<Object<StatefulSet>>,
                         observedReplicas: int32, observedReady: int32)

  const FINALIZER := "keydb.io/finalizer"

  // ---- calls ----

  datatype Error = NotFound | Conflict | AlreadyExists | AlreadyOwned | Unavailable | Rejected(problem: Problem)
                 | UpgradeFailed | RetriesExhausted

  datatype Request =
    | UpdateCluster(version: nat, finalizers: seq<string>, spec: Spec)
    | UpdateStatus(version: nat, status: Status)
    | CreateConfigMap(owner: Owner, data: map<string, string>)
    | UpdateConfigMap(version: nat, controller: Option<Owner>, data: map<string, string>)
    | CreateHeadless | CreateClient | CreateBudget
    | CreateStatefulSet(owner: Owner, created: StatefulSet)
    | UpdateStatefulSet(version: nat, controller: Option<Owner>, updated: StatefulSet)

  datatype Answer = Written(store: Store) | Declined(error: Error)

  /** What the API server does with a write. Spec and metadata are one resource, status is another; the last
      finalizer of a deleted object takes the object with it. */
  function Perform(s: Store, r: Request): Answer {
    var t := s.clock + 1;
    match r
    case UpdateCluster(version, finalizers, spec) =>
      if s.cluster.None? then Declined(NotFound)
      else if s.cluster.value.version != version then Declined(Conflict)
      else if s.cluster.value.deleting && finalizers == [] then Written(s.(clock := t, cluster := None))
      else
        var updated := s.cluster.value.(version := t, finalizers := finalizers, spec := spec);
        Written(s.(clock := t, cluster := Some(updated)))
    case UpdateStatus(version, status) =>
      if s.cluster.None? then Declined(NotFound)
      else if s.cluster.value.version != version then Declined(Conflict)
      else Written(s.(clock := t, cluster := Some(s.cluster.value.(version := t, status := status))))
    case CreateConfigMap(owner, data) =>
      if s.configMap.Some? then Declined(AlreadyExists)
      else Written(s.(clock := t, configMap := Some(Object(t, Some(owner), data))))
    case UpdateConfigMap(version, controller, data) =>
      if s.configMap.None? then Declined(NotFound)
      else if s.configMap.value.version != version then Declined(Conflict)
      else Written(s.(clock := t, configMap := Some(Object(t, controller, data))))
    case CreateHeadless => if s.headless then Declined(AlreadyExists) else Written(s.(clock := t, headless := true))
    case CreateClient => if s.client then Declined(AlreadyExists) else Written(s.(clock := t, client := true))
    case CreateBudget => if s.budget then Declined(AlreadyExists) else Written(s.(clock := t, budget := true))
    case CreateStatefulSet(owner, created) =>
      if s.statefulSet.Some? then Declined(AlreadyExists)
      else Written(s.(clock := t, statefulSet := Some(Object(t, Some(owner), created))))
    case UpdateStatefulSet(version, controller, updated) =>
      if s.statefulSet.None? then Declined(NotFound)
      else if s.statefulSet.value.version != version then Declined(Conflict)
      else Written(s.(clock := t, statefulSet := Some(Object(t, controller, updated))))
  }

  /** A call may be refused without effect, with any error, or take effect and lose its reply. */
  datatype Fault = Reliable | Refused(error: Error) | ReplyLost

  /** What precedes one call: everything other writers do, and the fault that the call meets. */
  datatype Turn = Turn(others: Store -> Store, fault: Fault)

  datatype Actor = Others | Operator(request: Request, error: Option<Error>)
  datatype Event = Event(actor: Actor, before: Store, after: Store)

  /** The store, what still will go on around the operator, and everything that happened so far. Once the turns
      are used up nobody else writes and no call fails. */
  datatype World = World(id: Identity, store: Store, turns: seq<Turn>, trace: seq<Event>)

  datatype Step = Step(world: World, error: Option<Error>)

  /** Others act before the next call. */
  function Arrive(w: World): World {
    if w.turns == [] then w
    else
      var s := w.turns[0].others(w.store);
      w.(store := s, trace := w.trace + [Event(Others, w.store, s)])
  }

  function NextFault(w: World): Fault { if w.turns == [] then Reliable else w.turns[0].fault }

  function Pass(w: World): World { if w.turns == [] then w else w.(turns := w.turns[1..]) }

  /** A Get; what it finds is what then is stored. */
  function Read(w: World): Step {
    Step(Pass(Arrive(w)),
         match NextFault(w)
         case Reliable => None
         case Refused(error) => Some(error)
         case ReplyLost => Some(Unavailable))
  }

  /** A write. */
  function Send(w: World, r: Request): Step {
    var a, f := Arrive(w), NextFault(w);
    var answer := if f.Refused? then Declined(f.error) else Perform(a.store, r);
    var error := match answer
                 case Written(_) => if f.ReplyLost? then Some(Unavailable) else None
                 case Declined(e) => if f.ReplyLost? then Some(Unavailable) else Some(e);
    var after := match answer case Written(s) => s case Declined(_) => a.store;
    Step(Pass(a.(store := after, trace := a.trace + [Event(Operator(r, error), a.store, after)])), error)
  }

  datatype Lookup<T> = Got(value: T) | Missing(error: Error)

  function Found<T>(error: Option<Error>, stored: Option<T>): Lookup<T> {
    if error.Some? then Missing(error.value) else if stored.None? then Missing(NotFound) else Got(stored.value)
  }

  // ---- what holds of other writers ----

  predicate Coherent(s: Store) {
    && (s.cluster.Some? ==> s.cluster.value.version <= s.clock && s.cluster.value.uid <= s.clock)
    && (s.configMap.Some? ==> s.configMap.value.version <= s.clock)
    && (s.statefulSet.Some? ==> s.statefulSet.value.version <= s.clock)
  }

  predicate Marked(c: Cluster) { FINALIZER in c.finalizers }

  /** The API server's rules for every writer: a write stamps a fresh version, a new object a fresh uid, a deletion
      mark is final, and an object marked for deletion gets no finalizer. */
  predicate Lawful(s: Store, s': Store) {
    && s.clock <= s'.clock && Coherent(s')
    && (s'.cluster.Some? && s'.cluster.value.version <= s.clock ==> s'.cluster == s.cluster)
    && (s'.configMap.Some? && s'.configMap.value.version <= s.clock ==> s'.configMap == s.configMap)
    && (s'.statefulSet.Some? && s'.statefulSet.value.version <= s.clock ==> s'.statefulSet == s.statefulSet)
    && (s'.cluster.Some? && s'.cluster.value.uid <= s.clock ==>
          s.cluster.Some? && s.cluster.value.uid == s'.cluster.value.uid
          && (s.cluster.value.deleting ==>
                s'.cluster.value.deleting && (Marked(s'.cluster.value) ==> Marked(s.cluster.value))))
  }

  /** What a refused call can answer. */
  predicate ApiError(e: Error) { e.NotFound? || e.Conflict? || e.AlreadyExists? || e.Unavailable? }

  ghost predicate LawfulTurn(t: Turn) {
    (t.fault.Refused? ==> ApiError(t.fault.error)) && forall s :: Coherent(s) ==> Lawful(s, t.others(s))
  }

  ghost predicate Sound(w: World) { Coherent(w.store) && forall t :: t in w.turns ==> LawfulTurn(t) }

  // ---- traces ----

  /** Every event starts where the one before it ended. */
  predicate Chained(trace: seq<Event>, from: Store, to: Store) {
    if trace == [] then from == to
    else trace[0].before == from && Chained(trace[1..], trace[0].after, to)
  }

  lemma {:induction false} ChainedConcat(a: seq<Event>, b: seq<Event>, from: Store, via: Store, to: Store)
    requires Chained(a, from, via) && Chained(b, via, to)
    ensures Chained(a + b, from, to)
  {
    if a == [] {
      assert a + b == b;
    } else {
      ChainedConcat(a[1..], b, a[0].after, via, to);
      assert (a + b)[1..] == a[1..] + b;
    }
  }

  /** A property that every event keeps holds at the end, and before and after every event. */
  lemma {:induction false} Invariance(trace: seq<Event>, from: Store, to: Store, holds: Store -> bool)
    requires Chained(trace, from, to) && holds(from)
    requires forall e :: e in trace && holds(e.before) ==> holds(e.after)
    ensures holds(to) && forall e :: e in trace ==> holds(e.before) && holds(e.after)
  {
    if trace != [] {
      assert trace[0] in trace;
      assert forall e :: e in trace[1..] ==> e in trace;
      Invariance(trace[1..], trace[0].after, to, holds);
      assert forall e :: e in trace ==> e == trace[0] || e in trace[1..];
    }
  }
}
