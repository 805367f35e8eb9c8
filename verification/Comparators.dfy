/** The controller's comparisons of a stored container with a desired one. Each looks at a part of its
    arguments only; equality of that part is what it decides. */
module Comparators {
  import opened Types

  /** Quantity of a resource list: an absent entry reads as zero. */
  function Amount(amounts: Amounts, name: string): int {
    if name in amounts then amounts[name] else 0
  }

  predicate ResourcesEqual(a: Resources, b: Resources) {
    && Amount(a.limits, "cpu") == Amount(b.limits, "cpu")
    && Amount(a.limits, "memory") == Amount(b.limits, "memory")
    && Amount(a.requests, "cpu") == Amount(b.requests, "cpu")
    && Amount(a.requests, "memory") == Amount(b.requests, "memory")
  }

  /** Length first, then command by command; what it decides is equality, a missing action included. */
  method ExecActionsEqual(a: Option<seq<string>>, b: Option<seq<string>>) returns (equal: bool)
    ensures equal <==> a == b
  {
    if a.None? && b.None? { return true; }
    if a.None? || b.None? { return false; }
    if |a.value| != |b.value| { return false; }
    for i := 0 to |a.value|
      invariant a.value[..i] == b.value[..i]
    {
      if a.value[i] != b.value[i] { return false; }
    }
    assert a.value == a.value[..|a.value|] == b.value[..|b.value|] == b.value;
    return true;
  }

  predicate HttpGetActionsEqual(a: Option<HttpGet>, b: Option<HttpGet>) {
    if a.None? && b.None? then true
    else if a.None? || b.None? then false
    else
      && a.value.path == b.value.path && a.value.port == b.value.port
      && a.value.host == b.value.host && a.value.scheme == b.value.scheme
  }

  predicate TcpSocketActionsEqual(a: Option<TcpSocket>, b: Option<TcpSocket>) {
    if a.None? && b.None? then true
    else if a.None? || b.None? then false
    else a.value.port == b.value.port && a.value.host == b.value.host
  }

  /** Exec actions are compared by equality, which is what ExecActionsEqual decides. */
  predicate ProbesEqual(a: Option<Probe>, b: Option<Probe>) {
    if a.None? && b.None? then true
    else if a.None? || b.None? then false
    else
      && a.value.initialDelay == b.value.initialDelay && a.value.timeout == b.value.timeout
      && a.value.period == b.value.period && a.value.successThreshold == b.value.successThreshold
      && a.value.failureThreshold == b.value.failureThreshold
      && a.value.exec == b.value.exec
      && HttpGetActionsEqual(a.value.httpGet, b.value.httpGet)
      && TcpSocketActionsEqual(a.value.tcpSocket, b.value.tcpSocket)
  }

  predicate HandlersEqual(a: Option<Handler>, b: Option<Handler>) {
    if a.None? && b.None? then true
    else if a.None? || b.None? then false
    else
      && a.value.exec == b.value.exec
      && HttpGetActionsEqual(a.value.httpGet, b.value.httpGet)
      && TcpSocketActionsEqual(a.value.tcpSocket, b.value.tcpSocket)
  }

  predicate LifecyclesEqual(a: Option<Lifecycle>, b: Option<Lifecycle>) {
    if a.None? && b.None? then true
    else if a.None? || b.None? then false
    else HandlersEqual(a.value.postStart, b.value.postStart) && HandlersEqual(a.value.preStop, b.value.preStop)
  }

  // ---- the part of a value that each comparison sees ----

  datatype Compute = Compute(cpuLimit: int, memoryLimit: int, cpuRequest: int, memoryRequest: int)

  function CpuOf(amounts: Amounts): int { if "cpu" in amounts then amounts["cpu"] else 0 }
  function MemoryOf(amounts: Amounts): int { if "memory" in amounts then amounts["memory"] else 0 }

  function ComputeOf(r: Resources): Compute {
    Compute(CpuOf(r.limits), MemoryOf(r.limits), CpuOf(r.requests), MemoryOf(r.requests))
  }

  /** All of an HTTP action but its headers. */
  function HttpSeen(h: Option<HttpGet>): Option<HttpGet> {
    match h case None => None case Some(v) => Some(v.(headers := []))
  }

  /** All of a probe but its grace period and HTTP headers. */
  function ProbeSeen(p: Option<Probe>): Option<Probe> {
    match p case None => None case Some(v) => Some(v.(httpGet := HttpSeen(v.httpGet), terminationGrace := None))
  }

  function HandlerSeen(h: Option<Handler>): Option<Handler> {
    match h case None => None case Some(v) => Some(v.(httpGet := HttpSeen(v.httpGet)))
  }

  function LifecycleSeen(l: Option<Lifecycle>): Option<Lifecycle> {
    match l case None => None case Some(v) => Some(Lifecycle(HandlerSeen(v.postStart), HandlerSeen(v.preStop)))
  }

  lemma HttpGetDecides(a: Option<HttpGet>, b: Option<HttpGet>)
    ensures HttpGetActionsEqual(a, b) <==> HttpSeen(a) == HttpSeen(b)
  {
  }

  lemma ProbesEqualDecides(a: Option<Probe>, b: Option<Probe>)
    ensures ProbesEqual(a, b) <==> ProbeSeen(a) == ProbeSeen(b)
  {
    if a.Some? && b.Some? { HttpGetDecides(a.value.httpGet, b.value.httpGet); }
  }

  lemma HandlersEqualDecides(a: Option<Handler>, b: Option<Handler>)
    ensures HandlersEqual(a, b) <==> HandlerSeen(a) == HandlerSeen(b)
  {
    if a.Some? && b.Some? { HttpGetDecides(a.value.httpGet, b.value.httpGet); }
  }

  lemma LifecyclesEqualDecides(a: Option<Lifecycle>, b: Option<Lifecycle>)
    ensures LifecyclesEqual(a, b) <==> LifecycleSeen(a) == LifecycleSeen(b)
  {
    if a.Some? && b.Some? {
      HandlersEqualDecides(a.value.postStart, b.value.postStart);
      HandlersEqualDecides(a.value.preStop, b.value.preStop);
    }
  }

  // ---- hence they are equivalence relations ----

  ghost predicate Equivalence<T(!new)>(related: (T, T) -> bool) {
    && (forall x :: related(x, x))
    && (forall x, y :: related(x, y) ==> related(y, x))
    && (forall x, y, z :: related(x, y) && related(y, z) ==> related(x, z))
  }

  lemma ComparisonsAreEquivalences()
    ensures Equivalence(ResourcesEqual) && Equivalence(ProbesEqual) && Equivalence(LifecyclesEqual)
    ensures Equivalence(HttpGetActionsEqual) && Equivalence(TcpSocketActionsEqual) && Equivalence(HandlersEqual)
  {
    forall a, b ensures ProbesEqual(a, b) <==> ProbeSeen(a) == ProbeSeen(b) { ProbesEqualDecides(a, b); }
    forall a, b ensures LifecyclesEqual(a, b) <==> LifecycleSeen(a) == LifecycleSeen(b) {
      LifecyclesEqualDecides(a, b);
    }
    forall a, b ensures HandlersEqual(a, b) <==> HandlerSeen(a) == HandlerSeen(b) { HandlersEqualDecides(a, b); }
  }

  lemma ResourcesEqualDecides(a: Resources, b: Resources)
    ensures ResourcesEqual(a, b) <==> ComputeOf(a) == ComputeOf(b)
  {
  }
}
