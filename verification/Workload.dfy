/** The StatefulSet that the operator wants for a spec, and the post-start script inside it. */
module Workload {
  import opened Types
  import opened Naming
  import opened UpgradeOrder
  import opened Validation
  import opened Texts

  /** Namespace and name of the custom resource. */
  datatype Identity = Identity(namespace: LineText, name: LineText)

  /** What is written when the StatefulSet is created and never compared afterwards. */
  datatype Creation = Creation(serviceName: string, initImages: seq<string>, tlsSecret: Option<string>, claim: Storage)

  datatype StatefulSet = StatefulSet(replicas: int32, containers: seq<Container>, fixed: Creation)

  // ---- the multi-master post-start script ----

  /** %d */
  function Printed(n: int): LineText {
    if n < 0 then OneLineDecimal(-n); "-" + Decimal(-n) else OneLineDecimal(n); Decimal(n)
  }

  lemma OneLineDecimal(n: nat) ensures '\n' !in Decimal(n) {}

  /** What a %d-printed number reads as. */
  function Parsed(s: string): int {
    if s != [] && s[0] == '-' then -Value(s[1..]) else Value(s)
  }

  lemma PrintedRoundTrip(n: int)
    ensures Parsed(Printed(n)) == n
  {
    DecimalRoundTrip(if n < 0 then -n else n);
    if n >= 0 { assert Decimal(n)[0] in Decimal(n); }
  }

  const REPLICAS := "REPLICAS"

  /** The assignments of the script that do not depend on the cluster. */
  function FixedAssignments(): seq<LineText> {
    ["POD_NAME=${HOSTNAME}", "POD_INDEX=${POD_NAME##*-}", "MAX_ATTEMPTS=60"]
  }

  function Assignment(variable: LineText, value: LineText): LineText { variable + "=" + value }

  function MeshTitle(): LineText { "# Configure multi-master replication" }

  function MeshLines(replicas: int32, id: Identity): seq<LineText> {
    ["", MeshTitle(), Assignment(REPLICAS, Printed(replicas)),
     Assignment("NAMESPACE", id.namespace), Assignment("CLUSTER_NAME", id.name)] + FixedAssignments()
  }

  function MeshScript(replicas: int32, id: Identity): string { RenderAll(MeshLines(replicas, id)) }

  predicate Assigns(line: string, variable: string) { variable + "=" <= line }

  /** The value of a shell variable after the script's assignments. */
  function Assigned(ls: seq<string>, variable: string): Option<string> {
    if ls == [] then None
    else
      var line := ls[|ls| - 1];
      if Assigns(line, variable) then Some(line[|variable| + 1..]) else Assigned(ls[..|ls| - 1], variable)
  }

  /** The number of masters that a script works with. */
  function ScriptReplicas(script: string): Option<int> {
    match Assigned(Lines(script), REPLICAS) case None => None case Some(v) => Some(Parsed(v))
  }

  lemma LastAssigned(before: seq<string>, value: string, after: seq<string>, variable: string)
    requires forall l :: l in after ==> !Assigns(l, variable)
    ensures Assigned(before + [variable + "=" + value] + after, variable) == Some(value)
  {
    var ls := before + [variable + "=" + value] + after;
    if after == [] {
      assert ls[|ls| - 1] == variable + "=" + value;
    } else {
      var last := after[|after| - 1];
      assert last in after && ls[|ls| - 1] == last;
      assert ls[..|ls| - 1] == before + [variable + "=" + value] + after[..|after| - 1];
      LastAssigned(before, value, after[..|after| - 1], variable);
    }
  }

  /** Printing the number of masters into the script and reading it back out gives the number. */
  lemma ScriptRoundTrip(replicas: int32, id: Identity)
    ensures ScriptReplicas(MeshScript(replicas, id)) == Some(replicas as int)
  {
    var names: seq<string> := [Assignment("NAMESPACE", id.namespace), Assignment("CLUSTER_NAME", id.name)];
    var after := names + FixedAssignments();
    var before: seq<string> := ["", MeshTitle()];
    forall l | l in after ensures !Assigns(l, REPLICAS) {
      assert l[0] in {'N', 'C', 'P', 'M'};
    }
    LastAssigned(before, Printed(replicas), after, REPLICAS);
    assert before + [REPLICAS + "=" + Printed(replicas)] + after == MeshLines(replicas, id);
    LinesRender(MeshLines(replicas, id));
    PrintedRoundTrip(replicas);
  }

  // ---- probes ----

  const PROBE_DEFAULTS := ProbeSpec(None, [], None, None, None, None, None)

  function Or(value: Option<int32>, default: int32): int32 { if value.Some? then value.value else default }

  /** buildLivenessProbe and buildReadinessProbe: no probe if it is switched off, else the user's numbers and
      command where given. */
  function BuildProbe(config: Option<ProbeSpec>, timeout: int32, command: seq<string>): Option<Probe> {
    var p := if config.Some? then config.value else PROBE_DEFAULTS;
    if p.enabled == Some(false) then None
    else Some(Probe(Or(p.initialDelay, 5), Or(p.timeout, timeout), Or(p.period, 10), Or(p.successThreshold, 1),
                    Or(p.failureThreshold, 3), Some(if |p.exec| > 0 then p.exec else command), None, None, None))
  }

  function ReadinessCommand(mode: Mode): seq<string> {
    ["sh", "-c", match mode
                 case MultiMaster => "# Multi-master readiness check"
                 case ClusterMode => "# Cluster mode readiness check"
                 case UnsupportedMode(_) => "# Standalone mode readiness check"]
  }

  function LivenessProbe(spec: Spec): Option<Probe> {
    BuildProbe(spec.liveness, 1, ["keydb-cli", "-p", "6379", "PING"])
  }

  function ReadinessProbe(spec: Spec): Option<Probe> {
    BuildProbe(spec.readiness, 5, ReadinessCommand(spec.mode))
  }

  // ---- the whole object ----

  const NO_RESOURCES := Resources(map[], map[])

  function MeshHook(spec: Spec, id: Identity): Option<Lifecycle> {
    if spec.mode != MultiMaster then None
    else Some(Lifecycle(Some(Handler(Some(["sh", "-c", MeshScript(spec.replicas, id)]), None, None)), None))
  }

  function ServerContainer(spec: Spec, id: Identity): Container {
    Container("keydb", spec.image, if spec.resources.Some? then spec.resources.value else NO_RESOURCES,
              ReadinessProbe(spec), LivenessProbe(spec), MeshHook(spec, id))
  }

  function Exporter(): Container {
    Container("redis-exporter", "oliver006/redis_exporter:latest",
              Resources(map["cpu" := 200, "memory" := 0x1000_0000], map["cpu" := 100, "memory" := 0x800_0000]),
              None, None, None)
  }

  predicate Monitored(spec: Spec) { spec.monitoring.Some? && spec.monitoring.value.enabled }

  function DesiredStatefulSet(spec: Spec, id: Identity): StatefulSet
    requires spec.storage.Some?
  {
    StatefulSet(
      CalculateReplicas(spec),
      [ServerContainer(spec, id)] + (if Monitored(spec) then [Exporter()] else []),
      Creation(HeadlessServiceName(id.name),
            if spec.mode == ClusterMode then [spec.image] else [],
            if TlsEnabled(spec) then Some(spec.config.value.tls.value.secretName) else None,
            spec.storage.value))
  }

  // ---- what it has to do with the spec, field by field ----

  /** Absent exactly if switched off; else every number and the command are the user's where given. */
  predicate ProbeFollows(built: Option<Probe>, given: Option<ProbeSpec>, timeout: int32, command: seq<string>) {
    && (built.None? <==> given.Some? && given.value.enabled == Some(false))
    && (built.Some? ==>
          var b := built.value;
          && b.initialDelay
               == (if given.Some? && given.value.initialDelay.Some? then given.value.initialDelay.value else 5)
          && b.timeout == (if given.Some? && given.value.timeout.Some? then given.value.timeout.value else timeout)
          && b.period == (if given.Some? && given.value.period.Some? then given.value.period.value else 10)
          && b.successThreshold
               == (if given.Some? && given.value.successThreshold.Some? then given.value.successThreshold.value else 1)
          && b.failureThreshold
               == (if given.Some? && given.value.failureThreshold.Some? then given.value.failureThreshold.value else 3)
          && b.exec == Some(if given.Some? && given.value.exec != [] then given.value.exec else command)
          && b.httpGet.None? && b.tcpSocket.None?)
  }

  predicate ServerFollows(c: Container, spec: Spec, id: Identity) {
    && c.name == "keydb" && c.image == spec.image
    && (if spec.resources.Some? then c.resources == spec.resources.value
        else c.resources.limits == map[] && c.resources.requests == map[])
    && ProbeFollows(c.liveness, spec.liveness, 1, ["keydb-cli", "-p", "6379", "PING"])
    && (spec.mode == MultiMaster ==>
          ProbeFollows(c.readiness, spec.readiness, 5, ["sh", "-c", "# Multi-master readiness check"]))
    && (spec.mode == ClusterMode ==>
          ProbeFollows(c.readiness, spec.readiness, 5, ["sh", "-c", "# Cluster mode readiness check"]))
    && (if spec.mode == MultiMaster then
          c.lifecycle
            == Some(Lifecycle(Some(Handler(Some(["sh", "-c", MeshScript(spec.replicas, id)]), None, None)), None))
        else c.lifecycle.None?)
  }

  predicate FixedFollows(f: Creation, spec: Spec, id: Identity)
    requires spec.storage.Some?
  {
    && f.serviceName == id.name + "-keydb-headless" && f.claim == spec.storage.value
    && f.initImages == (if spec.mode == ClusterMode then [spec.image] else [])
    && (if spec.config.Some? && spec.config.value.tls.Some? && spec.config.value.tls.value.enabled
        then f.tlsSecret == Some(spec.config.value.tls.value.secretName) else f.tlsSecret.None?)
  }

  /** The exporter is there exactly if monitoring is enabled. */
  predicate SidecarsFollow(containers: seq<Container>, spec: Spec) {
    if spec.monitoring.Some? && spec.monitoring.value.enabled
    then |containers| == 2 && containers[1].name == "redis-exporter"
         && containers[1].image == "oliver006/redis_exporter:latest"
    else |containers| == 1
  }

  predicate FollowsSpec(sts: StatefulSet, spec: Spec, id: Identity)
    requires spec.storage.Some?
  {
    && SidecarsFollow(sts.containers, spec) && ServerFollows(sts.containers[0], spec, id)
    && FixedFollows(sts.fixed, spec, id)
    && (spec.mode != ClusterMode ==> sts.replicas == spec.replicas)
    && (spec.mode == ClusterMode && spec.cluster.None? ==> sts.replicas == 3)
  }

  lemma ServerFollowsSpec(spec: Spec, id: Identity)
    ensures ServerFollows(ServerContainer(spec, id), spec, id)
  {
  }

  lemma DesiredFollowsSpec(spec: Spec, id: Identity)
    requires spec.storage.Some?
    ensures FollowsSpec(DesiredStatefulSet(spec, id), spec, id)
  {
    ServerFollowsSpec(spec, id);
    assert DesiredStatefulSet(spec, id).containers[0] == ServerContainer(spec, id);
  }

  /** NewStatefulSet: a bare object, then the optional parts one by one. */
  method NewStatefulSet(spec: Spec, id: Identity) returns (sts: StatefulSet)
    requires spec.storage.Some?
    ensures sts == DesiredStatefulSet(spec, id) && FollowsSpec(sts, spec, id)
  {
    var server := Container("keydb", spec.image, NO_RESOURCES, ReadinessProbe(spec), LivenessProbe(spec), None);
    var sidecars := [];
    var fixed := Creation(HeadlessServiceName(id.name), [], None, Storage(spec.storage.value.size, ""));
    if spec.storage.value.storageClass != "" {
      fixed := fixed.(claim := fixed.claim.(storageClass := spec.storage.value.storageClass));
    }
    if spec.resources.Some? {
      server := server.(resources := spec.resources.value);
    }
    if TlsEnabled(spec) {
      fixed := fixed.(tlsSecret := Some(spec.config.value.tls.value.secretName));
    }
    if spec.monitoring.Some? && spec.monitoring.value.enabled {
      sidecars := [Exporter()];
    }
    if spec.mode == ClusterMode {
      fixed := fixed.(initImages := [spec.image]);
    }
    if spec.mode == MultiMaster {
      server := server.(lifecycle := MeshHook(spec, id));
    }
    sts := StatefulSet(CalculateReplicas(spec), [server] + sidecars, fixed);
    DesiredFollowsSpec(spec, id);
  }
}
