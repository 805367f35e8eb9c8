/** The values the operator works on: the custom resource's spec and the parts of the
    Kubernetes objects that the operator compares, prints or copies. */
module Types {

  datatype Option<+T> = None | Some(value: T)

  /** Go's int32; arithmetic on it is written out with Wrap32. */
  type int32 = x: int | -0x8000_0000 <= x < 0x8000_0000

  const MAX_INT32 := 0x7fff_ffff

  /** Two's complement wrap-around of a mathematical result. */
  function Wrap32(x: int): int32 {
    (x + 0x8000_0000) % 0x1_0000_0000 - 0x8000_0000
  }

  // ---- api/v1alpha1: the spec ----

  datatype Mode = MultiMaster | ClusterMode | UnsupportedMode(name: string)

  datatype SecretRef = SecretRef(name: string, key: string)
  datatype Password = Password(value: string, secretRef: Option<SecretRef>)
  datatype Tls = Tls(enabled: bool, secretName: string, requireClientCerts: bool)
  datatype Config = Config(maxMemory: string, persistence: bool, requirePass: Option<Password>,
                           tls: Option<Tls>, custom: Option<map<string, string>>)
  datatype Sharding = Sharding(shards: int32, replicasPerShard: int32)
  datatype Storage = Storage(size: string, storageClass: string)
  datatype ServiceSpec = ServiceSpec(kind: string, port: int32)
  datatype Monitoring = Monitoring(enabled: bool, port: int32)
  datatype UpgradeSpec = UpgradeSpec(strategy: string, maxUnavailable: int32, validationTimeoutSeconds: int32)
  datatype BudgetSpec = BudgetSpec(minAvailable: Option<int32>, maxUnavailable: Option<int32>)
  datatype ProbeSpec = ProbeSpec(enabled: Option<bool>, exec: seq<string>,
                                 initialDelay: Option<int32>, period: Option<int32>, timeout: Option<int32>,
                                 successThreshold: Option<int32>, failureThreshold: Option<int32>)

  datatype Spec = Spec(mode: Mode, replicas: int32, image: string,
                       activeReplica: bool,              // multiMaster != nil && multiMaster.activeReplica
                       cluster: Option<Sharding>, config: Option<Config>,
                       resources: Option<Resources>, storage: Option<Storage>, service: Option<ServiceSpec>,
                       monitoring: Option<Monitoring>, upgrade: Option<UpgradeSpec>, budget: Option<BudgetSpec>,
                       liveness: Option<ProbeSpec>, readiness: Option<ProbeSpec>)

  // ---- k8s core types, as far as the operator looks at them ----

  /** A resource list maps a resource name to an amount (in the smallest unit). */
  type Amounts = map<string, int>
  datatype Resources = Resources(limits: Amounts, requests: Amounts)

  datatype Port = Number(n: int32) | Named(name: string)
  datatype HttpGet = HttpGet(path: string, port: Port, host: string, scheme: string, headers: seq<(string, string)>)
  datatype TcpSocket = TcpSocket(port: Port, host: string)

  datatype Probe = Probe(initialDelay: int32, timeout: int32, period: int32, successThreshold: int32,
                         failureThreshold: int32, exec: Option<seq<string>>, httpGet: Option<HttpGet>,
                         tcpSocket: Option<TcpSocket>, terminationGrace: Option<int>)
  datatype Handler = Handler(exec: Option<seq<string>>, httpGet: Option<HttpGet>, tcpSocket: Option<TcpSocket>)
  datatype Lifecycle = Lifecycle(postStart: Option<Handler>, preStop: Option<Handler>)

  datatype Container = Container(name: string, image: string, resources: Resources,
                                 readiness: Option<Probe>, liveness: Option<Probe>, lifecycle: Option<Lifecycle>)
}
