/** The parameters that the operator writes into keydb.conf, and their names. */
module Parameters {
  import opened Validation

  datatype NetworkKey = Bind | Port | TcpBacklog | Timeout | TcpKeepalive
                      | Hz | ProtectedMode | RenameCommand | MaxClients
  datatype GeneralKey = Daemonize | Supervised | Pidfile | Loglevel | Logfile | Databases | MaxMemory | MaxMemoryPolicy
                      | RequirePass | MasterAuth | MultiMasterMode | ActiveReplica
  datatype DataKey = Save | StopWritesOnError | RdbCompression | RdbChecksum | DbFilename | Dir
  datatype LogKey = AppendOnly | AppendFilename | AppendFsync | NoFsyncOnRewrite | RewritePercentage | RewriteMinSize
  datatype TlsKey = TlsPort | CertFile | KeyFile | CaCertFile | DhParamsFile | Protocols | Ciphers | CipherSuites
                  | PreferServerCiphers | SessionCaching | SessionCacheSize | SessionCacheTimeout | AuthClients
  datatype ClusterKey = Enabled | ConfigFile | NodeTimeout | ReplicaValidityFactor | MigrationBarrier
                      | RequireFullCoverage | AllowReadsWhenDown

  datatype Parameter = Net(net: NetworkKey) | Gen(gen: GeneralKey) | Data(data: DataKey) | Log(log: LogKey)
                     | Secure(secure: TlsKey) | Shard(shard: ClusterKey)

  function NetworkName(k: NetworkKey): string {
    match k
    case Bind => "bind"
    case Port => "port"
    case TcpBacklog => "tcp-backlog"
    case Timeout => "timeout"
    case TcpKeepalive => "tcp-keepalive"
    case Hz => "hz"
    case ProtectedMode => "protected-mode"
    case RenameCommand => "rename-command"
    case MaxClients => "maxclients"
  }

  function GeneralName(k: GeneralKey): string {
    match k
    case Daemonize => "daemonize"
    case Supervised => "supervised"
    case Pidfile => "pidfile"
    case Loglevel => "loglevel"
    case Logfile => "logfile"
    case Databases => "databases"
    case MaxMemory => "maxmemory"
    case MaxMemoryPolicy => "maxmemory-policy"
    case RequirePass => "requirepass"
    case MasterAuth => "masterauth"
    case MultiMasterMode => "multi-master"
    case ActiveReplica => "active-replica"
  }

  function DataName(k: DataKey): string {
    match k
    case Save => "save"
    case StopWritesOnError => "stop-writes-on-bgsave-error"
    case RdbCompression => "rdbcompression"
    case RdbChecksum => "rdbchecksum"
    case DbFilename => "dbfilename"
    case Dir => "dir"
  }

  function LogName(k: LogKey): string {
    match k
    case AppendOnly => "appendonly"
    case AppendFilename => "appendfilename"
    case AppendFsync => "appendfsync"
    case NoFsyncOnRewrite => "no-appendfsync-on-rewrite"
    case RewritePercentage => "auto-aof-rewrite-percentage"
    case RewriteMinSize => "auto-aof-rewrite-min-size"
  }

  function TlsName(k: TlsKey): string {
    match k
    case TlsPort => "tls-port"
    case CertFile => "tls-cert-file"
    case KeyFile => "tls-key-file"
    case CaCertFile => "tls-ca-cert-file"
    case DhParamsFile => "tls-dh-params-file"
    case Protocols => "tls-protocols"
    case Ciphers => "tls-ciphers"
    case CipherSuites => "tls-ciphersuites"
    case PreferServerCiphers => "tls-prefer-server-ciphers"
    case SessionCaching => "tls-session-caching"
    case SessionCacheSize => "tls-session-cache-size"
    case SessionCacheTimeout => "tls-session-cache-timeout"
    case AuthClients => "tls-auth-clients"
  }

  function ClusterName(k: ClusterKey): string {
    match k
    case Enabled => "cluster-enabled"
    case ConfigFile => "cluster-config-file"
    case NodeTimeout => "cluster-node-timeout"
    case ReplicaValidityFactor => "cluster-replica-validity-factor"
    case MigrationBarrier => "cluster-migration-barrier"
    case RequireFullCoverage => "cluster-require-full-coverage"
    case AllowReadsWhenDown => "cluster-allow-reads-when-down"
  }

  function Name(p: Parameter): string {
    match p
    case Net(k) => NetworkName(k)
    case Gen(k) => GeneralName(k)
    case Data(k) => DataName(k)
    case Log(k) => LogName(k)
    case Secure(k) => TlsName(k)
    case Shard(k) => ClusterName(k)
  }

  // ---- names are lower-case words ----

  predicate Plain(s: string) { s != [] && forall c :: c in s ==> 'a' <= c <= 'z' || c == '-' }

  lemma NetworkPlain(k: NetworkKey) ensures Plain(NetworkName(k)) {}
  lemma GeneralPlain(k: GeneralKey) ensures Plain(GeneralName(k)) {}
  lemma DataPlain(k: DataKey) ensures Plain(DataName(k)) {}
  lemma LogPlain(k: LogKey) ensures Plain(LogName(k)) {}
  lemma TlsPlain(k: TlsKey) ensures Plain(TlsName(k)) {}
  lemma ClusterPlain(k: ClusterKey) ensures Plain(ClusterName(k)) {}

  lemma NamePlain(p: Parameter)
    ensures Plain(Name(p))
  {
    match p
    case Net(k) => NetworkPlain(k);
    case Gen(k) => GeneralPlain(k);
    case Data(k) => DataPlain(k);
    case Log(k) => LogPlain(k);
    case Secure(k) => TlsPlain(k);
    case Shard(k) => ClusterPlain(k);
  }

  lemma PlainIsLower(s: string)
    requires Plain(s)
    ensures Lower(s) == s && ' ' !in s && '\n' !in s && s[0] != '#'
  {
    assert forall i :: 0 <= i < |s| ==> s[i] in s;
    assert Lower(s) == s;
  }

  // ---- and different ----

  /** Length, first, and last two characters. */
  datatype Print = Print(length: int, first: char, beforeLast: char, last: char)

  predicate HasPrint(s: string, p: Print) {
    |s| > 1 && |s| == p.length && s[0] == p.first && s[|s| - 2] == p.beforeLast && s[|s| - 1] == p.last
  }

  function NetworkPrint(k: NetworkKey): Print {
    match k
    case Bind => Print(4, 'b', 'n', 'd')
    case Port => Print(4, 'p', 'r', 't')
    case TcpBacklog => Print(11, 't', 'o', 'g')
    case Timeout => Print(7, 't', 'u', 't')
    case TcpKeepalive => Print(13, 't', 'v', 'e')
    case Hz => Print(2, 'h', 'h', 'z')
    case ProtectedMode => Print(14, 'p', 'd', 'e')
    case RenameCommand => Print(14, 'r', 'n', 'd')
    case MaxClients => Print(10, 'm', 't', 's')
  }

  function GeneralPrint(k: GeneralKey): Print {
    match k
    case Daemonize => Print(9, 'd', 'z', 'e')
    case Supervised => Print(10, 's', 'e', 'd')
    case Pidfile => Print(7, 'p', 'l', 'e')
    case Loglevel => Print(8, 'l', 'e', 'l')
    case Logfile => Print(7, 'l', 'l', 'e')
    case Databases => Print(9, 'd', 'e', 's')
    case MaxMemory => Print(9, 'm', 'r', 'y')
    case MaxMemoryPolicy => Print(16, 'm', 'c', 'y')
    case RequirePass => Print(11, 'r', 's', 's')
    case MasterAuth => Print(10, 'm', 't', 'h')
    case MultiMasterMode => Print(12, 'm', 'e', 'r')
    case ActiveReplica => Print(14, 'a', 'c', 'a')
  }

  function DataPrint(k: DataKey): Print {
    match k
    case Save => Print(4, 's', 'v', 'e')
    case StopWritesOnError => Print(27, 's', 'o', 'r')
    case RdbCompression => Print(14, 'r', 'o', 'n')
    case RdbChecksum => Print(11, 'r', 'u', 'm')
    case DbFilename => Print(10, 'd', 'm', 'e')
    case Dir => Print(3, 'd', 'i', 'r')
  }

  function LogPrint(k: LogKey): Print {
    match k
    case AppendOnly => Print(10, 'a', 'l', 'y')
    case AppendFilename => Print(14, 'a', 'm', 'e')
    case AppendFsync => Print(11, 'a', 'n', 'c')
    case NoFsyncOnRewrite => Print(25, 'n', 't', 'e')
    case RewritePercentage => Print(27, 'a', 'g', 'e')
    case RewriteMinSize => Print(25, 'a', 'z', 'e')
  }

  function TlsPrint(k: TlsKey): Print {
    match k
    case TlsPort => Print(8, 't', 'r', 't')
    case CertFile => Print(13, 't', 'l', 'e')
    case KeyFile => Print(12, 't', 'l', 'e')
    case CaCertFile => Print(16, 't', 'l', 'e')
    case DhParamsFile => Print(18, 't', 'l', 'e')
    case Protocols => Print(13, 't', 'l', 's')
    case Ciphers => Print(11, 't', 'r', 's')
    case CipherSuites => Print(16, 't', 'e', 's')
    case PreferServerCiphers => Print(25, 't', 'r', 's')
    case SessionCaching => Print(19, 't', 'n', 'g')
    case SessionCacheSize => Print(22, 't', 'z', 'e')
    case SessionCacheTimeout => Print(25, 't', 'u', 't')
    case AuthClients => Print(16, 't', 't', 's')
  }

  function ClusterPrint(k: ClusterKey): Print {
    match k
    case Enabled => Print(15, 'c', 'e', 'd')
    case ConfigFile => Print(19, 'c', 'l', 'e')
    case NodeTimeout => Print(20, 'c', 'u', 't')
    case ReplicaValidityFactor => Print(31, 'c', 'o', 'r')
    case MigrationBarrier => Print(25, 'c', 'e', 'r')
    case RequireFullCoverage => Print(29, 'c', 'g', 'e')
    case AllowReadsWhenDown => Print(29, 'c', 'w', 'n')
  }

  function PrintOf(p: Parameter): Print {
    match p
    case Net(k) => NetworkPrint(k)
    case Gen(k) => GeneralPrint(k)
    case Data(k) => DataPrint(k)
    case Log(k) => LogPrint(k)
    case Secure(k) => TlsPrint(k)
    case Shard(k) => ClusterPrint(k)
  }

  lemma NetworkFits(k: NetworkKey) ensures HasPrint(NetworkName(k), NetworkPrint(k)) {}
  lemma GeneralFits(k: GeneralKey) ensures HasPrint(GeneralName(k), GeneralPrint(k)) {}
  lemma DataFits(k: DataKey) ensures HasPrint(DataName(k), DataPrint(k)) {}
  lemma LogFits(k: LogKey) ensures HasPrint(LogName(k), LogPrint(k)) {}
  lemma TlsFits(k: TlsKey) ensures HasPrint(TlsName(k), TlsPrint(k)) {}
  lemma ClusterFits(k: ClusterKey) ensures HasPrint(ClusterName(k), ClusterPrint(k)) {}

  lemma NameFits(p: Parameter)
    ensures HasPrint(Name(p), PrintOf(p))
  {
    match p
    case Net(k) => NetworkFits(k);
    case Gen(k) => GeneralFits(k);
    case Data(k) => DataFits(k);
    case Log(k) => LogFits(k);
    case Secure(k) => TlsFits(k);
    case Shard(k) => ClusterFits(k);
  }

  lemma PrintInjective(p: Parameter, q: Parameter)
    requires PrintOf(p) == PrintOf(q)
    ensures p == q
  {
  }

  /** No two parameters have the same name. */
  lemma NameInjective(p: Parameter, q: Parameter)
    requires Name(p) == Name(q)
    ensures p == q
  {
    NameFits(p);
    NameFits(q);
    PrintInjective(p, q);
  }
}
