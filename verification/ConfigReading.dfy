/** What a server reads out of the generated text. The reference is a table of all parameters, stated on the fields of
    the spec. */
module ConfigReading {
  import opened Types
  import opened Validation
  import opened Texts
  import opened Parameters
  import opened KeyDBConfig

  // ---- reading lines ----

  /** The line sets the parameter: it starts with the key, in any letter case, and a blank. */
  predicate Sets(line: string, key: string) {
    |line| > |key| && line[|key|] == ' ' && Lower(line[..|key|]) == key
  }

  function Reading(line: string, key: string): seq<string> {
    if Sets(line, key) then [line[|key| + 1..]] else []
  }

  /** All values that the lines give a parameter, first to last. */
  function Readings(ls: seq<string>, key: string): seq<string> {
    if ls == [] then [] else Reading(ls[0], key) + Readings(ls[1..], key)
  }

  /** The last line for a key wins. */
  function LastOf(values: seq<string>): Option<string> {
    if values == [] then None else Some(values[|values| - 1])
  }

  function Read(text: string, key: string): Option<string> { LastOf(Readings(Lines(text), key)) }

  lemma {:induction false} ReadingsConcat(a: seq<string>, b: seq<string>, key: string)
    ensures Readings(a + b, key) == Readings(a, key) + Readings(b, key)
  {
    if a == [] {
      assert a + b == b;
    } else {
      assert (a + b)[0] == a[0] && (a + b)[1..] == a[1..] + b;
      ReadingsConcat(a[1..], b, key);
    }
  }

  lemma ReadingsOne(line: string, key: string)
    ensures Readings([line], key) == Reading(line, key)
  {
    assert [line][1..] == [];
  }

  /** The later of two findings. */
  function Later(a: Option<string>, b: Option<string>): Option<string> { if b.Some? then b else a }

  lemma LastOfConcat(a: seq<string>, b: seq<string>)
    ensures LastOf(a + b) == Later(LastOf(a), LastOf(b))
  {
  }

  // ---- lines that start with a word ----

  /** A key of printable ASCII characters without blanks that does not start a comment. */
  predicate Token(s: string) { s != [] && s[0] != '#' && forall c :: c in s ==> '!' <= c <= '~' }

  lemma TokenFolds(s: string)
    requires Token(s)
    ensures Fold(s) == Lower(s) && Token(Lower(s)) && ' ' !in s && OneLine(s)
  {
    assert forall i :: 0 <= i < |s| ==> s[i] in s;
    forall c | c in Lower(s) ensures '!' <= c <= '~' {
      var i :| 0 <= i < |s| && Lower(s)[i] == c;
      assert LowerAscii(s[i]) == c;
    }
  }

  lemma KeyOfLine(line: string, key: string, i: nat)
    ensures Sets(line, key) && i < |key| ==> key[i] == LowerAscii(line[i])
  {
    if Sets(line, key) && i < |key| { assert line[..|key|][i] == line[i]; }
  }

  /** An entry's line sets exactly the parameter that its key is in lower case. */
  lemma EntrySets(k: string, value: string, key: string)
    requires Token(k) && ' ' !in key
    ensures Reading(k + " " + value, key) == if Lower(k) == key then [value] else []
  {
    TokenFolds(k);
    var line := k + " " + value;
    assert line[|k|] == ' ';
    KeyOfLine(line, key, |k|);
    if |key| == |k| {
      assert line[..|key|] == k;
    } else if |key| < |k| {
      assert line[|key|] in k;
    }
  }

  // ---- reading directives ----

  function ValueOf(d: Directive, p: Parameter): seq<string> { if d.Set? && d.parameter == p then [d.value] else [] }

  function Values(ds: seq<Directive>, p: Parameter): seq<string> {
    if ds == [] then [] else ValueOf(ds[0], p) + Values(ds[1..], p)
  }

  lemma NameIsToken(p: Parameter)
    ensures Token(Name(p)) && Lower(Name(p)) == Name(p)
  {
    NamePlain(p);
    PlainIsLower(Name(p));
  }

  lemma LineReads(d: Directive, p: Parameter)
    ensures Reading(Line(d), Name(p)) == ValueOf(d, p)
  {
    NameIsToken(p);
    TokenFolds(Name(p));
    match d
    case Set(q, value) =>
      NameIsToken(q);
      EntrySets(Name(q), value, Name(p));
      if Name(q) == Name(p) { NameInjective(q, p); }
    case Remark(text) => KeyOfLine("# " + text, Name(p), 0);
    case Blank =>
  }

  /** A server reads the parameter's directives and nothing else. */
  lemma {:induction false} DirectivesRead(ds: seq<Directive>, p: Parameter)
    ensures Readings(LinesOf(ds), Name(p)) == Values(ds, p)
  {
    if ds != [] {
      LineReads(ds[0], p);
      DirectivesRead(ds[1..], p);
      assert LinesOf(ds)[1..] == LinesOf(ds[1..]);
    }
  }

  lemma {:induction false} ValuesConcat(a: seq<Directive>, b: seq<Directive>, p: Parameter)
    ensures Values(a + b, p) == Values(a, p) + Values(b, p)
  {
    if a == [] {
      assert a + b == b;
    } else {
      assert (a + b)[0] == a[0] && (a + b)[1..] == a[1..] + b;
      ValuesConcat(a[1..], b, p);
    }
  }

  lemma {:induction false} Nothing(ds: seq<Directive>, p: Parameter)
    requires forall d :: d in ds ==> ValueOf(d, p) == []
    ensures Values(ds, p) == []
  {
    if ds != [] {
      assert ds[0] in ds;
      Nothing(ds[1..], p);
    }
  }

  function At(ds: seq<Directive>, k: nat, p: Parameter): seq<string> {
    if k < |ds| then ValueOf(ds[k], p) else []
  }

  function From(ds: seq<Directive>, k: nat, p: Parameter): seq<string> {
    if k < |ds| then Values(ds[k..], p) else []
  }

  lemma FromStep(ds: seq<Directive>, k: nat, p: Parameter)
    ensures From(ds, k, p) == At(ds, k, p) + From(ds, k + 1, p)
  {
    if k < |ds| { assert ds[k..][1..] == ds[k + 1..]; }
  }

  /** The values of a small block, directive by directive. */
  lemma BlockValues(ds: seq<Directive>, p: Parameter)
    requires |ds| <= 6
    ensures Values(ds, p)
         == At(ds, 0, p) + (At(ds, 1, p) + (At(ds, 2, p) + (At(ds, 3, p) + (At(ds, 4, p) + At(ds, 5, p)))))
  {
    assert ds[0..] == ds;
    FromStep(ds, 0, p);
    FromStep(ds, 1, p);
    FromStep(ds, 2, p);
    FromStep(ds, 3, p);
    FromStep(ds, 4, p);
    FromStep(ds, 5, p);
    Chain(At(ds, 0, p), At(ds, 1, p), At(ds, 2, p), At(ds, 3, p), At(ds, 4, p), At(ds, 5, p),
          From(ds, 0, p), From(ds, 1, p), From(ds, 2, p), From(ds, 3, p), From(ds, 4, p), From(ds, 5, p));
  }

  lemma Chain<T>(a0: seq<T>, a1: seq<T>, a2: seq<T>, a3: seq<T>, a4: seq<T>, a5: seq<T>,
                 f0: seq<T>, f1: seq<T>, f2: seq<T>, f3: seq<T>, f4: seq<T>, f5: seq<T>)
    requires f0 == a0 + f1 && f1 == a1 + f2 && f2 == a2 + f3 && f3 == a3 + f4 && f4 == a4 + f5 && f5 == a5 + []
    ensures f0 == a0 + (a1 + (a2 + (a3 + (a4 + a5))))
  {
  }

  // ---- what the operator's own directives set, parameter by parameter ----

  predicate Encrypts(spec: Spec) {
    spec.config.Some? && spec.config.value.tls.Some? && spec.config.value.tls.value.enabled
  }

  function Given(condition: bool, value: string): seq<string> { if condition then [value] else [] }

  function ExpectedNetwork(spec: Spec, k: NetworkKey): seq<string> {
    match k
    case Bind => ["0.0.0.0"]
    case Port => ["6379"] + Given(Encrypts(spec), "0")
    case TcpBacklog => ["511"]
    case Timeout => ["0", "0"]
    case TcpKeepalive => ["300", "300", "300"]
    case Hz => ["10"]
    case ProtectedMode => ["no"]
    case RenameCommand => ["FLUSHDB" + " \"\"", "FLUSHALL" + " \"\"", "DEBUG" + " \"\""]
    case MaxClients => ["10000"]
  }

  function ExpectedGeneral(spec: Spec, k: GeneralKey): seq<string> {
    match k
    case Daemonize => ["no"]
    case Supervised => ["no"]
    case Pidfile => ["/var/run/keydb.pid"]
    case Loglevel => ["notice"]
    case Logfile => ["\"\""]
    case Databases => ["16"]
    case MaxMemory =>
      if spec.config.Some? then Given(spec.config.value.maxMemory != "", spec.config.value.maxMemory) else []
    case MaxMemoryPolicy => Given(spec.config.Some? && spec.config.value.maxMemory != "", "allkeys-lru")
    case RequirePass => ExpectedPassword(spec)
    case MasterAuth => ExpectedPassword(spec)
    case MultiMasterMode => Given(spec.mode == MultiMaster, "yes")
    case ActiveReplica => Given(spec.mode == MultiMaster && spec.activeReplica, "yes")
  }

  function ExpectedPassword(spec: Spec): seq<string> {
    if spec.config.Some? && spec.config.value.requirePass.Some?
    then Given(spec.config.value.requirePass.value.value != "", spec.config.value.requirePass.value.value) else []
  }

  function ExpectedData(spec: Spec, k: DataKey): seq<string> {
    if spec.config.None? || !spec.config.value.persistence then []
    else
      match k
      case Save => ["900 1", "300 10", "60 10000"]
      case StopWritesOnError => ["yes"]
      case RdbCompression => ["yes"]
      case RdbChecksum => ["yes"]
      case DbFilename => ["dump.rdb"]
      case Dir => ["/data"]
  }

  function ExpectedLog(spec: Spec, k: LogKey): seq<string> {
    if spec.config.None? || !spec.config.value.persistence then []
    else
      match k
      case AppendOnly => ["yes"]
      case AppendFilename => ["\"appendonly.aof\""]
      case AppendFsync => ["everysec"]
      case NoFsyncOnRewrite => ["no"]
      case RewritePercentage => ["100"]
      case RewriteMinSize => ["64mb"]
  }

  function ExpectedTls(spec: Spec, k: TlsKey): seq<string> {
    if !Encrypts(spec) then []
    else
      match k
      case TlsPort => ["6380"]
      case CertFile => ["/etc/keydb/tls/" + "tls.crt"]
      case KeyFile => ["/etc/keydb/tls/" + "tls.key"]
      case CaCertFile => ["/etc/keydb/tls/" + "ca.crt"]
      case DhParamsFile => ["/etc/keydb/tls/" + "dh.pem"]
      case Protocols => ["\"TLSv1.2 TLSv1.3\""]
      case Ciphers => ["\"" + "ECDHE-RSA-AES256-GCM-SHA384" + ":" + "ECDHE-RSA-AES128-GCM-SHA256" + "\""]
      case CipherSuites => ["\"" + "TLS_AES_256_GCM_SHA384" + ":" + "TLS_AES_128_GCM_SHA256" + "\""]
      case PreferServerCiphers => ["yes"]
      case SessionCaching => ["no"]
      case SessionCacheSize => ["5000"]
      case SessionCacheTimeout => ["60"]
      case AuthClients => Given(spec.config.value.tls.value.requireClientCerts, "yes")
  }

  function ExpectedCluster(spec: Spec, k: ClusterKey): seq<string> {
    if spec.mode != ClusterMode then []
    else
      match k
      case Enabled => ["yes"]
      case ConfigFile => ["nodes.conf"]
      case NodeTimeout => ["5000"]
      case ReplicaValidityFactor => ["10"]
      case MigrationBarrier => ["1"]
      case RequireFullCoverage => ["yes"]
      case AllowReadsWhenDown => ["no"]
  }

  /** All values of each parameter, in order. */
  function Expected(spec: Spec, p: Parameter): seq<string> {
    match p
    case Net(k) => ExpectedNetwork(spec, k)
    case Gen(k) => ExpectedGeneral(spec, k)
    case Data(k) => ExpectedData(spec, k)
    case Log(k) => ExpectedLog(spec, k)
    case Secure(k) => ExpectedTls(spec, k)
    case Shard(k) => ExpectedCluster(spec, k)
  }

  // ---- the operator's directives, section by section ----

  lemma Values4(a: seq<Directive>, b: seq<Directive>, c: seq<Directive>, d: seq<Directive>, p: Parameter)
    ensures Values(a + b + c + d, p) == Values(a, p) + Values(b, p) + Values(c, p) + Values(d, p)
  {
    ValuesConcat(a, b, p);
    ValuesConcat(a + b, c, p);
    ValuesConcat(a + b + c, d, p);
  }

  lemma TitleValues(p: Parameter)
    ensures Values(Title(), p) == []
  {
    BlockValues(Title(), p);
  }

  function InNetwork(p: Parameter): seq<string> {
    match p
    case Net(Bind) => ["0.0.0.0"]
    case Net(Port) => ["6379"]
    case Net(TcpBacklog) => ["511"]
    case Net(Timeout) => ["0"]
    case Net(TcpKeepalive) => ["300"]
    case _ => []
  }

  lemma NetworkValues(p: Parameter)
    ensures Values(Network(), p) == InNetwork(p)
  {
    BlockValues(Network(), p);
  }

  function InProcess(p: Parameter): seq<string> {
    match p
    case Gen(Daemonize) => ["no"]
    case Gen(Supervised) => ["no"]
    case Gen(Pidfile) => ["/var/run/keydb.pid"]
    case _ => []
  }

  lemma ProcessValues(p: Parameter)
    ensures Values(Process(), p) == InProcess(p)
  {
    BlockValues(Process(), p);
  }

  function InLogging(p: Parameter): seq<string> {
    match p
    case Gen(Loglevel) => ["notice"]
    case Gen(Logfile) => ["\"\""]
    case Gen(Databases) => ["16"]
    case _ => []
  }

  lemma LoggingValues(p: Parameter)
    ensures Values(Logging(), p) == InLogging(p)
  {
    BlockValues(Logging(), p);
  }

  function InSavePoints(p: Parameter): seq<string> {
    match p
    case Data(Save) => ["900 1", "300 10", "60 10000"]
    case Data(StopWritesOnError) => ["yes"]
    case _ => []
  }

  lemma SavePointsValues(p: Parameter)
    ensures Values(SavePoints(), p) == InSavePoints(p)
  {
    BlockValues(SavePoints(), p);
  }

  function InSnapshotFile(p: Parameter): seq<string> {
    match p
    case Data(RdbCompression) => ["yes"]
    case Data(RdbChecksum) => ["yes"]
    case Data(DbFilename) => ["dump.rdb"]
    case Data(Dir) => ["/data"]
    case _ => []
  }

  lemma SnapshotFileValues(p: Parameter)
    ensures Values(SnapshotFile(), p) == InSnapshotFile(p)
  {
    BlockValues(SnapshotFile(), p);
  }

  function InAppendOnlyFile(p: Parameter): seq<string> {
    match p
    case Log(AppendOnly) => ["yes"]
    case Log(AppendFilename) => ["\"appendonly.aof\""]
    case Log(AppendFsync) => ["everysec"]
    case Log(NoFsyncOnRewrite) => ["no"]
    case _ => []
  }

  lemma AppendOnlyFileValues(p: Parameter)
    ensures Values(AppendOnlyFile(), p) == InAppendOnlyFile(p)
  {
    BlockValues(AppendOnlyFile(), p);
  }

  function InRewrites(p: Parameter): seq<string> {
    match p
    case Log(RewritePercentage) => ["100"]
    case Log(RewriteMinSize) => ["64mb"]
    case _ => []
  }

  lemma RewritesValues(p: Parameter)
    ensures Values(Rewrites(), p) == InRewrites(p)
  {
    BlockValues(Rewrites(), p);
  }

  function InTlsPorts(p: Parameter): seq<string> {
    match p
    case Net(Port) => ["0"]
    case Secure(TlsPort) => ["6380"]
    case _ => []
  }

  lemma TlsPortsValues(p: Parameter)
    ensures Values(TlsPorts(), p) == InTlsPorts(p)
  {
    BlockValues(TlsPorts(), p);
  }

  function InTlsFiles(p: Parameter): seq<string> {
    match p
    case Secure(CertFile) => ["/etc/keydb/tls/" + "tls.crt"]
    case Secure(KeyFile) => ["/etc/keydb/tls/" + "tls.key"]
    case Secure(CaCertFile) => ["/etc/keydb/tls/" + "ca.crt"]
    case Secure(DhParamsFile) => ["/etc/keydb/tls/" + "dh.pem"]
    case _ => []
  }

  lemma TlsFilesValues(p: Parameter)
    ensures Values(TlsFiles(), p) == InTlsFiles(p)
  {
    BlockValues(TlsFiles(), p);
  }

  function InTlsCiphers(p: Parameter): seq<string> {
    match p
    case Secure(Protocols) => ["\"TLSv1.2 TLSv1.3\""]
    case Secure(Ciphers) => ["\"" + "ECDHE-RSA-AES256-GCM-SHA384" + ":" + "ECDHE-RSA-AES128-GCM-SHA256" + "\""]
    case _ => []
  }

  lemma TlsCiphersValues(p: Parameter)
    ensures Values(TlsCiphers(), p) == InTlsCiphers(p)
  {
    BlockValues(TlsCiphers(), p);
  }

  function InTlsSuites(p: Parameter): seq<string> {
    match p
    case Secure(CipherSuites) => ["\"" + "TLS_AES_256_GCM_SHA384" + ":" + "TLS_AES_128_GCM_SHA256" + "\""]
    case Secure(PreferServerCiphers) => ["yes"]
    case _ => []
  }

  lemma TlsSuitesValues(p: Parameter)
    ensures Values(TlsSuites(), p) == InTlsSuites(p)
  {
    BlockValues(TlsSuites(), p);
  }

  function InTlsSessions(p: Parameter): seq<string> {
    match p
    case Secure(SessionCaching) => ["no"]
    case Secure(SessionCacheSize) => ["5000"]
    case Secure(SessionCacheTimeout) => ["60"]
    case _ => []
  }

  lemma TlsSessionsValues(p: Parameter)
    ensures Values(TlsSessions(), p) == InTlsSessions(p)
  {
    BlockValues(TlsSessions(), p);
  }

  function InClusterIdentity(p: Parameter): seq<string> {
    match p
    case Shard(Enabled) => ["yes"]
    case Shard(ConfigFile) => ["nodes.conf"]
    case Shard(NodeTimeout) => ["5000"]
    case _ => []
  }

  lemma ClusterIdentityValues(p: Parameter)
    ensures Values(ClusterIdentity(), p) == InClusterIdentity(p)
  {
    BlockValues(ClusterIdentity(), p);
  }

  function InClusterLimits(p: Parameter): seq<string> {
    match p
    case Shard(ReplicaValidityFactor) => ["10"]
    case Shard(MigrationBarrier) => ["1"]
    case Shard(RequireFullCoverage) => ["yes"]
    case Shard(AllowReadsWhenDown) => ["no"]
    case _ => []
  }

  lemma ClusterLimitsValues(p: Parameter)
    ensures Values(ClusterLimits(), p) == InClusterLimits(p)
  {
    BlockValues(ClusterLimits(), p);
  }

  function InPerformance(p: Parameter): seq<string> {
    match p
    case Net(TcpKeepalive) => ["300"]
    case Net(Hz) => ["10"]
    case _ => []
  }

  lemma PerformanceValues(p: Parameter)
    ensures Values(Performance(), p) == InPerformance(p)
  {
    BlockValues(Performance(), p);
  }

  function InSecurity(p: Parameter): seq<string> {
    match p
    case Net(ProtectedMode) => ["no"]
    case Net(RenameCommand) => ["FLUSHDB" + " \"\"", "FLUSHALL" + " \"\"", "DEBUG" + " \"\""]
    case _ => []
  }

  lemma SecurityValues(p: Parameter)
    ensures Values(Security(), p) == InSecurity(p)
  {
    BlockValues(Security(), p);
  }

  function InClients(p: Parameter): seq<string> {
    match p
    case Net(Timeout) => ["0"]
    case Net(TcpKeepalive) => ["300"]
    case Net(MaxClients) => ["10000"]
    case _ => []
  }

  lemma ClientsValues(p: Parameter)
    ensures Values(Clients(), p) == InClients(p)
  {
    BlockValues(Clients(), p);
  }

  lemma MemoryValues(size: string, p: Parameter)
    ensures Values(Memory(size), p)
         == match p case Gen(MaxMemory) => [size] case Gen(MaxMemoryPolicy) => ["allkeys-lru"] case _ => []
  {
    BlockValues(Memory(size), p);
  }

  lemma AuthenticationValues(password: string, p: Parameter)
    ensures Values(Authentication(password), p)
         == match p case Gen(RequirePass) => [password] case Gen(MasterAuth) => [password] case _ => []
  {
    BlockValues(Authentication(password), p);
  }

  lemma MultiMasterValues(activeReplica: bool, p: Parameter)
    ensures Values(MultiMasterBlock(activeReplica), p)
         == match p
            case Gen(MultiMasterMode) => ["yes"]
            case Gen(ActiveReplica) => Given(activeReplica, "yes")
            case _ => []
  {
    BlockValues(MultiMasterBlock(activeReplica), p);
  }

  lemma AuthClientValues(spec: Spec, p: Parameter)
    requires TlsEnabled(spec)
    ensures Values(ClientCertificatesOf(spec), p)
         == if p == Secure(AuthClients) then Given(spec.config.value.tls.value.requireClientCerts, "yes") else []
    ensures Values([Blank], p) == []
  {
    BlockValues(ClientCertificatesOf(spec), p);
    BlockValues([Blank], p);
  }

  // ---- the optional parts, on the fields of the spec ----

  lemma MemoryPart(spec: Spec, p: Parameter)
    ensures Values(MemoryOf(spec), p)
         == if p == Gen(MaxMemory) || p == Gen(MaxMemoryPolicy) then Expected(spec, p) else []
  {
    if MemoryOf(spec) != [] { MemoryValues(spec.config.value.maxMemory, p); }
  }

  lemma PersistenceTables(spec: Spec, p: Parameter)
    requires spec.config.Some? && spec.config.value.persistence
    ensures InSavePoints(p) + InSnapshotFile(p) + InAppendOnlyFile(p) + InRewrites(p)
         == if p.Data? then ExpectedData(spec, p.data) else if p.Log? then ExpectedLog(spec, p.log) else []
  {
  }

  lemma PersistencePart(spec: Spec, p: Parameter)
    ensures Values(PersistenceOf(spec), p)
         == if p.Data? then ExpectedData(spec, p.data) else if p.Log? then ExpectedLog(spec, p.log) else []
  {
    if PersistenceOf(spec) != [] {
      SavePointsValues(p);
      SnapshotFileValues(p);
      AppendOnlyFileValues(p);
      RewritesValues(p);
      Values4(SavePoints(), SnapshotFile(), AppendOnlyFile(), Rewrites(), p);
      PersistenceTables(spec, p);
    }
  }

  lemma AuthenticationPart(spec: Spec, p: Parameter)
    ensures Values(AuthenticationOf(spec), p)
         == if p == Gen(RequirePass) || p == Gen(MasterAuth) then Expected(spec, p) else []
  {
    if AuthenticationOf(spec) != [] { AuthenticationValues(PasswordOf(spec), p); }
  }

  function InTls(p: Parameter): seq<string> {
    InTlsPorts(p) + InTlsFiles(p) + InTlsCiphers(p) + InTlsSuites(p) + InTlsSessions(p)
  }

  lemma TlsBlockValues(p: Parameter)
    ensures Values(TlsBlock(), p) == InTls(p)
  {
    TlsPortsValues(p);
    TlsFilesValues(p);
    TlsCiphersValues(p);
    TlsSuitesValues(p);
    TlsSessionsValues(p);
    Values4(TlsPorts(), TlsFiles(), TlsCiphers(), TlsSuites(), p);
    ValuesConcat(TlsPorts() + TlsFiles() + TlsCiphers() + TlsSuites(), TlsSessions(), p);
  }

  lemma TlsTables(spec: Spec, p: Parameter)
    requires Encrypts(spec)
    ensures InTls(p)
            + (if p == Secure(AuthClients) then Given(spec.config.value.tls.value.requireClientCerts, "yes") else [])
         == if p.Secure? then ExpectedTls(spec, p.secure) else if p == Net(Port) then ["0"] else []
  {
  }

  lemma TlsPart(spec: Spec, p: Parameter)
    ensures Values(TlsOf(spec), p)
         == if p.Secure? then ExpectedTls(spec, p.secure) else if p == Net(Port) then Given(Encrypts(spec), "0") else []
  {
    if TlsEnabled(spec) {
      TlsBlockValues(p);
      AuthClientValues(spec, p);
      ValuesConcat(TlsBlock(), ClientCertificatesOf(spec), p);
      ValuesConcat(TlsBlock() + ClientCertificatesOf(spec), [Blank], p);
      TlsTables(spec, p);
    }
  }

  lemma ClusterPart(p: Parameter)
    ensures Values(ClusterBlock(), p) == InClusterIdentity(p) + InClusterLimits(p)
  {
    ClusterIdentityValues(p);
    ClusterLimitsValues(p);
    ValuesConcat(ClusterIdentity(), ClusterLimits(), p);
  }

  lemma ClusterTables(spec: Spec, p: Parameter)
    requires spec.mode == ClusterMode
    ensures InClusterIdentity(p) + InClusterLimits(p) == if p.Shard? then ExpectedCluster(spec, p.shard) else []
  {
  }

  lemma ModePart(spec: Spec, p: Parameter)
    ensures Values(ModeOf(spec), p)
         == if p.Shard? then ExpectedCluster(spec, p.shard)
            else if p == Gen(MultiMasterMode) || p == Gen(ActiveReplica) then Expected(spec, p) else []
  {
    if spec.mode == MultiMaster { MultiMasterValues(spec.activeReplica, p); }
    if spec.mode == ClusterMode {
      ClusterPart(p);
      ClusterTables(spec, p);
    }
  }

  // ---- and all together ----

  lemma OpeningValues(p: Parameter)
    ensures Values(Title() + Network() + Process() + Logging(), p) == [] + InNetwork(p) + InProcess(p) + InLogging(p)
  {
    TitleValues(p);
    NetworkValues(p);
    ProcessValues(p);
    LoggingValues(p);
    Values4(Title(), Network(), Process(), Logging(), p);
  }

  lemma MiddleValues(spec: Spec, p: Parameter)
    ensures Values(MemoryOf(spec) + PersistenceOf(spec) + AuthenticationOf(spec), p)
         == if p.Data? || p.Log? || p == Gen(MaxMemory) || p == Gen(MaxMemoryPolicy)
               || p == Gen(RequirePass) || p == Gen(MasterAuth)
            then Expected(spec, p) else []
  {
    MemoryPart(spec, p);
    PersistencePart(spec, p);
    AuthenticationPart(spec, p);
    ValuesConcat(MemoryOf(spec), PersistenceOf(spec), p);
    ValuesConcat(MemoryOf(spec) + PersistenceOf(spec), AuthenticationOf(spec), p);
  }

  lemma ClosingValues(p: Parameter)
    ensures Values(Performance() + Security() + Clients(), p) == InPerformance(p) + InSecurity(p) + InClients(p)
  {
    PerformanceValues(p);
    SecurityValues(p);
    ClientsValues(p);
    ValuesConcat(Performance(), Security(), p);
    ValuesConcat(Performance() + Security(), Clients(), p);
  }

  /** The parts add up to the table. */
  lemma NetworkTables(spec: Spec, p: Parameter, tls: seq<string>)
    requires p.Net? && tls == if p == Net(Port) then Given(Encrypts(spec), "0") else []
    ensures InNetwork(p) + tls + (InPerformance(p) + InSecurity(p) + InClients(p)) == ExpectedNetwork(spec, p.net)
  {
  }

  lemma GeneralTables(spec: Spec, p: Parameter, middle: seq<string>, mode: seq<string>)
    requires p.Gen?
    requires middle == if p == Gen(MaxMemory) || p == Gen(MaxMemoryPolicy)
                          || p == Gen(RequirePass) || p == Gen(MasterAuth) then Expected(spec, p) else []
    requires mode == if p == Gen(MultiMasterMode) || p == Gen(ActiveReplica) then Expected(spec, p) else []
    ensures InProcess(p) + InLogging(p) + middle + mode == ExpectedGeneral(spec, p.gen)
  {
  }

  /** Which fixed blocks are silent about which section. */
  lemma SilentTables(p: Parameter)
    ensures !p.Net? ==> InNetwork(p) == [] && InPerformance(p) == [] && InSecurity(p) == [] && InClients(p) == []
    ensures !p.Gen? ==> InProcess(p) == [] && InLogging(p) == []
  {
  }

  lemma Tables(spec: Spec, p: Parameter, middle: seq<string>, tls: seq<string>, mode: seq<string>)
    requires middle == if p.Data? || p.Log? || p == Gen(MaxMemory) || p == Gen(MaxMemoryPolicy)
                          || p == Gen(RequirePass) || p == Gen(MasterAuth) then Expected(spec, p) else []
    requires tls == if p.Secure? then ExpectedTls(spec, p.secure)
                    else if p == Net(Port) then Given(Encrypts(spec), "0") else []
    requires mode == if p.Shard? then ExpectedCluster(spec, p.shard)
                     else if p == Gen(MultiMasterMode) || p == Gen(ActiveReplica) then Expected(spec, p) else []
    ensures [] + InNetwork(p) + InProcess(p) + InLogging(p) + middle + tls + mode
            + (InPerformance(p) + InSecurity(p) + InClients(p))
         == Expected(spec, p)
  {
    SilentTables(p);
    if p.Net? {
      NetworkTables(spec, p, tls);
      Squeeze(InNetwork(p), InProcess(p), InLogging(p), middle, tls, mode,
              InPerformance(p) + InSecurity(p) + InClients(p));
    } else {
      if p.Gen? { GeneralTables(spec, p, middle, mode); }
      Squeeze(InNetwork(p), InProcess(p), InLogging(p), middle, tls, mode, [] + [] + []);
    }
  }

  lemma Squeeze<T>(a: seq<T>, b: seq<T>, c: seq<T>, d: seq<T>, e: seq<T>, f: seq<T>, g: seq<T>)
    ensures b == [] && c == [] && d == [] && f == [] ==> [] + a + b + c + d + e + f + g == a + e + g
    ensures a == [] && e == [] && g == [] ==> [] + a + b + c + d + e + f + g == b + c + d + f
    ensures a == [] && b == [] && c == [] && g == [] ==> [] + a + b + c + d + e + f + g == d + e + f
  {
  }

  lemma Regrouped<T>(a: seq<T>, b: seq<T>, c: seq<T>, d: seq<T>, e: seq<T>, f: seq<T>, g: seq<T>, h: seq<T>, i: seq<T>)
    ensures a + b + c + d + e + f + g + h + i == (a + (b + c + d) + e + f) + (g + h + i)
  {
  }

  /** The operator sets each parameter to exactly the values of the table. */
  lemma OperatorValues(spec: Spec, p: Parameter)
    ensures Values(OperatorDirectives(spec), p) == Expected(spec, p)
  {
    var opening := Title() + Network() + Process() + Logging();
    var middle := MemoryOf(spec) + PersistenceOf(spec) + AuthenticationOf(spec);
    var closing := Performance() + Security() + Clients();
    OpeningValues(p);
    MiddleValues(spec, p);
    TlsPart(spec, p);
    ModePart(spec, p);
    ClosingValues(p);
    Regrouped(opening, MemoryOf(spec), PersistenceOf(spec), AuthenticationOf(spec), TlsOf(spec), ModeOf(spec),
              Performance(), Security(), Clients());
    Values4(opening, middle, TlsOf(spec), ModeOf(spec), p);
    ValuesConcat(opening + middle + TlsOf(spec) + ModeOf(spec), closing, p);
    Tables(spec, p, Values(middle, p), Values(TlsOf(spec), p), Values(ModeOf(spec), p));
  }

  lemma OperatorReads(spec: Spec, p: Parameter)
    ensures Readings(LinesOf(OperatorDirectives(spec)), Name(p)) == Expected(spec, p)
  {
    DirectivesRead(OperatorDirectives(spec), p);
    OperatorValues(spec, p);
  }
}
