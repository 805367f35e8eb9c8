/** The generated keydb.conf: the directives in the order the operator writes them, and the builder. */
module KeyDBConfig {
  import opened Types
  import opened Validation
  import opened Texts
  import opened Parameters

  /** A line of the file: a setting, a comment, or nothing. */
  datatype Directive = Set(parameter: Parameter, value: string) | Remark(text: LineText) | Blank

  function Line(d: Directive): string {
    match d
    case Set(p, value) => Name(p) + " " + value
    case Remark(text) => "# " + text
    case Blank => ""
  }

  predicate KeepsToLine(d: Directive) { d.Set? ==> OneLine(d.value) }

  /** A directive that the operator writes from its own words. */
  type Fixed = d: Directive | KeepsToLine(d) witness Blank

  function LinesOf(ds: seq<Directive>): (ls: seq<string>)
    ensures |ls| == |ds| && forall i :: 0 <= i < |ds| ==> ls[i] == Line(ds[i])
  {
    if ds == [] then [] else [Line(ds[0])] + LinesOf(ds[1..])
  }

  lemma {:induction false} LinesOfConcat(a: seq<Directive>, b: seq<Directive>)
    ensures LinesOf(a + b) == LinesOf(a) + LinesOf(b)
  {
    if a == [] {
      assert a + b == b;
    } else {
      assert (a + b)[0] == a[0] && (a + b)[1..] == a[1..] + b;
      LinesOfConcat(a[1..], b);
    }
  }

  // ---- the blocks ----

  function Origin(): LineText { "Generated by KeyDB Operator" }

  function Title(): seq<Fixed> { [Remark("KeyDB Configuration"), Remark(Origin()), Blank] }

  function Network(): seq<Fixed> {
    [Set(Net(Bind), "0.0.0.0"), Set(Net(Port), "6379"), Set(Net(TcpBacklog), "511"),
     Set(Net(Timeout), "0"), Set(Net(TcpKeepalive), "300"), Blank]
  }

  function Process(): seq<Fixed> {
    [Set(Gen(Daemonize), "no"), Set(Gen(Supervised), "no"), Set(Gen(Pidfile), "/var/run/keydb.pid")]
  }

  function Logging(): seq<Fixed> {
    [Set(Gen(Loglevel), "notice"), Set(Gen(Logfile), "\"\""), Blank, Set(Gen(Databases), "16"), Blank]
  }

  function Memory(size: string): seq<Directive> {
    [Set(Gen(MaxMemory), size), Set(Gen(MaxMemoryPolicy), "allkeys-lru"), Blank]
  }

  function SavePoints(): seq<Fixed> {
    [Remark("Persistence"), Set(Data(Save), "900 1"), Set(Data(Save), "300 10"), Set(Data(Save), "60 10000"),
     Set(Data(StopWritesOnError), "yes")]
  }

  function SnapshotFile(): seq<Fixed> {
    [Set(Data(RdbCompression), "yes"), Set(Data(RdbChecksum), "yes"), Set(Data(DbFilename), "dump.rdb"),
     Set(Data(Dir), "/data"), Blank]
  }

  function AppendOnlyFile(): seq<Fixed> {
    [Set(Log(AppendOnly), "yes"), Set(Log(AppendFilename), "\"appendonly.aof\""),
     Set(Log(AppendFsync), "everysec"), Set(Log(NoFsyncOnRewrite), "no")]
  }

  function Rewrites(): seq<Fixed> {
    [Set(Log(RewritePercentage), "100"), Set(Log(RewriteMinSize), "64mb"), Blank]
  }

  function Persistence(): seq<Fixed> { SavePoints() + SnapshotFile() + AppendOnlyFile() + Rewrites() }

  function Authentication(password: string): seq<Directive> {
    [Set(Gen(RequirePass), password), Set(Gen(MasterAuth), password), Blank]
  }

  /** Where the TLS secret is mounted. */
  function Mounted(file: LineText): LineText { "/etc/keydb/tls/" + file }

  /** Two alternatives in one quoted value. */
  function Either(first: LineText, second: LineText): LineText { "\"" + first + ":" + second + "\"" }

  function TlsPorts(): seq<Fixed> { [Remark("TLS Configuration"), Set(Net(Port), "0"), Set(Secure(TlsPort), "6380")] }

  function TlsFiles(): seq<Fixed> {
    [Set(Secure(CertFile), Mounted("tls.crt")), Set(Secure(KeyFile), Mounted("tls.key")),
     Set(Secure(CaCertFile), Mounted("ca.crt")), Set(Secure(DhParamsFile), Mounted("dh.pem"))]
  }

  function CipherList(): LineText { Either("ECDHE-RSA-AES256-GCM-SHA384", "ECDHE-RSA-AES128-GCM-SHA256") }

  function TlsCiphers(): seq<Fixed> {
    [Set(Secure(Protocols), "\"TLSv1.2 TLSv1.3\""), Set(Secure(Ciphers), CipherList())]
  }

  function SuiteList(): LineText { Either("TLS_AES_256_GCM_SHA384", "TLS_AES_128_GCM_SHA256") }

  function TlsSuites(): seq<Fixed> {
    [Set(Secure(CipherSuites), SuiteList()),
     Set(Secure(PreferServerCiphers), "yes")]
  }

  function TlsSessions(): seq<Fixed> {
    [Set(Secure(SessionCaching), "no"), Set(Secure(SessionCacheSize), "5000"), Set(Secure(SessionCacheTimeout), "60")]
  }

  function TlsBlock(): seq<Fixed> { TlsPorts() + TlsFiles() + TlsCiphers() + TlsSuites() + TlsSessions() }

  function MultiMasterBlock(activeReplica: bool): seq<Fixed> {
    [Remark("Multi-Master Configuration"), Set(Gen(MultiMasterMode), "yes")]
    + (if activeReplica then [Set(Gen(ActiveReplica), "yes")] else []) + [Blank]
  }

  function ClusterIdentity(): seq<Fixed> {
    [Remark("Cluster Configuration"), Set(Shard(Enabled), "yes"), Set(Shard(ConfigFile), "nodes.conf"),
     Set(Shard(NodeTimeout), "5000")]
  }

  function ClusterLimits(): seq<Fixed> {
    [Set(Shard(ReplicaValidityFactor), "10"), Set(Shard(MigrationBarrier), "1"),
     Set(Shard(RequireFullCoverage), "yes"), Set(Shard(AllowReadsWhenDown), "no"), Blank]
  }

  function ClusterBlock(): seq<Fixed> { ClusterIdentity() + ClusterLimits() }

  function Performance(): seq<Fixed> {
    [Remark("Performance"), Set(Net(TcpKeepalive), "300"), Set(Net(Hz), "10"), Blank]
  }

  /** The command is disabled. */
  function Disabled(command: LineText): Fixed { Set(Net(RenameCommand), command + " \"\"") }

  function Security(): seq<Fixed> {
    [Remark("Security"), Set(Net(ProtectedMode), "no"),
     Disabled("FLUSHDB"), Disabled("FLUSHALL"), Disabled("DEBUG"), Blank]
  }

  function Clients(): seq<Fixed> {
    [Remark("Client"), Set(Net(Timeout), "0"), Set(Net(TcpKeepalive), "300"), Set(Net(MaxClients), "10000"), Blank]
  }

  // ---- the whole file ----

  function MemoryOf(spec: Spec): seq<Directive> {
    if spec.config.Some? && spec.config.value.maxMemory != "" then Memory(spec.config.value.maxMemory) else []
  }

  function PersistenceOf(spec: Spec): seq<Fixed> {
    if spec.config.Some? && spec.config.value.persistence then Persistence() else []
  }

  function PasswordOf(spec: Spec): string {
    if spec.config.Some? && spec.config.value.requirePass.Some? then spec.config.value.requirePass.value.value else ""
  }

  function AuthenticationOf(spec: Spec): seq<Directive> {
    if PasswordOf(spec) != "" then Authentication(PasswordOf(spec)) else []
  }

  function ClientCertificatesOf(spec: Spec): seq<Fixed>
    requires TlsEnabled(spec)
  {
    if spec.config.value.tls.value.requireClientCerts then [Set(Secure(AuthClients), "yes")] else []
  }

  function TlsOf(spec: Spec): seq<Fixed> {
    if TlsEnabled(spec) then TlsBlock() + ClientCertificatesOf(spec) + [Blank] else []
  }

  function ModeOf(spec: Spec): seq<Fixed> {
    match spec.mode
    case MultiMaster => MultiMasterBlock(spec.activeReplica)
    case ClusterMode => ClusterBlock()
    case UnsupportedMode(_) => []
  }

  /** Everything the operator writes on its own account. */
  function OperatorDirectives(spec: Spec): seq<Directive> {
    Title() + Network() + Process() + Logging() + MemoryOf(spec) + PersistenceOf(spec) + AuthenticationOf(spec)
    + TlsOf(spec) + ModeOf(spec) + Performance() + Security() + Clients()
  }

  /** The entries of the custom map in the order a range over it visits them. */
  type Entries = seq<(string, string)>

  function EntryLines(entries: Entries): (ls: seq<string>)
    ensures |ls| == |entries| && forall i :: 0 <= i < |ls| ==> ls[i] == entries[i].0 + " " + entries[i].1
  {
    if entries == [] then []
    else
      var last := entries[|entries| - 1];
      EntryLines(entries[..|entries| - 1]) + [last.0 + " " + last.1]
  }

  function CustomOf(spec: Spec): Option<map<string, string>> {
    if spec.config.Some? then spec.config.value.custom else None
  }

  function CustomLines(spec: Spec, entries: Entries): seq<string> {
    if CustomOf(spec).Some? then ["# Custom Configuration"] + EntryLines(entries) + [""] else []
  }

  function ConfigText(spec: Spec, entries: Entries): string {
    RenderAll(LinesOf(OperatorDirectives(spec)) + CustomLines(spec, entries))
  }

  /** The entries are those of the map, each once. */
  ghost predicate Enumerates(entries: Entries, custom: map<string, string>) {
    && (forall i :: 0 <= i < |entries| ==> entries[i].0 in custom && custom[entries[i].0] == entries[i].1)
    && (forall key :: key in custom ==> (key, custom[key]) in entries)
    && (forall i, j :: 0 <= i < j < |entries| ==> entries[i].0 != entries[j].0)
  }

  lemma TextIsNotEmpty(spec: Spec, entries: Entries)
    ensures ConfigText(spec, entries) != ""
  {
    var ls := LinesOf(OperatorDirectives(spec)) + CustomLines(spec, entries);
    assert |OperatorDirectives(spec)| >= |Title()| > 0;
    assert |Render(ls[0])| > 0;
  }

  // ---- the builder ----

  /** strings.Builder, with the lines written so far kept beside the text. */
  class Builder {
    var text: string
    ghost var lines: seq<string>
    ghost var directives: seq<Directive>

    ghost predicate Valid()
      reads this
    {
      text == RenderAll(lines) && lines == LinesOf(directives)
    }

    constructor ()
      ensures Valid() && directives == []
    {
      text, lines, directives := "", [], [];
    }

    method Write(d: Directive)
      requires Valid()
      modifies this
      ensures Valid() && directives == old(directives) + [d]
    {
      RenderConcat(lines, [Line(d)]);
      LinesOfConcat(directives, [d]);
      assert [Line(d)][1..] == [] && [d][1..] == [];
      text := text + Render(Line(d));
      lines := lines + [Line(d)];
      directives := directives + [d];
    }

    method WriteBlock(ds: seq<Directive>)
      requires Valid()
      modifies this
      ensures Valid() && directives == old(directives) + ds
    {
      for i := 0 to |ds|
        invariant Valid() && directives == old(directives) + ds[..i]
      {
        Write(ds[i]);
      }
    }

    method WriteMemory(spec: Spec)
      requires Valid()
      modifies this
      ensures Valid() && directives == old(directives) + MemoryOf(spec)
    {
      if spec.config.Some? && spec.config.value.maxMemory != "" {
        WriteBlock(Memory(spec.config.value.maxMemory));
      }
    }

    method WritePersistence(spec: Spec)
      requires Valid()
      modifies this
      ensures Valid() && directives == old(directives) + PersistenceOf(spec)
    {
      if spec.config.Some? && spec.config.value.persistence {
        WriteBlock(Persistence());
      }
    }

    method WriteAuthentication(spec: Spec)
      requires Valid()
      modifies this
      ensures Valid() && directives == old(directives) + AuthenticationOf(spec)
    {
      if spec.config.Some? && spec.config.value.requirePass.Some? {
        if spec.config.value.requirePass.value.value != "" {
          WriteBlock(Authentication(spec.config.value.requirePass.value.value));
        }
      }
    }

    method WriteTls(spec: Spec)
      requires Valid()
      modifies this
      ensures Valid() && directives == old(directives) + TlsOf(spec)
    {
      if TlsEnabled(spec) {
        WriteBlock(TlsBlock());
        if spec.config.value.tls.value.requireClientCerts {
          Write(Set(Secure(AuthClients), "yes"));
        }
        assert directives == old(directives) + TlsBlock() + ClientCertificatesOf(spec);
        Write(Blank);
        Regroup(old(directives), TlsBlock(), ClientCertificatesOf(spec), [Blank]);
      }
    }

    method WriteMode(spec: Spec)
      requires Valid()
      modifies this
      ensures Valid() && directives == old(directives) + ModeOf(spec)
    {
      match spec.mode {
        case MultiMaster => WriteBlock(MultiMasterBlock(spec.activeReplica));
        case ClusterMode => WriteBlock(ClusterBlock());
        case UnsupportedMode(_) =>
      }
    }

    method WriteLine(l: string)
      requires text == RenderAll(lines)
      modifies `text, `lines
      ensures text == RenderAll(lines) && lines == old(lines) + [l]
    {
      RenderConcat(lines, [l]);
      assert [l][1..] == [];
      text := text + Render(l);
      lines := lines + [l];
    }

    method WriteEntries(entries: Entries)
      requires text == RenderAll(lines)
      modifies `text, `lines
      ensures text == RenderAll(lines) && lines == old(lines) + EntryLines(entries)
    {
      for i := 0 to |entries|
        invariant text == RenderAll(lines) && lines == old(lines) + EntryLines(entries[..i])
      {
        assert entries[..i + 1][..i] == entries[..i];
        WriteLine(entries[i].0 + " " + entries[i].1);
      }
      assert entries[..|entries|] == entries;
    }

    method WriteCustom(spec: Spec, entries: Entries)
      requires text == RenderAll(lines)
      modifies `text, `lines
      ensures text == RenderAll(lines) && lines == old(lines) + CustomLines(spec, entries)
    {
      if CustomOf(spec).Some? {
        WriteLine("# Custom Configuration");
        WriteEntries(entries);
        WriteLine("");
        Regroup(old(lines), ["# Custom Configuration"], EntryLines(entries), [""]);
      }
    }
  }

  lemma EmptyPlus<T>(s: seq<T>)
    ensures [] + s == s
  {
  }

  lemma Regroup<T>(a: seq<T>, b: seq<T>, c: seq<T>, d: seq<T>)
    ensures a + b + c + d == a + (b + c + d)
  {
  }

  /** generateKeyDBConfig; `entries` is the order in which this range over the custom map runs. */
  method GenerateKeyDBConfig(spec: Spec, entries: Entries) returns (text: string)
    ensures text == ConfigText(spec, entries)
  {
    var config := new Builder();
    config.WriteBlock(Title());
    EmptyPlus(Title());
    config.WriteBlock(Network());
    config.WriteBlock(Process());
    config.WriteBlock(Logging());
    config.WriteMemory(spec);
    config.WritePersistence(spec);
    config.WriteAuthentication(spec);
    config.WriteTls(spec);
    config.WriteMode(spec);
    config.WriteBlock(Performance());
    config.WriteBlock(Security());
    config.WriteBlock(Clients());
    config.WriteCustom(spec, entries);
    text := config.text;
  }
}
