/** Which specs the operator accepts, problem by problem and on the fields of the spec, and which problem it reports. */
module Acceptance {
  import opened Types
  import opened Naming
  import opened Validation

  // ---- text formats ----

  predicate ImageChar(c: char) {
    'a' <= c <= 'z' || 'A' <= c <= 'Z' || '0' <= c <= '9' || c == '.' || c == '_' || c == '-'
  }

  /** A name and a tag. */
  ghost predicate IsImage(s: string) {
    exists name: string, tag: string ::
      s == name + ":" + tag && name != "" && tag != "" && NameChars(name) && TagChars(tag)
  }

  /** A number and a unit. */
  ghost predicate IsSize(s: string, units: set<string>) {
    exists digits: string, unit: string ::
      s == digits + unit && digits != "" && (forall c :: c in digits ==> '0' <= c <= '9') && unit in units
  }

  predicate NameChars(s: string) { forall c :: c in s ==> ImageChar(c) || c == '/' }
  predicate TagChars(s: string) { forall c :: c in s ==> ImageChar(c) }

  lemma ImageCharsAreWordChars(c: char) ensures ImageChar(c) <==> IsWordChar(c) {}

  lemma ImageExactly(s: string)
    ensures MatchesImage(s) <==> IsImage(s)
  {
    if MatchesImage(s) { ImageFrom(s); }
    if IsImage(s) {
      var name: string, tag: string :|
        s == name + ":" + tag && name != "" && tag != "" && NameChars(name) && TagChars(tag);
      ImageAt(s, name, tag);
    }
  }

  lemma ImageFrom(s: string)
    requires MatchesImage(s)
    ensures IsImage(s)
  {
    var k :| 0 < k < |s| - 1 && s[k] == ':'
             && (forall c :: c in s[..k] ==> IsWordChar(c) || c == '/')
             && (forall c :: c in s[k + 1..] ==> IsWordChar(c));
    var name, tag := s[..k], s[k + 1..];
    forall c | c in name ensures ImageChar(c) || c == '/' { ImageCharsAreWordChars(c); }
    forall c | c in tag ensures ImageChar(c) { ImageCharsAreWordChars(c); }
    assert NameChars(name) && TagChars(tag);
    assert s == name + ":" + tag;
  }

  lemma ImageAt(s: string, name: string, tag: string)
    requires s == name + ":" + tag && name != "" && tag != "" && NameChars(name) && TagChars(tag)
    ensures MatchesImage(s)
  {
    var k := |name|;
    assert s[..k] == name && s[k] == ':' && s[k + 1..] == tag;
    forall c ensures ImageChar(c) <==> IsWordChar(c) { ImageCharsAreWordChars(c); }
    assert 0 < k < |s| - 1;
  }

  lemma SizeExactly(s: string, units: set<string>)
    ensures MatchesSize(s, units) <==> IsSize(s, units)
  {
    if MatchesSize(s, units) {
      var k :| 0 < k <= |s| && AllDigits(s[..k]) && s[k..] in units;
      assert s == s[..k] + s[k..];
    }
    if IsSize(s, units) {
      var digits: string, unit: string :|
        s == digits + unit && digits != "" && (forall c :: c in digits ==> '0' <= c <= '9') && unit in units;
      assert s[..|digits|] == digits && s[|digits|..] == unit;
    }
  }

  const RANGE := 0x8000_0000_0000_0000

  /** Printed numbers in the range of a 64-bit integer are read back, with their sign; beyond it nothing is read. */
  lemma AtoiReadsPrinted(n: nat)
    ensures Atoi(Decimal(n)) == if n < RANGE then Some(n as int) else None
  {
    DecimalRoundTrip(n);
    assert Decimal(n)[0] in Decimal(n);
  }

  lemma AtoiReadsNegative(n: nat)
    ensures Atoi("-" + Decimal(n)) == if n <= RANGE then Some(-(n as int)) else None
  {
    DecimalRoundTrip(n);
    assert ("-" + Decimal(n))[1..] == Decimal(n);
  }

  // ---- one condition for each problem ----

  predicate CustomAllowed(key: string, value: string) {
    && Fold(key) !in RESERVED
    && (ToLower(key) == "timeout" || ToLower(key) == "tcp-keepalive" ==> Atoi(value).Some?)
    && (ToLower(key) == "maxclients" ==> Atoi(value).Some? && Atoi(value).value >= 1)
  }

  function PasswordIn(d: Spec): Option<Password> { if d.config.Some? then d.config.value.requirePass else None }

  ghost predicate Holds(d: Spec, p: Problem) {
    match p
    case UnknownMode => d.mode == MultiMaster || d.mode == ClusterMode
    case TooFewMasters => d.mode == MultiMaster ==> 1 <= d.replicas
    case TooManyMasters => d.mode == MultiMaster ==> d.replicas <= 10
    case ShardingMissing => d.mode == ClusterMode ==> d.cluster.Some?
    case TooFewShards => d.mode == ClusterMode && d.cluster.Some? ==> 3 <= d.cluster.value.shards
    case TooManyShards => d.mode == ClusterMode && d.cluster.Some? ==> d.cluster.value.shards <= 1000
    case NegativeReplicasPerShard => d.mode == ClusterMode && d.cluster.Some? ==> 0 <= d.cluster.value.replicasPerShard
    case TooManyReplicasPerShard => d.mode == ClusterMode && d.cluster.Some? ==> d.cluster.value.replicasPerShard <= 5
    case TooFewReplicas => 1 <= d.replicas
    case EmptyImage => d.image != ""
    case ImageFormat => IsImage(d.image)
    case MemoryFormat =>
      d.config.Some? && d.config.value.maxMemory != "" ==>
        IsSize(d.config.value.maxMemory, {"kb", "mb", "gb", "KB", "MB", "GB"})
    case PasswordMissing =>
      PasswordIn(d).Some? ==> PasswordIn(d).value.value != "" || PasswordIn(d).value.secretRef.Some?
    case PasswordTwice => PasswordIn(d).Some? ==> PasswordIn(d).value.value == "" || PasswordIn(d).value.secretRef.None?
    case SecretRefIncomplete =>
      PasswordIn(d).Some? && PasswordIn(d).value.secretRef.Some? ==>
        PasswordIn(d).value.secretRef.value.name != "" && PasswordIn(d).value.secretRef.value.key != ""
    case CustomParameter =>
      d.config.Some? && d.config.value.custom.Some? ==>
        forall key :: key in d.config.value.custom.value ==> CustomAllowed(key, d.config.value.custom.value[key])
    case StorageFormat =>
      d.storage.Some? && d.storage.value.size != "" ==>
        IsSize(d.storage.value.size, {"Gi", "Mi", "Ki", "G", "M", "K", "Ti", "Pi", "Ei"})
    case TlsSecretMissing =>
      d.config.Some? && d.config.value.tls.Some? && d.config.value.tls.value.enabled ==>
        d.config.value.tls.value.secretName != ""
    case MonitoringPort =>
      d.monitoring.Some? && d.monitoring.value.port != 0 ==> 1024 <= d.monitoring.value.port <= 65535
    case UnknownStrategy =>
      d.upgrade.Some? ==> d.upgrade.value.strategy == "" || d.upgrade.value.strategy == "RollingUpdate"
                          || d.upgrade.value.strategy == "Recreate"
    case NegativeMaxUnavailable => d.upgrade.Some? ==> 0 <= d.upgrade.value.maxUnavailable
    case NegativeTimeout => d.upgrade.Some? ==> 0 <= d.upgrade.value.validationTimeoutSeconds
  }

  /** The order in which the problems are looked for. */
  function Rank(p: Problem): nat {
    match p
    case UnknownMode => 0
    case TooFewMasters => 1
    case TooManyMasters => 2
    case ShardingMissing => 3
    case TooFewShards => 4
    case TooManyShards => 5
    case NegativeReplicasPerShard => 6
    case TooManyReplicasPerShard => 7
    case TooFewReplicas => 8
    case EmptyImage => 9
    case ImageFormat => 10
    case MemoryFormat => 11
    case PasswordMissing => 12
    case PasswordTwice => 13
    case SecretRefIncomplete => 14
    case CustomParameter => 15
    case StorageFormat => 16
    case TlsSecretMissing => 17
    case MonitoringPort => 18
    case UnknownStrategy => 19
    case NegativeMaxUnavailable => 20
    case NegativeTimeout => 21
  }

  /** The verdict of checks for the problems from rank a to below rank b. */
  ghost predicate Decides(d: Spec, v: Verdict, a: nat, b: nat) {
    match v
    case None => forall p :: a <= Rank(p) < b ==> Holds(d, p)
    case Some(p) => a <= Rank(p) < b && !Holds(d, p) && forall q :: a <= Rank(q) < Rank(p) ==> Holds(d, q)
  }

  lemma DecidesThen(d: Spec, first: Verdict, second: Verdict, a: nat, b: nat, c: nat)
    requires a <= b <= c && Decides(d, first, a, b) && Decides(d, second, b, c)
    ensures Decides(d, Then(first, second), a, c)
  {
  }

  lemma ModeDecides(d: Spec)
    ensures Decides(d, ValidateMode(d), 0, 8)
  {
  }

  lemma ImageDecides(d: Spec)
    ensures Decides(d, Check(d.replicas >= 1, TooFewReplicas), 8, 9) && Decides(d, ValidateImage(d), 9, 11)
  {
    ImageExactly(d.image);
  }

  lemma ConfigDecides(d: Spec)
    ensures Decides(d, ValidateConfig(d), 11, 16)
  {
    if d.config.Some? {
      var c := d.config.value;
      var memory := Check(c.maxMemory != "" ==> MatchesSize(c.maxMemory, MEMORY_UNITS), MemoryFormat);
      var password := if c.requirePass.Some? then ValidatePassword(c.requirePass.value) else None;
      var custom := Check(c.custom.Some? ==> forall key :: key in c.custom.value ==>
                            ValidateCustomParameter(key, c.custom.value[key]).None?, CustomParameter);
      MemoryDecides(d);
      PasswordDecides(d);
      CustomMapDecides(d);
      DecidesThen(d, password, custom, 12, 15, 16);
      DecidesThen(d, memory, Then(password, custom), 11, 12, 16);
    }
  }

  lemma MemoryDecides(d: Spec)
    requires d.config.Some?
    ensures var size := d.config.value.maxMemory;
            Decides(d, Check(size != "" ==> MatchesSize(size, MEMORY_UNITS), MemoryFormat), 11, 12)
  {
    SizeExactly(d.config.value.maxMemory, MEMORY_UNITS);
  }

  lemma PasswordDecides(d: Spec)
    requires d.config.Some?
    ensures var password := d.config.value.requirePass;
            Decides(d, if password.Some? then ValidatePassword(password.value) else None, 12, 15)
  {
  }

  lemma CustomMapDecides(d: Spec)
    requires d.config.Some?
    ensures var custom := d.config.value.custom;
            Decides(d, Check(custom.Some? ==> forall key :: key in custom.value ==>
                               ValidateCustomParameter(key, custom.value[key]).None?, CustomParameter), 15, 16)
  {
    if d.config.value.custom.Some? {
      var custom := d.config.value.custom.value;
      forall key | key in custom
        ensures ValidateCustomParameter(key, custom[key]).None? <==> CustomAllowed(key, custom[key])
      {
        CustomDecides(key, custom[key]);
      }
    }
  }

  lemma CustomDecides(key: string, value: string)
    ensures ValidateCustomParameter(key, value).None? <==> CustomAllowed(key, value)
  {
    assert "timeout" != "tcp-keepalive" && |"maxclients"| == 10;
  }

  lemma StorageDecides(d: Spec)
    ensures Decides(d, ValidateStorage(d), 16, 17)
  {
    if d.storage.Some? { SizeExactly(d.storage.value.size, STORAGE_UNITS); }
  }

  lemma TlsAndMonitoringDecide(d: Spec)
    ensures Decides(d, ValidateTls(d), 17, 18) && Decides(d, ValidateMonitoring(d), 18, 19)
  {
  }

  lemma UpgradeDecides(d: Spec)
    ensures Decides(d, ValidateUpgrade(d), 19, 22)
  {
  }

  /** Validation reports the first problem, in this order, whose condition fails, and nothing exactly if all hold. */
  lemma FirstProblem(d: Spec)
    ensures Decides(d, Validate(d), 0, 22)
  {
    ModeDecides(d);
    ImageDecides(d);
    ConfigDecides(d);
    StorageDecides(d);
    TlsAndMonitoringDecide(d);
    UpgradeDecides(d);
    var upgrade := ValidateUpgrade(d);
    DecidesThen(d, ValidateMonitoring(d), upgrade, 18, 19, 22);
    var monitoring := Then(ValidateMonitoring(d), upgrade);
    DecidesThen(d, ValidateTls(d), monitoring, 17, 18, 22);
    var tls := Then(ValidateTls(d), monitoring);
    DecidesThen(d, ValidateStorage(d), tls, 16, 17, 22);
    var storage := Then(ValidateStorage(d), tls);
    DecidesThen(d, ValidateConfig(d), storage, 11, 16, 22);
    var config := Then(ValidateConfig(d), storage);
    DecidesThen(d, ValidateImage(d), config, 9, 11, 22);
    var image := Then(ValidateImage(d), config);
    DecidesThen(d, Check(d.replicas >= 1, TooFewReplicas), image, 8, 9, 22);
    var replicas := Then(Check(d.replicas >= 1, TooFewReplicas), image);
    DecidesThen(d, ValidateMode(d), replicas, 0, 8, 22);
  }

  /** A spec is accepted if and only if none of the problems is there after defaulting. */
  lemma AcceptedExactly(spec: Spec)
    ensures Accepted(spec) <==> forall p :: Holds(Defaulted(spec), p)
  {
    FirstProblem(Defaulted(spec));
  }

  // ---- defaults ----

  /** Defaulting keeps what is given, fills in five fields and no other, and has nothing left to do the second time. */
  lemma DefaultsAre(spec: Spec)
    ensures var d := Defaulted(spec);
            && (if spec.image == "" then d.image == "eqalpha/keydb:latest" else d.image == spec.image)
            && (if spec.replicas == 0 then d.replicas == 3 else d.replicas == spec.replicas)
            && (if spec.storage.None? then d.storage == Some(Storage("10Gi", "")) else d.storage == spec.storage)
            && (if spec.service.None? then d.service == Some(ServiceSpec("ClusterIP", 6379))
                else d.service == spec.service)
            && (if spec.config.None? then d.config == Some(Config("", true, None, None, None))
                else d.config == spec.config)
            && d.mode == spec.mode && d.activeReplica == spec.activeReplica && d.cluster == spec.cluster
            && d.resources == spec.resources && d.monitoring == spec.monitoring && d.upgrade == spec.upgrade
            && d.budget == spec.budget && d.liveness == spec.liveness && d.readiness == spec.readiness
            && Defaulted(d) == d
  {
  }

  const EMPTY := Spec(MultiMaster, 0, "", false, None, None, None, None, None, None, None, None, None, None)

  lemma DefaultName() ensures NameChars("eqalpha/keydb") {}
  lemma DefaultTag() ensures TagChars("latest") {}

  lemma DefaultImage()
    ensures IsImage("eqalpha/keydb:latest")
  {
    var name, tag := "eqalpha/keydb", "latest";
    DefaultName();
    DefaultTag();
    assert "eqalpha/keydb:latest" == name + ":" + tag;
  }

  lemma DefaultSize()
    ensures IsSize("10Gi", {"Gi", "Mi", "Ki", "G", "M", "K", "Ti", "Pi", "Ei"})
  {
    var digits, unit := "10", "Gi";
    assert "10Gi" == digits + unit;
  }

  /** Of a spec that says nothing but the mode and a number of masters from 1 to 10, or none, the defaults make an
      accepted one. */
  lemma BareSpecIsAccepted(replicas: int32)
    requires 0 <= replicas <= 10
    ensures Accepted(EMPTY.(replicas := replicas))
  {
    var spec := EMPTY.(replicas := replicas);
    DefaultImage();
    DefaultSize();
    AcceptedExactly(spec);
  }
}
