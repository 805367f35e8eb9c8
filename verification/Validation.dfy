/** The validator, the defaults that run before it, and what an accepted spec guarantees. */
module Validation {
  import opened Types
  import opened Naming
  import opened UpgradeOrder

  datatype Problem =
    | UnknownMode | TooFewMasters | TooManyMasters
    | ShardingMissing | TooFewShards | TooManyShards | NegativeReplicasPerShard | TooManyReplicasPerShard
    | TooFewReplicas | EmptyImage | ImageFormat
    | MemoryFormat | PasswordMissing | PasswordTwice | SecretRefIncomplete | CustomParameter
    | StorageFormat | TlsSecretMissing | MonitoringPort
    | UnknownStrategy | NegativeMaxUnavailable | NegativeTimeout

  /** Go's error: None is nil. */
  type Verdict = Option<Problem>

  function Check(ok: bool, problem: Problem): Verdict { if ok then None else Some(problem) }

  function Then(first: Verdict, second: Verdict): Verdict { if first.Some? then first else second }

  // ---- setDefaults ----

  function Defaulted(spec: Spec): Spec {
    spec.(
      image := if spec.image == "" then "eqalpha/keydb:latest" else spec.image,
      replicas := if spec.replicas == 0 then 3 else spec.replicas,
      storage := if spec.storage.None? then Some(Storage("10Gi", "")) else spec.storage,
      service := if spec.service.None? then Some(ServiceSpec("ClusterIP", 6379)) else spec.service,
      config := if spec.config.None? then Some(Config("", true, None, None, None)) else spec.config)
  }

  // ---- text formats ----

  predicate IsDigit(c: char) { '0' <= c <= '9' }
  predicate IsWordChar(c: char) { IsDigit(c) || 'a' <= c <= 'z' || 'A' <= c <= 'Z' || c == '.' || c == '_' || c == '-' }

  predicate AllDigits(s: string) { s != [] && forall c :: c in s ==> IsDigit(c) }

  predicate MatchesImage(s: string) {
    exists k :: 0 < k < |s| - 1 && s[k] == ':'
                && (forall c :: c in s[..k] ==> IsWordChar(c) || c == '/')
                && (forall c :: c in s[k + 1..] ==> IsWordChar(c))
  }

  predicate MatchesSize(s: string, units: set<string>) {
    exists k :: 0 < k <= |s| && AllDigits(s[..k]) && s[k..] in units
  }

  const MEMORY_UNITS := {"kb", "mb", "gb", "KB", "MB", "GB"}
  const STORAGE_UNITS := {"Gi", "Mi", "Ki", "G", "M", "K", "Ti", "Pi", "Ei"}

  /** strconv.Atoi on a 64-bit platform. */
  function Atoi(s: string): Option<int> {
    var digits := if s != [] && (s[0] == '+' || s[0] == '-') then s[1..] else s;
    if !AllDigits(digits) then None
    else
      var v := if s[0] == '-' then -Value(digits) else Value(digits);
      if -0x8000_0000_0000_0000 <= v < 0x8000_0000_0000_0000 then Some(v) else None
  }

  // ---- letter case ----

  function LowerAscii(c: char): char {
    if 'A' <= c <= 'Z' then c - 'A' + 'a' else c
  }

  /** strings.ToLower, as far as a result can be an ASCII letter. */
  function LowerRune(c: char): char {
    if c == '\U{212A}' then 'k' else if c == '\U{130}' then 'i' else LowerAscii(c)
  }

  /** Unicode simple folding, as far as a result can be an ASCII letter: the Kelvin sign folds to k and the
      long s to s. */
  function FoldRune(c: char): char {
    if c == '\U{212A}' then 'k' else if c == '\U{17F}' then 's' else LowerAscii(c)
  }

  function Lower(s: string): string { seq(|s|, i requires 0 <= i < |s| => LowerAscii(s[i])) }
  function ToLower(s: string): string { seq(|s|, i requires 0 <= i < |s| => LowerRune(s[i])) }
  function Fold(s: string): string { seq(|s|, i requires 0 <= i < |s| => FoldRune(s[i])) }

  /** The parameters that only the operator may set. */
  const RESERVED: seq<string> := [
    "port", "bind", "daemonize", "pidfile", "logfile", "dir", "dbfilename",
    "cluster-enabled", "cluster-config-file", "multi-master", "active-replica"]

  /** validateCustomConfigParam. strings.EqualFold against an all-lower-case ASCII word is equality of the
      folded key with that word. */
  function ValidateCustomParameter(key: string, value: string): Verdict {
    if Fold(key) in RESERVED then Some(CustomParameter)
    else if ToLower(key) == "timeout" || ToLower(key) == "tcp-keepalive" then Check(Atoi(value).Some?, CustomParameter)
    else if ToLower(key) == "maxclients" then Check(Atoi(value).Some? && Atoi(value).value >= 1, CustomParameter)
    else None
  }

  // ---- the checks ----

  function ValidateMode(spec: Spec): Verdict {
    match spec.mode
    case MultiMaster => Then(Check(spec.replicas >= 1, TooFewMasters), Check(spec.replicas <= 10, TooManyMasters))
    case ClusterMode => ValidateClusterMode(spec)
    case UnsupportedMode(_) => Some(UnknownMode)
  }

  function ValidateClusterMode(spec: Spec): Verdict {
    match spec.cluster
    case None => Some(ShardingMissing)
    case Some(c) =>
      Then(Check(c.shards >= 3, TooFewShards),
      Then(Check(c.shards <= 1000, TooManyShards),
      Then(Check(c.replicasPerShard >= 0, NegativeReplicasPerShard),
           Check(c.replicasPerShard <= 5, TooManyReplicasPerShard))))
  }

  function ValidateImage(spec: Spec): Verdict {
    Then(Check(spec.image != "", EmptyImage), Check(MatchesImage(spec.image), ImageFormat))
  }

  function ValidatePassword(p: Password): Verdict {
    if p.value == "" && p.secretRef.None? then Some(PasswordMissing)
    else if p.value != "" && p.secretRef.Some? then Some(PasswordTwice)
    else Check(p.secretRef.Some? ==> p.secretRef.value.name != "" && p.secretRef.value.key != "", SecretRefIncomplete)
  }

  function ValidateConfig(spec: Spec): Verdict {
    match spec.config
    case None => None
    case Some(c) =>
      Then(Check(c.maxMemory != "" ==> MatchesSize(c.maxMemory, MEMORY_UNITS), MemoryFormat),
      Then(if c.requirePass.Some? then ValidatePassword(c.requirePass.value) else None,
           Check(c.custom.Some? ==> forall key :: key in c.custom.value ==>
                   ValidateCustomParameter(key, c.custom.value[key]).None?, CustomParameter)))
  }

  function ValidateStorage(spec: Spec): Verdict {
    Check(spec.storage.Some? && spec.storage.value.size != "" ==> MatchesSize(spec.storage.value.size, STORAGE_UNITS),
          StorageFormat)
  }

  function ValidateTls(spec: Spec): Verdict {
    Check(TlsEnabled(spec) ==> spec.config.value.tls.value.secretName != "", TlsSecretMissing)
  }

  predicate TlsEnabled(spec: Spec) {
    spec.config.Some? && spec.config.value.tls.Some? && spec.config.value.tls.value.enabled
  }

  function ValidateMonitoring(spec: Spec): Verdict {
    Check(spec.monitoring.Some? && spec.monitoring.value.port != 0 ==> 1024 <= spec.monitoring.value.port <= 65535,
          MonitoringPort)
  }

  function ValidateUpgrade(spec: Spec): Verdict {
    match spec.upgrade
    case None => None
    case Some(u) =>
      Then(Check(u.strategy in {"", "RollingUpdate", "Recreate"}, UnknownStrategy),
      Then(Check(u.maxUnavailable >= 0, NegativeMaxUnavailable),
           Check(u.validationTimeoutSeconds >= 0, NegativeTimeout)))
  }

  /** ValidateKeyDBCluster: the first check that fails decides. */
  function Validate(spec: Spec): Verdict {
    Then(ValidateMode(spec),
    Then(Check(spec.replicas >= 1, TooFewReplicas),
    Then(ValidateImage(spec),
    Then(ValidateConfig(spec),
    Then(ValidateStorage(spec),
    Then(ValidateTls(spec),
    Then(ValidateMonitoring(spec), ValidateUpgrade(spec))))))))
  }

  predicate Accepted(spec: Spec) { Validate(Defaulted(spec)).None? }

  // ---- what acceptance guarantees ----

  lemma AcceptedMode(spec: Spec)
    requires Accepted(spec)
    ensures ValidateMode(Defaulted(spec)).None?
  {
  }

  /** What the mode's own bounds imply for the number of pods. */
  predicate Sized(d: Spec, n: int) {
    if d.mode == MultiMaster then 1 <= n <= 10 && n == d.replicas
    else d.mode == ClusterMode && d.cluster.Some? && 3 <= n <= 6000
         && n == d.cluster.value.shards * (1 + d.cluster.value.replicasPerShard)
  }

  lemma ModeSizes(d: Spec)
    requires ValidateMode(d).None?
    ensures Countable(d) && Sized(d, CalculateReplicas(d))
  {
    if d.mode == ClusterMode {
      var c := d.cluster.value;
      Sixfold(c.shards, c.replicasPerShard);
      WrappedProduct(c.shards, c.replicasPerShard);
    }
  }

  /** Every accepted spec asks for 1..10 masters or 3..6000 pods of a cluster, computed by int32 arithmetic
      without wrapping; the upgrade visits each of those pods once and no ordinal exceeds 5999. */
  lemma AcceptedSizes(spec: Spec)
    requires Accepted(spec)
    ensures var d := Defaulted(spec); var n := CalculateReplicas(d);
            && Countable(d) && Sized(d, n) && IsPermutation(OrderOf(d), n)
            && forall x :: x in OrderOf(d) ==> 0 <= x <= 5999
  {
    AcceptedMode(spec);
    ModeSizes(Defaulted(spec));
    OrderCoversReplicas(Defaulted(spec));
  }

  lemma Sixfold(shards: nat, replicasPerShard: nat)
    requires replicasPerShard <= 5
    ensures shards <= shards * (1 + replicasPerShard) <= shards * 6
  {
    Distribute(5 - replicasPerShard, 1 + replicasPerShard, shards);
    Distribute(replicasPerShard, 1, shards);
    assert (5 - replicasPerShard) * shards >= 0 && replicasPerShard * shards >= 0;
  }
}
