/** Custom parameters beside the operator's own: neither side loses a value, and the order in which Go walks
    the map matters exactly when two keys differ only in letter case. */
module CustomConfig {
  import opened Types
  import opened Validation
  import opened Texts
  import opened Parameters
  import opened KeyDBConfig
  import opened ConfigReading

  /** The free text in the spec keeps to its line. */
  predicate Readable(spec: Spec) {
    && OneLine(PasswordOf(spec))
    && (CustomOf(spec).Some? ==>
          forall key :: key in CustomOf(spec).value ==> Token(key) && OneLine(CustomOf(spec).value[key]))
  }

  ghost predicate Walks(spec: Spec, entries: Entries) {
    CustomOf(spec).Some? ==> Enumerates(entries, CustomOf(spec).value)
  }

  // ---- every line of the file is one ----

  lemma SizeIsOneLine(s: string)
    requires MatchesSize(s, MEMORY_UNITS)
    ensures OneLine(s)
  {
    var k :| 0 < k <= |s| && AllDigits(s[..k]) && s[k..] in MEMORY_UNITS;
    assert s == s[..k] + s[k..];
    assert '\n' !in s[k..];
  }

  lemma LineKeeps(d: Directive)
    requires KeepsToLine(d)
    ensures OneLine(Line(d))
  {
    if d.Set? {
      NamePlain(d.parameter);
      PlainIsLower(Name(d.parameter));
    }
  }

  predicate AllKeep(ds: seq<Directive>) { forall d :: d in ds ==> KeepsToLine(d) }

  lemma LinesKeep(ds: seq<Directive>)
    requires AllKeep(ds)
    ensures AllOneLine(LinesOf(ds))
  {
    forall l | l in LinesOf(ds) ensures OneLine(l) {
      var i :| 0 <= i < |ds| && LinesOf(ds)[i] == l;
      LineKeeps(ds[i]);
    }
  }

  lemma AreKept(ds: seq<Fixed>)
    ensures AllKeep(ds)
  {
  }

  lemma MemoryKept(spec: Spec)
    requires Validate(spec).None?
    ensures AllKeep(MemoryOf(spec))
  {
    if MemoryOf(spec) != [] { SizeIsOneLine(spec.config.value.maxMemory); }
  }

  lemma AuthenticationKept(spec: Spec)
    requires OneLine(PasswordOf(spec))
    ensures AllKeep(AuthenticationOf(spec))
  {
  }

  lemma KeepConcat4(a: seq<Directive>, b: seq<Directive>, c: seq<Directive>, d: seq<Directive>)
    requires AllKeep(a) && AllKeep(b) && AllKeep(c) && AllKeep(d)
    ensures AllKeep(a + b + c + d)
  {
  }

  lemma KeepConcat9(a: seq<Directive>, b: seq<Directive>, c: seq<Directive>, d: seq<Directive>, e: seq<Directive>,
                    f: seq<Directive>, g: seq<Directive>, h: seq<Directive>, i: seq<Directive>)
    requires AllKeep(a) && AllKeep(b) && AllKeep(c) && AllKeep(d) && AllKeep(e)
    requires AllKeep(f) && AllKeep(g) && AllKeep(h) && AllKeep(i)
    ensures AllKeep(a + b + c + d + e + f + g + h + i)
  {
    KeepConcat4(a, b, c, d);
    KeepConcat4(a + b + c + d, e, f, g);
  }

  lemma OperatorKept(spec: Spec)
    requires Validate(spec).None? && OneLine(PasswordOf(spec))
    ensures AllKeep(OperatorDirectives(spec))
  {
    MemoryKept(spec);
    AuthenticationKept(spec);
    AreKept(Title() + Network() + Process() + Logging());
    AreKept(PersistenceOf(spec));
    AreKept(TlsOf(spec));
    AreKept(ModeOf(spec));
    AreKept(Performance());
    AreKept(Security());
    AreKept(Clients());
    KeepConcat9(Title() + Network() + Process() + Logging(), MemoryOf(spec),
                PersistenceOf(spec), AuthenticationOf(spec), TlsOf(spec), ModeOf(spec),
                Performance(), Security(), Clients());
  }

  lemma OneLineConcat(a: seq<string>, b: seq<string>)
    requires AllOneLine(a) && AllOneLine(b)
    ensures AllOneLine(a + b)
  {
  }

  lemma CustomOneLine(spec: Spec, entries: Entries)
    requires Readable(spec) && Walks(spec, entries)
    ensures AllOneLine(CustomLines(spec, entries))
  {
    if CustomOf(spec).Some? {
      forall l | l in EntryLines(entries) ensures OneLine(l) {
        var i :| 0 <= i < |entries| && EntryLines(entries)[i] == l;
        TokenFolds(entries[i].0);
      }
      OneLineConcat(["# Custom Configuration"], EntryLines(entries));
      OneLineConcat(["# Custom Configuration"] + EntryLines(entries), [""]);
    }
  }

  lemma TextLines(spec: Spec, entries: Entries)
    requires Validate(spec).None? && Readable(spec) && Walks(spec, entries)
    ensures Lines(ConfigText(spec, entries)) == LinesOf(OperatorDirectives(spec)) + CustomLines(spec, entries)
  {
    var operator := LinesOf(OperatorDirectives(spec));
    OperatorKept(spec);
    LinesKeep(OperatorDirectives(spec));
    CustomOneLine(spec, entries);
    OneLineConcat(operator, CustomLines(spec, entries));
    LinesRender(operator + CustomLines(spec, entries));
  }

  // ---- reading both parts ----

  /** All values that the file gives the parameter, first to last. */
  function InFile(spec: Spec, entries: Entries, key: string): seq<string> {
    Readings(Lines(ConfigText(spec, entries)), key)
  }

  function InEntries(spec: Spec, entries: Entries, key: string): seq<string> {
    if CustomOf(spec).Some? then Readings(EntryLines(entries), key) else []
  }

  lemma ReadsLines(spec: Spec, entries: Entries, key: string)
    requires Validate(spec).None? && Readable(spec) && Walks(spec, entries) && Token(key)
    ensures InFile(spec, entries, key)
         == Readings(LinesOf(OperatorDirectives(spec)), key) + InEntries(spec, entries, key)
  {
    TextLines(spec, entries);
    ReadingsConcat(LinesOf(OperatorDirectives(spec)), CustomLines(spec, entries), key);
    CustomReads(spec, entries, key);
  }

  lemma CustomReads(spec: Spec, entries: Entries, key: string)
    requires Token(key)
    ensures Readings(CustomLines(spec, entries), key) == InEntries(spec, entries, key)
  {
    if CustomOf(spec).Some? {
      var first := "# Custom Configuration";
      KeyOfLine(first, key, 0);
      ReadingsOne(first, key);
      ReadingsOne("", key);
      ReadingsConcat([first], EntryLines(entries), key);
      ReadingsConcat([first] + EntryLines(entries), [""], key);
    }
  }

  /** The value of the last entry for the key. */
  function Last(entries: Entries, key: string): Option<string> { LastOf(Readings(EntryLines(entries), key)) }

  lemma LastEntryStep(entries: Entries, key: string)
    requires entries != [] && ' ' !in key && Token(entries[|entries| - 1].0)
    ensures Last(entries, key)
         == if Lower(entries[|entries| - 1].0) == key then Some(entries[|entries| - 1].1)
            else Last(entries[..|entries| - 1], key)
  {
    var last := |entries| - 1;
    var line := entries[last].0 + " " + entries[last].1;
    EntrySets(entries[last].0, entries[last].1, key);
    ReadingsConcat(EntryLines(entries[..last]), [line], key);
    ReadingsOne(line, key);
  }

  /** The entries say something about the key exactly if one of the map's keys is it, in some letter case; and
      then it is the value of the last such entry. */
  lemma {:induction false} LastEntry(entries: Entries, key: string)
    requires ' ' !in key && forall i :: 0 <= i < |entries| ==> Token(entries[i].0)
    ensures if exists i :: 0 <= i < |entries| && Lower(entries[i].0) == key
            then exists i :: 0 <= i < |entries| && Lower(entries[i].0) == key
                             && Last(entries, key) == Some(entries[i].1)
            else Last(entries, key) == None
    ensures entries != [] && Lower(entries[|entries| - 1].0) == key ==>
              Last(entries, key) == Some(entries[|entries| - 1].1)
  {
    if entries != [] {
      var init, last := entries[..|entries| - 1], |entries| - 1;
      LastEntry(init, key);
      LastEntryStep(entries, key);
      if Lower(entries[last].0) == key {
      } else if i :| 0 <= i < |init| && Lower(init[i].0) == key {
        assert entries[i] == init[i];
        var j :| 0 <= j < |init| && Lower(init[j].0) == key && Last(init, key) == Some(init[j].1);
        assert entries[j] == init[j];
      } else {
        assert forall i :: 0 <= i < |init| ==> entries[i] == init[i];
      }
    }
  }

  /** A custom key is the parameter in some letter case. */
  predicate Overridden(spec: Spec, p: Parameter) {
    CustomOf(spec).Some? && exists key :: key in CustomOf(spec).value && Lower(key) == Name(p)
  }

  /** Whatever else the custom map holds and in whatever order it is written, a parameter that it does not name has
      exactly the values of the table. */
  lemma OperatorValuesAreRead(spec: Spec, entries: Entries, p: Parameter)
    requires Validate(spec).None? && Readable(spec) && Walks(spec, entries) && !Overridden(spec, p)
    ensures InFile(spec, entries, Name(p)) == Expected(spec, p)
    ensures Read(ConfigText(spec, entries), Name(p)) == LastOf(Expected(spec, p))
  {
    NameIsToken(p);
    TokenFolds(Name(p));
    ReadsLines(spec, entries, Name(p));
    OperatorReads(spec, p);
    if CustomOf(spec).Some? {
      LastEntry(entries, Name(p));
      assert forall i :: 0 <= i < |entries| ==> entries[i].0 in CustomOf(spec).value;
    }
  }

  lemma AcceptedKeysAreFree(spec: Spec, key: string)
    requires Validate(spec).None? && Readable(spec) && CustomOf(spec).Some? && key in CustomOf(spec).value
    ensures Lower(key) !in RESERVED
  {
    TokenFolds(key);
    assert ValidateCustomParameter(key, spec.config.value.custom.value[key]).None?;
  }

  /** Reserved parameters keep the operator's values, whatever the custom map holds and in whatever order it is
      written. */
  lemma ReservedKeepOperatorValue(spec: Spec, entries: Entries, p: Parameter)
    requires Validate(spec).None? && Readable(spec) && Walks(spec, entries) && Name(p) in RESERVED
    ensures InFile(spec, entries, Name(p)) == Expected(spec, p)
    ensures Read(ConfigText(spec, entries), Name(p)) == LastOf(Expected(spec, p))
  {
    if Overridden(spec, p) {
      var key :| key in CustomOf(spec).value && Lower(key) == Name(p);
      AcceptedKeysAreFree(spec, key);
    } else {
      OperatorValuesAreRead(spec, entries, p);
    }
  }

  /** The reserved parameters are these eleven. */
  predicate Reserved(p: Parameter) {
    match p
    case Net(k) => k == Port || k == Bind
    case Gen(k) =>
      k == Daemonize || k == Pidfile || k == Logfile || k == MultiMasterMode || k == ActiveReplica
    case Data(k) => k == Dir || k == DbFilename
    case Log(_) => false
    case Shard(k) => k == Enabled || k == ConfigFile
    case Secure(_) => false
  }

  lemma ReservedNames(p: Parameter)
    requires Reserved(p)
    ensures Name(p) in RESERVED
  {
    assert RESERVED[0] == "port" && RESERVED[1] == "bind" && RESERVED[2] == "daemonize" && RESERVED[3] == "pidfile";
    assert RESERVED[4] == "logfile" && RESERVED[5] == "dir" && RESERVED[6] == "dbfilename";
    assert RESERVED[7] == "cluster-enabled" && RESERVED[8] == "cluster-config-file";
    assert RESERVED[9] == "multi-master" && RESERVED[10] == "active-replica";
  }

  // ---- what this means for a few parameters ----

  /** The plain port is open exactly without TLS. */
  lemma PortFollowsTls(spec: Spec, entries: Entries)
    requires Validate(spec).None? && Readable(spec) && Walks(spec, entries)
    ensures var encrypted := spec.config.Some? && spec.config.value.tls.Some? && spec.config.value.tls.value.enabled;
            Read(ConfigText(spec, entries), "port") == Some(if encrypted then "0" else "6379")
  {
    ReservedNames(Net(Port));
    ReservedKeepOperatorValue(spec, entries, Net(Port));
  }

  lemma ReadsAs(spec: Spec, entries: Entries, p: Parameter, key: string, value: Option<string>)
    requires Validate(spec).None? && Readable(spec) && Walks(spec, entries) && !Overridden(spec, p)
    requires key == Name(p) && value == LastOf(Expected(spec, p))
    ensures Read(ConfigText(spec, entries), key) == value
  {
    OperatorValuesAreRead(spec, entries, p);
  }

  lemma LastPassword(spec: Spec)
    ensures LastOf(ExpectedPassword(spec)) == if PasswordGiven(spec) != "" then Some(PasswordGiven(spec)) else None
  {
  }

  function PasswordGiven(spec: Spec): string {
    if spec.config.Some? && spec.config.value.requirePass.Some? then spec.config.value.requirePass.value.value else ""
  }

  /** Clients must give the password exactly if there is one in the spec. */
  lemma PasswordIsRequired(spec: Spec, entries: Entries)
    requires Validate(spec).None? && Readable(spec) && Walks(spec, entries) && !Overridden(spec, Gen(RequirePass))
    ensures Read(ConfigText(spec, entries), "requirepass")
         == if PasswordGiven(spec) != "" then Some(PasswordGiven(spec)) else None
  {
    LastPassword(spec);
    ReadsAs(spec, entries, Gen(RequirePass), "requirepass", LastOf(ExpectedPassword(spec)));
  }

  /** And a replica gives it to its master. */
  lemma PasswordIsPresented(spec: Spec, entries: Entries)
    requires Validate(spec).None? && Readable(spec) && Walks(spec, entries) && !Overridden(spec, Gen(MasterAuth))
    ensures Read(ConfigText(spec, entries), "masterauth")
         == if PasswordGiven(spec) != "" then Some(PasswordGiven(spec)) else None
  {
    LastPassword(spec);
    ReadsAs(spec, entries, Gen(MasterAuth), "masterauth", LastOf(ExpectedPassword(spec)));
  }

  /** Data is appended to the log exactly if the spec asks for persistence. */
  lemma DataIsLogged(spec: Spec, entries: Entries)
    requires Validate(spec).None? && Readable(spec) && Walks(spec, entries) && !Overridden(spec, Log(AppendOnly))
    ensures Read(ConfigText(spec, entries), "appendonly")
         == if spec.config.Some? && spec.config.value.persistence then Some("yes") else None
  {
    var values := Given(spec.config.Some? && spec.config.value.persistence, "yes");
    ReadsAs(spec, entries, Log(AppendOnly), "appendonly", LastOf(values));
  }

  /** No two keys of the map that differ only in letter case disagree about the value. */
  predicate CaseConsistent(custom: map<string, string>) {
    forall a, b :: a in custom && b in custom && Lower(a) == Lower(b) ==> custom[a] == custom[b]
  }

  /** Every custom parameter is read with the user's value, also where the operator writes a default. */
  lemma CustomIsRead(spec: Spec, entries: Entries, key: string)
    requires Validate(spec).None? && Readable(spec) && Walks(spec, entries)
    requires CustomOf(spec).Some? && CaseConsistent(CustomOf(spec).value) && key in CustomOf(spec).value
    ensures Read(ConfigText(spec, entries), Lower(key)) == Some(CustomOf(spec).value[key])
  {
    TokenFolds(key);
    ReadsLines(spec, entries, Lower(key));
    LastEntry(entries, Lower(key));
    assert (key, CustomOf(spec).value[key]) in entries;
    var i :| 0 <= i < |entries| && entries[i] == (key, CustomOf(spec).value[key]);
    assert Lower(entries[i].0) == Lower(key);
  }

  // ---- the order of the map ----

  ghost predicate OrderMatters(spec: Spec) {
    exists e1, e2, key :: Walks(spec, e1) && Walks(spec, e2) && Token(key)
                          && Read(ConfigText(spec, e1), key) != Read(ConfigText(spec, e2), key)
  }

  /** Some order of the entries. */
  lemma {:induction false} SomeOrder(custom: map<string, string>) returns (entries: Entries)
    ensures Enumerates(entries, custom)
    decreases |custom|
  {
    if custom == map[] {
      entries := [];
    } else {
      var key :| key in custom;
      entries := EndingWith(custom, key);
    }
  }

  /** Some order that ends with the given key. */
  lemma {:induction false} EndingWith(custom: map<string, string>, key: string) returns (entries: Entries)
    requires key in custom
    ensures Enumerates(entries, custom) && entries != [] && entries[|entries| - 1] == (key, custom[key])
    decreases |custom|, 0
  {
    var rest := custom - {key};
    assert rest.Keys == custom.Keys - {key};
    var before := SomeOrder(rest);
    entries := before + [(key, custom[key])];
    forall k | k in custom ensures (k, custom[k]) in entries {
      if k != key {
        assert (k, rest[k]) in before;
      } else {
        assert entries[|before|] == (key, custom[key]);
      }
    }
  }

  lemma ReadsLastEntry(spec: Spec, entries: Entries)
    requires Validate(spec).None? && Readable(spec) && Walks(spec, entries) && CustomOf(spec).Some? && entries != []
    ensures Read(ConfigText(spec, entries), Lower(entries[|entries| - 1].0)) == Some(entries[|entries| - 1].1)
  {
    TokenFolds(entries[|entries| - 1].0);
    ReadsLines(spec, entries, Lower(entries[|entries| - 1].0));
    LastEntry(entries, Lower(entries[|entries| - 1].0));
  }

  /** Two walks over the map can give a server different settings if and only if two of its keys differ only in
      letter case and disagree. */
  lemma OrderMattersExactly(spec: Spec)
    requires Validate(spec).None? && Readable(spec)
    ensures OrderMatters(spec) <==> CustomOf(spec).Some? && !CaseConsistent(CustomOf(spec).value)
  {
    if CustomOf(spec).Some? && !CaseConsistent(CustomOf(spec).value) {
      ConflictShows(spec, CustomOf(spec).value);
    } else {
      forall e1, e2, key | Walks(spec, e1) && Walks(spec, e2) && Token(key)
        ensures Read(ConfigText(spec, e1), key) == Read(ConfigText(spec, e2), key)
      {
        SameReading(spec, e1, e2, key);
      }
    }
  }

  lemma ConflictShows(spec: Spec, custom: map<string, string>)
    requires Validate(spec).None? && Readable(spec) && CustomOf(spec) == Some(custom) && !CaseConsistent(custom)
    ensures OrderMatters(spec)
  {
    var a, b :| a in custom && b in custom && Lower(a) == Lower(b) && custom[a] != custom[b];
    var e1 := EndingWith(custom, a);
    var e2 := EndingWith(custom, b);
    Disagree(spec, e1, e2);
  }

  lemma Disagree(spec: Spec, e1: Entries, e2: Entries)
    requires Validate(spec).None? && Readable(spec) && Walks(spec, e1) && Walks(spec, e2) && CustomOf(spec).Some?
    requires e1 != [] && e2 != []
    requires Lower(e1[|e1| - 1].0) == Lower(e2[|e2| - 1].0) && e1[|e1| - 1].1 != e2[|e2| - 1].1
    ensures OrderMatters(spec)
  {
    ReadsLastEntry(spec, e1);
    ReadsLastEntry(spec, e2);
    TokenFolds(e1[|e1| - 1].0);
  }

  lemma SameReading(spec: Spec, e1: Entries, e2: Entries, key: string)
    requires Validate(spec).None? && Readable(spec) && Walks(spec, e1) && Walks(spec, e2) && Token(key)
    requires CustomOf(spec).Some? ==> CaseConsistent(CustomOf(spec).value)
    ensures Read(ConfigText(spec, e1), key) == Read(ConfigText(spec, e2), key)
  {
    ReadsLines(spec, e1, key);
    ReadsLines(spec, e2, key);
    if CustomOf(spec).Some? {
      if k :| k in CustomOf(spec).value && Lower(k) == key {
        CustomIsRead(spec, e1, k);
        CustomIsRead(spec, e2, k);
      } else {
        LastEntry(e1, key);
        LastEntry(e2, key);
        assert forall i :: 0 <= i < |e1| ==> e1[i].0 in CustomOf(spec).value;
        assert forall i :: 0 <= i < |e2| ==> e2[i].0 in CustomOf(spec).value;
      }
    }
  }

  // ---- the text itself ----

  /** The custom map has no two entries. */
  predicate AtMostOneKey(spec: Spec) { CustomOf(spec).Some? ==> |CustomOf(spec).value| <= 1 }

  ghost predicate OneText(spec: Spec) {
    forall e1, e2 :: Walks(spec, e1) && Walks(spec, e2) ==> ConfigText(spec, e1) == ConfigText(spec, e2)
  }

  lemma KeysAreEqual(custom: map<string, string>, a: string, b: string)
    requires |custom| <= 1 && a in custom && b in custom
    ensures a == b
  {
    if a != b {
      assert {a, b} <= custom.Keys && |{a, b}| == 2;
      CardinalityGrows({a, b}, custom.Keys);
    }
  }

  lemma {:induction false} CardinalityGrows(small: set<string>, large: set<string>)
    requires small <= large
    ensures |small| <= |large|
  {
    if x :| x in small {
      CardinalityGrows(small - {x}, large - {x});
    }
  }

  /** A map without two entries is walked in one way. */
  lemma OneWalk(custom: map<string, string>, e1: Entries, e2: Entries)
    requires |custom| <= 1 && Enumerates(e1, custom) && Enumerates(e2, custom)
    ensures e1 == e2
  {
    forall e: Entries | Enumerates(e, custom) ensures |e| <= 1 {
      if |e| > 1 { KeysAreEqual(custom, e[0].0, e[1].0); }
    }
    if e1 != [] { assert (e1[0].0, custom[e1[0].0]) in e2; }
    if e2 != [] { assert (e2[0].0, custom[e2[0].0]) in e1; }
  }

  lemma OneKeyOneText(spec: Spec, e1: Entries, e2: Entries)
    requires AtMostOneKey(spec) && Walks(spec, e1) && Walks(spec, e2)
    ensures ConfigText(spec, e1) == ConfigText(spec, e2)
  {
    if CustomOf(spec).Some? { OneWalk(CustomOf(spec).value, e1, e2); }
  }

  /** Entries with different keys are different lines. */
  lemma KeyOfEntry(k1: string, v1: string, k2: string, v2: string)
    requires Token(k1) && Token(k2) && k1 + " " + v1 == k2 + " " + v2
    ensures k1 == k2
  {
    FirstBlank(k1, v1);
    FirstBlank(k2, v2);
    var line := k1 + " " + v1;
    assert line[..|k1|] == k1 && line[..|k2|] == k2;
  }

  lemma FirstBlank(k: string, value: string)
    requires Token(k)
    ensures var line := k + " " + value; line[|k|] == ' ' && forall n :: 0 <= n < |k| ==> line[n] != ' '
  {
    TokenFolds(k);
    assert forall n :: 0 <= n < |k| ==> k[n] in k;
  }

  /** The line before the closing blank one is the last entry. */
  lemma LastEntryLine(before: seq<string>, title: string, entries: Entries)
    requires entries != []
    ensures var ls := before + ([title] + EntryLines(entries) + [""]);
            |ls| >= 2 && ls[|ls| - 2] == entries[|entries| - 1].0 + " " + entries[|entries| - 1].1
  {
  }

  lemma SameTextSameLastKey(spec: Spec, e1: Entries, e2: Entries)
    requires Validate(spec).None? && Readable(spec) && Walks(spec, e1) && Walks(spec, e2)
    requires CustomOf(spec).Some? && e1 != [] && e2 != [] && ConfigText(spec, e1) == ConfigText(spec, e2)
    ensures e1[|e1| - 1].0 == e2[|e2| - 1].0
  {
    TextLines(spec, e1);
    TextLines(spec, e2);
    LastEntryLine(LinesOf(OperatorDirectives(spec)), "# Custom Configuration", e1);
    LastEntryLine(LinesOf(OperatorDirectives(spec)), "# Custom Configuration", e2);
    var last1, last2 := e1[|e1| - 1], e2[|e2| - 1];
    KeyOfEntry(last1.0, last1.1, last2.0, last2.1);
  }

  lemma DifferentLastKeys(spec: Spec, e1: Entries, e2: Entries)
    requires Validate(spec).None? && Readable(spec) && Walks(spec, e1) && Walks(spec, e2) && CustomOf(spec).Some?
    requires e1 != [] && e2 != [] && e1[|e1| - 1].0 != e2[|e2| - 1].0
    ensures !OneText(spec)
  {
    if ConfigText(spec, e1) == ConfigText(spec, e2) { SameTextSameLastKey(spec, e1, e2); }
  }

  lemma TwoWalks(custom: map<string, string>) returns (e1: Entries, e2: Entries)
    requires |custom| > 1
    ensures Enumerates(e1, custom) && Enumerates(e2, custom)
    ensures e1 != [] && e2 != [] && e1[|e1| - 1].0 != e2[|e2| - 1].0
  {
    var a :| a in custom;
    assert |custom.Keys - {a}| == |custom| - 1;
    var b :| b in custom.Keys - {a};
    e1 := EndingWith(custom, a);
    e2 := EndingWith(custom, b);
  }

  lemma TwoKeysTwoTexts(spec: Spec)
    requires Validate(spec).None? && Readable(spec) && !AtMostOneKey(spec)
    ensures !OneText(spec)
  {
    var e1, e2 := TwoWalks(CustomOf(spec).value);
    DifferentLastKeys(spec, e1, e2);
  }

  /** The text is the same for every walk if and only if the custom map has no two entries. */
  lemma TextOrderExactly(spec: Spec)
    requires Validate(spec).None? && Readable(spec)
    ensures OneText(spec) <==> AtMostOneKey(spec)
  {
    if AtMostOneKey(spec) {
      forall e1, e2 | Walks(spec, e1) && Walks(spec, e2) ensures ConfigText(spec, e1) == ConfigText(spec, e2) {
        OneKeyOneText(spec, e1, e2);
      }
    } else {
      TwoKeysTwoTexts(spec);
    }
  }
}
