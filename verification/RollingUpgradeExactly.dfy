/** The assumptions about the start of a rolling upgrade are needed: wherever they fail, a run leads to two deleted
    pods that are down together. */
module RollingUpgradeExactly {
  import opened RollingUpgrade
  import opened RollingUpgradeSafety

  // ---- building runs ----

  const UP: seq<Condition> := [Condition(PodReady, True)]

  lemma UpIsReady()
    ensures IsReady(UP) && SomeReady(UP)
    ensures NoneNotReady([]) && !CarriesReady([])
  {
    assert UP[0] in UP && Ready(UP[0]) && UP[0].kind.PodReady?;
  }

  lemma ReadyIsSeen(conditions: seq<Condition>)
    requires IsReady(conditions)
    ensures SomeReady(conditions)
  {
    var c :| c in conditions && c.kind.PodReady?;
    assert !NotReady(c);
    assert Ready(c);
  }

  lemma Continue(p: Plan, h: seq<State>, s: State) returns (h': seq<State>)
    requires Run(p, h) && Next(p, h[|h| - 1], s)
    ensures Run(p, h') && h'[0] == h[0] && h'[|h'| - 1] == s
  {
    ExtendRun(p, h, s);
    h' := h + [s];
  }

  lemma ContinueEnv(p: Plan, h: seq<State>, a: EnvAction) returns (h': seq<State>)
    requires Run(p, h) && Enabled(p, h[|h| - 1], a)
    ensures Run(p, h') && h'[0] == h[0] && h'[|h'| - 1] == Apply(h[|h| - 1], a)
  {
    var s' := Apply(h[|h| - 1], a);
    assert EnvStep(p, h[|h| - 1], a, s');
    h' := Continue(p, h, s');
  }

  // ---- one pod, step by step ----

  /** The manager is about to look at names[k]. */
  ghost predicate AtTurn(p: Plan, h: seq<State>, k: nat) {
    && Run(p, h) && k < |p.names|
    && var s := h[|h| - 1]; s.control == NextPod(k) && s.local == s.template && s.template != []
  }

  /** And it will find it ready. */
  ghost predicate AtPod(p: Plan, h: seq<State>, k: nat) {
    AtTurn(p, h, k) && p.names[k] in h[|h| - 1].pods && IsReady(h[|h| - 1].pods[p.names[k]].conditions)
  }

  /** The state in which the cluster has brought the pod up, as a new one if it was missing. */
  function WithUp(s: State, name: string): State {
    if name in s.pods then Apply(s, Report(name, UP)) else Apply(s, Recreate(name, UP))
  }

  lemma BringUp(p: Plan, h: seq<State>, k: nat) returns (h': seq<State>)
    requires AtTurn(p, h, k)
    ensures AtPod(p, h', k) && h'[0] == h[0] && h'[|h'| - 1] == WithUp(h[|h| - 1], p.names[k])
  {
    UpIsReady();
    var s, name := h[|h| - 1], p.names[k];
    if name in s.pods {
      h' := ContinueEnv(p, h, Report(name, UP));
    } else {
      assert name in p.names;
      h' := ContinueEnv(p, h, Recreate(name, UP));
    }
  }

  function TargetTemplate(p: Plan, s: State): seq<string>
    requires s.local != []
  {
    SetImage(s.local, p.target)
  }

  /** The manager validates names[k] and patches the template without a fault. */
  lemma PatchFor(p: Plan, h: seq<State>, k: nat) returns (h': seq<State>)
    requires AtPod(p, h, k)
    ensures var s, t := h[|h| - 1], TargetTemplate(p, h[|h| - 1]);
            Run(p, h') && h'[0] == h[0] && h'[|h'| - 1] == s.(local := t, template := t, control := Patched(k))
  {
    var s := h[|h| - 1];
    var t := TargetTemplate(p, s);
    var s1 := s.(control := Prechecked(k));
    h' := Continue(p, h, s1);
    if s.local[0] == p.target { assert t == s.local; }
    h' := Continue(p, h', s1.(local := t, template := t, control := Patched(k)));
  }

  /** It fetches and deletes names[k] without a fault. */
  lemma FetchAndDelete(p: Plan, h: seq<State>, k: nat) returns (h': seq<State>)
    requires Run(p, h) && k < |p.names| && h[|h| - 1].control == Patched(k) && p.names[k] in h[|h| - 1].pods
    ensures Run(p, h') && h'[0] == h[0] && h'[|h'| - 1] == Delete(h[|h| - 1], p.names[k], Waiting(k))
  {
    var s := h[|h| - 1];
    var s1 := s.(control := Fetched(k));
    h' := Continue(p, h, s1);
    var s2 := Delete(s1, p.names[k], Waiting(k));
    h' := Continue(p, h', s2);
    assert s2 == Delete(s, p.names[k], Waiting(k));
  }

  lemma DeletePod(p: Plan, h: seq<State>, k: nat) returns (h': seq<State>)
    requires AtPod(p, h, k)
    ensures var s, t := h[|h| - 1], TargetTemplate(p, h[|h| - 1]);
            Run(p, h') && h'[0] == h[0]
            && h'[|h'| - 1] == Delete(s.(local := t, template := t), p.names[k], Waiting(k))
  {
    h' := PatchFor(p, h, k);
    h' := FetchAndDelete(p, h', k);
  }

  lemma SeePodReady(p: Plan, h: seq<State>, k: nat) returns (h': seq<State>)
    requires Run(p, h) && k < |p.names| && h[|h| - 1].control == Waiting(k)
    requires p.names[k] in h[|h| - 1].pods && SomeReady(h[|h| - 1].pods[p.names[k]].conditions)
    ensures Run(p, h') && h'[0] == h[0] && h'[|h'| - 1] == h[|h| - 1].(control := SawReady(k))
  {
    h' := Continue(p, h, h[|h| - 1].(control := SawReady(k)));
  }

  /** The manager's next state after a status write that was stored and acknowledged. */
  function Saved(s: State, progress: Progress, control: Control): State {
    s.(progress := progress, stored := progress, control := control)
  }

  /** The manager validates and counts names[k] without a fault. */
  lemma AcceptPod(p: Plan, h: seq<State>, k: nat) returns (h': seq<State>)
    requires Run(p, h) && k < |p.names| && h[|h| - 1].control == SawReady(k)
    requires PassesAfter(h[|h| - 1], p.names[k], p.target)
    ensures var s := h[|h| - 1];
            Run(p, h') && h'[0] == h[0] && h'[|h'| - 1] == Saved(s, Counted(s.progress), NextPod(k + 1))
  {
    var s := h[|h| - 1];
    h' := Continue(p, h, s.(control := Validated(k)));
    h' := Continue(p, h', Saved(s, Counted(s.progress), NextPod(k + 1)));
  }

  /** Deleted, gone, back from the template and up. */
  lemma ReplacePod(p: Plan, h: seq<State>, k: nat) returns (h': seq<State>)
    requires AtPod(p, h, k)
    ensures AfterPod(p, h, h', k)
  {
    UpIsReady();
    var name := p.names[k];
    h' := DeletePod(p, h, k);
    h' := ContinueEnv(p, h', Remove(name));
    assert name in p.names;
    h' := ContinueEnv(p, h', Recreate(name, UP));
    h' := SeePodReady(p, h', k);
    assert PassesAfter(h'[|h'| - 1], name, p.target);
    h' := AcceptPod(p, h', k);
  }

  /** The manager is done with names[k], and the other pods are as they were. */
  ghost predicate AfterPod(p: Plan, h: seq<State>, h': seq<State>, k: nat)
    requires AtTurn(p, h, k)
  {
    && Run(p, h') && h'[0] == h[0]
    && var s, s' := h[|h| - 1], h'[|h'| - 1];
       && s'.control == NextPod(k + 1) && s'.local == s'.template && s'.template != [] && s'.template[0] == p.target
       && s'.deleted == s.deleted + [p.names[k]] && SameOthers(s, s', p.names[k])
  }

  ghost predicate SameOthers(s: State, s': State, but: string) {
    forall name :: name != but ==>
      (name in s'.pods <==> name in s.pods) && (name in s.pods ==> s'.pods[name] == s.pods[name])
  }

  /** Pod names[k] upgraded as intended, from whatever it was. */
  lemma UpgradeCleanly(p: Plan, h: seq<State>, k: nat) returns (h': seq<State>)
    requires AtTurn(p, h, k)
    ensures AfterPod(p, h, h', k)
  {
    var h1 := BringUp(p, h, k);
    h' := ReplacePod(p, h1, k);
  }

  /** The pods from names[k] on are the ones of the start, and the template is patched once a pod was upgraded. */
  predicate Prefix(p: Plan, s0: State, s: State, k: nat)
    requires k <= |p.names|
  {
    && s.control == NextPod(k) && s.local == s.template && s.template != [] && s.deleted == p.names[..k]
    && (if k == 0 then s.template == s0.template else s.template[0] == p.target)
    && forall i :: k <= i < |p.names| ==>
         && (p.names[i] in s.pods <==> p.names[i] in s0.pods)
         && (p.names[i] in s0.pods ==> s.pods[p.names[i]] == s0.pods[p.names[i]])
  }

  /** From any start, any number of pods upgraded as intended. */
  lemma {:induction false} UpgradePrefix(p: Plan, s0: State, k: nat) returns (h: seq<State>)
    requires Init(p, s0) && k <= |p.names|
    ensures Run(p, h) && h[0] == s0 && Prefix(p, s0, h[|h| - 1], k)
  {
    if k == 0 {
      h := Continue(p, [s0], Saved(s0, Started(p, s0.progress), NextPod(0)));
    } else {
      h := UpgradePrefix(p, s0, k - 1);
      h := UpgradeCleanly(p, h, k - 1);
      assert p.names[..k] == p.names[..k - 1] + [p.names[k - 1]];
    }
  }

  // ---- two pods down ----

  ghost predicate Unsafe(p: Plan, s0: State) {
    exists h, i :: Run(p, h) && h[0] == s0 && 0 <= i < |h| && !AtMostOneDown(h[i])
  }

  /** Once the manager accepted names[k] while the cluster could still take it down, it deletes the next pod
      and both are down. */
  lemma TwoDown(p: Plan, h: seq<State>, k: nat)
    requires AtTurn(p, h, k + 1) && h[|h| - 1].deleted == p.names[..k + 1] && p.names[k] != p.names[k + 1]
    requires p.names[k] in h[|h| - 1].pods
    requires h[|h| - 1].pods[p.names[k]].terminating || !IsReady(h[|h| - 1].pods[p.names[k]].conditions)
    ensures Unsafe(p, h[0])
  {
    var h' := BringUp(p, h, k + 1);
    h' := DeletePod(p, h', k + 1);
    h' := ContinueEnv(p, h', Remove(p.names[k + 1]));
    if h'[|h'| - 1].pods[p.names[k]].terminating {
      h' := ContinueEnv(p, h', Remove(p.names[k]));
    }
    var s := h'[|h'| - 1];
    assert s.deleted[k] == p.names[k] && s.deleted[k + 1] == p.names[k + 1];
    assert !Up(s, p.names[k]) && !Up(s, p.names[k + 1]);
    assert 0 <= |h'| - 1 < |h'|;
  }

  /** A pod of the old set that already runs the target image when it is deleted: its terminating incarnation is
      still ready and passes for the new one. */
  lemma AcceptTerminating(p: Plan, h: seq<State>, k: nat)
    requires Run(p, h) && k + 1 < |p.names| && h[|h| - 1].control == Patched(k) && h[|h| - 1].deleted == p.names[..k]
    requires var s := h[|h| - 1];
             && s.local == s.template && s.template != [] && p.names[k] in s.pods
             && RunsImage(s.pods[p.names[k]], p.target) && IsReady(s.pods[p.names[k]].conditions)
    ensures Unsafe(p, h[0])
  {
    var name := p.names[k];
    ReadyIsSeen(h[|h| - 1].pods[name].conditions);
    var h' := FetchAndDelete(p, h, k);
    h' := SeePodReady(p, h', k);
    assert PassesAfter(h'[|h'| - 1], name, p.target);
    h' := AcceptPod(p, h', k);
    assert p.names[..k + 1] == p.names[..k] + [name];
    assert p.names[k] != p.names[k + 1];
    TwoDown(p, h', k);
  }

  /** At its turn the pod runs the target image, or the cluster can still replace it by one that does before the
      manager deletes it. */
  predicate Renewable(p: Plan, s: State, name: string)
    requires s.template != []
  {
    if name in s.pods then s.pods[name].terminating || RunsImage(s.pods[name], p.target) else s.template[0] == p.target
  }

  lemma UnsafeAtTurn(p: Plan, h: seq<State>, k: nat)
    requires AtTurn(p, h, k) && k + 1 < |p.names| && h[|h| - 1].deleted == p.names[..k]
    requires Renewable(p, h[|h| - 1], p.names[k])
    ensures Unsafe(p, h[0])
  {
    UpIsReady();
    var name := p.names[k];
    var h' := BringUp(p, h, k);
    h' := PatchFor(p, h', k);
    if !RunsImage(h'[|h'| - 1].pods[name], p.target) {
      h' := ContinueEnv(p, h', Remove(name));
      assert name in p.names;
      h' := ContinueEnv(p, h', Recreate(name, UP));
    }
    AcceptTerminating(p, h', k);
  }

  /** A pod that is not old at the start. */
  lemma UnsafeNotOld(p: Plan, s0: State, k: nat)
    requires Init(p, s0) && k + 1 < |p.names| && !OldAt(p, s0, k)
    ensures Unsafe(p, s0)
  {
    var h := UpgradePrefix(p, s0, k);
    UnsafeAtTurn(p, h, k);
  }

  /** A pod shown without a Ready condition passes both validations. */
  lemma UnsafeUnpublished(p: Plan, s0: State)
    requires Init(p, s0) && 2 <= |p.names| && !p.publishes
    ensures Unsafe(p, s0)
  {
    UpIsReady();
    var name := p.names[0];
    assert name in p.names;
    var h := UpgradePrefix(p, s0, 0);
    h := BringUp(p, h, 0);
    h := DeletePod(p, h, 0);
    h := SeePodReady(p, h, 0);
    h := ContinueEnv(p, h, Remove(name));
    h := ContinueEnv(p, h, Recreate(name, []));
    assert PassesAfter(h[|h| - 1], name, p.target);
    h := AcceptPod(p, h, 0);
    assert p.names[..1] == [name];
    TwoDown(p, h, 0);
  }

  /** From any start with two pods or more, healthy or not: every interleaving keeps at most one deleted pod down if
      and only if pods always carry a Ready condition and every pod of the order but the last is old, that is
      shown, not terminating, and not on the target image; the first may be missing while the template is old. */
  lemma AvailabilityExactly(p: Plan, s0: State)
    requires Init(p, s0) && 2 <= |p.names|
    ensures Unsafe(p, s0) <==> !(p.publishes && forall i :: 0 <= i < |p.names| - 1 ==> OldAt(p, s0, i))
  {
    if Assumed(p, s0, |p.names| - 1) {
      forall h, i | Run(p, h) && h[0] == s0 && 0 <= i < |h| ensures AtMostOneDown(h[i]) {
        Availability(p, h, i);
      }
    } else if !p.publishes {
      UnsafeUnpublished(p, s0);
    } else {
      var k :| 0 <= k < |p.names| - 1 && !OldAt(p, s0, k);
      UnsafeNotOld(p, s0, k);
    }
  }
}
