/** What every interleaving of a rolling upgrade keeps: availability, and what holds of the pods and of the counters
    when the manager returns. */
module RollingUpgradeSafety {
  import opened Types
  import opened RollingUpgrade

  predicate Up(s: State, name: string) {
    name in s.pods && IsReady(s.pods[name].conditions)
  }

  /** The manager never has two of the pods it deleted down together. */
  predicate AtMostOneDown(s: State) {
    forall i, j :: 0 <= i < j < |s.deleted| ==> Up(s, s.deleted[i]) || Up(s, s.deleted[j])
  }

  /** A new incarnation of the pod is up on the target image, and nobody is deleting it. */
  ghost predicate Replaced(p: Plan, s0: State, s: State, name: string) {
    && name in s.pods && s.pods[name].uid >= s0.nextUid && !s.pods[name].terminating
    && RunsImage(s.pods[name], p.target) && IsReady(s.pods[name].conditions)
  }

  /** A deleted pod that did not pass its upgrade yet: gone, or terminating on its old image, or new. */
  ghost predicate InFlight(p: Plan, s0: State, s: State, name: string) {
    name in s.pods ==>
      if s.pods[name].terminating then !RunsImage(s.pods[name], p.target)
      else s.pods[name].uid >= s0.nextUid && RunsImage(s.pods[name], p.target)
  }

  /** Pods carry a Ready condition when they are created and ever after, and the first m of the order are old. */
  ghost predicate Assumed(p: Plan, s0: State, m: nat)
    requires m <= |p.names|
  {
    p.publishes && forall i :: 0 <= i < m ==> OldAt(p, s0, i)
  }

  /** Before the first deletion the first pod is old, or missing while the template is old. */
  predicate FirstIsOld(p: Plan, s: State)
    requires p.names != []
  {
    var name, c := p.names[0], s.control;
    c == Begin || c == NextPod(0) || c == Prechecked(0) || c == Patched(0) || c == Fetched(0) ==>
      if name in s.pods then !s.pods[name].terminating && !RunsImage(s.pods[name], p.target)
      else (c == Begin || c == NextPod(0)) && s.template != [] && s.template[0] != p.target
  }

  /** What the assumption about the first m pods keeps true of them. */
  ghost predicate Available(p: Plan, s0: State, s: State, m: nat)
    requires m <= |p.names|
  {
    var n := Successes(p, s.control);
    && (forall name :: name in s.pods && s.pods[name].uid >= s0.nextUid ==> CarriesReady(s.pods[name].conditions))
    && (0 < m ==> FirstIsOld(p, s))
    && (forall i :: 0 <= i < n && i < m ==> Replaced(p, s0, s, p.names[i]))
    && (n < |s.deleted| && n < m ==> InFlight(p, s0, s, p.names[n]))
  }

  lemma AvailableEnv(p: Plan, s0: State, s: State, a: EnvAction, s': State, m: nat)
    requires m <= |p.names|
    requires Init(p, s0) && Assumed(p, s0, m) && Basics(p, s0, s) && Available(p, s0, s, m) && EnvStep(p, s, a, s')
    ensures Available(p, s0, s', m)
  {
    var n := Successes(p, s.control);
    forall i | 0 <= i < n && i < m ensures Replaced(p, s0, s', p.names[i]) {
      assert Replaced(p, s0, s, p.names[i]);
    }
    if n < |s.deleted| && n < m {
      assert p.names[n] == s.deleted[n];
    }
  }

  lemma FirstStaysOld(p: Plan, s0: State, s: State, s': State)
    requires p.names != [] && s.control != s'.control && FirstIsOld(p, s) && ManagerStep(p, s, s')
    ensures FirstIsOld(p, s')
  {
    if !s.control.Fetched? { assert s'.pods == s.pods; }
  }

  /** The pod that the manager is about to delete does not run the target image. */
  lemma DeletesOld(p: Plan, s0: State, s: State, m: nat)
    requires m <= |p.names| && Init(p, s0) && Assumed(p, s0, m) && Basics(p, s0, s)
    requires s.control.Fetched? && s.control.k < m && p.names[s.control.k] in s.pods && FirstIsOld(p, s)
    ensures !RunsImage(s.pods[p.names[s.control.k]], p.target)
  {
    if s.control.k > 0 { assert OldAt(p, s0, s.control.k); }
  }

  lemma AvailableManager(p: Plan, s0: State, s: State, s': State, m: nat)
    requires m <= |p.names|
    requires Init(p, s0) && Assumed(p, s0, m) && Basics(p, s0, s) && Ledger(p, s') && Available(p, s0, s, m)
    requires DeletesAtMost(p, s, s') && SucceedsValidly(p, s, s') && (0 < m ==> FirstIsOld(p, s'))
    ensures Available(p, s0, s', m)
  {
    var n, n' := Successes(p, s.control), Successes(p, s'.control);
    forall i | 0 <= i < n' && i < m ensures Replaced(p, s0, s', p.names[i]) {
      if i < n {
        assert Replaced(p, s0, s, p.names[i]);
      } else {
        assert i == n && s'.pods == s.pods;
        assert InFlight(p, s0, s, p.names[n]);
      }
    }
    if n' < |s'.deleted| && n' < m && s'.deleted != s.deleted {
      DeletesOld(p, s0, s, m);
    }
  }

  lemma AvailableNext(p: Plan, s0: State, s: State, s': State, m: nat)
    requires m <= |p.names|
    requires Init(p, s0) && Assumed(p, s0, m) && Basics(p, s0, s) && Basics(p, s0, s') && Available(p, s0, s, m)
    requires Next(p, s, s')
    ensures Available(p, s0, s', m)
  {
    if a :| EnvStep(p, s, a, s') {
      AvailableEnv(p, s0, s, a, s', m);
    } else {
      ManagerFrame(p, s, s');
      if 0 < m { FirstStaysOld(p, s0, s, s'); }
      AvailableManager(p, s0, s, s', m);
    }
  }

  lemma AvailableInit(p: Plan, s0: State, m: nat)
    requires m <= |p.names| && Init(p, s0) && Assumed(p, s0, m)
    ensures Available(p, s0, s0, m)
  {
    if 0 < m { assert OldAt(p, s0, 0); }
  }

  lemma AvailableStep(p: Plan, h: seq<State>, i: nat, m: nat)
    requires m <= |p.names| && Run(p, h) && i + 1 < |h| && Assumed(p, h[0], m) && Available(p, h[0], h[i], m)
    ensures Available(p, h[0], h[i + 1], m)
  {
    BasicsAlways(p, h, i);
    BasicsAlways(p, h, i + 1);
    assert StepAt(p, h, i);
    AvailableNext(p, h[0], h[i], h[i + 1], m);
  }

  lemma {:induction false} AvailableAlways(p: Plan, h: seq<State>, i: nat, m: nat)
    requires m <= |p.names| && Run(p, h) && i < |h| && Assumed(p, h[0], m)
    ensures Available(p, h[0], h[i], m)
  {
    if i == 0 {
      AvailableInit(p, h[0], m);
    } else {
      AvailableAlways(p, h, i - 1, m);
      AvailableStep(p, h, i - 1, m);
    }
  }

  /** Over every interleaving: whenever names[k + 1] has been deleted, a new incarnation of names[k] is up on
      the target image; so never two deleted pods are down together. */
  lemma Availability(p: Plan, h: seq<State>, i: nat)
    requires p.names != [] && Run(p, h) && i < |h| && Assumed(p, h[0], |p.names| - 1)
    ensures h[i].deleted <= p.names
    ensures forall k :: 0 <= k < |h[i].deleted| - 1 ==> Replaced(p, h[0], h[i], p.names[k])
    ensures AtMostOneDown(h[i])
  {
    BasicsAlways(p, h, i);
    AvailableAlways(p, h, i, |p.names| - 1);
    var s := h[i];
    forall k | 0 <= k < |s.deleted| - 1 ensures Replaced(p, h[0], s, p.names[k]) && s.deleted[k] == p.names[k] {
    }
  }

  // ---- the end of a run ----

  /** A run that returns nil: the phase, image and counters are stored, every pod was deleted once, and no pod
      of the plan is shown with another image; of the first m pods, if the assumptions hold of them, a new
      incarnation is up. */
  lemma Completion(p: Plan, h: seq<State>, m: nat)
    requires m <= |p.names| && Run(p, h) && h[|h| - 1].control == Finished
    ensures var s, s0 := h[|h| - 1], h[0];
            && s.stored == s.progress
                == Progress(Completed, Wrap32(s0.progress.upgradedPods + |p.names|), p.total, p.target)
            && s.deleted == p.names
            && (forall i :: 0 <= i < |p.names| && p.names[i] in s.pods ==> RunsImage(s.pods[p.names[i]], p.target))
            && (Assumed(p, s0, m) ==> forall i :: 0 <= i < m ==> Replaced(p, s0, s, p.names[i]))
  {
    var i := |h| - 1;
    BasicsAlways(p, h, i);
    PlusWraps(h[0].progress.upgradedPods, |p.names|);
    if Assumed(p, h[0], m) { AvailableAlways(p, h, i, m); }
  }

  /** A run that returns an error after k successful upgradePod calls: exactly the first k pods, and perhaps
      the one in flight, were deleted; later pods are the ones the run started with; the counter moved by k,
      the stored one lags by at most one; and the phase in memory is Failed exactly if upgradePod failed. Of the
      upgraded pods among the first m, if the assumptions hold of these, a new incarnation is up. */
  lemma FailureLeavesPrefix(p: Plan, h: seq<State>, m: nat)
    requires m <= |p.names| && Run(p, h) && h[|h| - 1].control.Stopped?
    ensures var s, s0 := h[|h| - 1], h[0]; var k := s.control.k;
            && k <= |p.names|
            && (s.deleted == p.names[..k] || (s.control.fromPod && k < |p.names| && s.deleted == p.names[..k + 1]))
            && Untouched(p, s0, s)
            && (forall i :: 0 <= i < k && p.names[i] in s.pods ==> RunsImage(s.pods[p.names[i]], p.target))
            && s.progress.upgradedPods == Wrap32(s0.progress.upgradedPods + k)
            && (s.stored.upgradedPods == s.progress.upgradedPods
                || (if k == 0 then s.stored == s0.stored
                    else s.stored.upgradedPods == Wrap32(s0.progress.upgradedPods + k - 1)))
            && (s.progress.phase == Failed <==> s.control.fromPod)
            && (Assumed(p, s0, m) ==> forall i :: 0 <= i < k && i < m ==> Replaced(p, s0, s, p.names[i]))
  {
    BasicsAlways(p, h, |h| - 1);
    if Assumed(p, h[0], m) { AvailableAlways(p, h, |h| - 1, m); }
    var s := h[|h| - 1];
    PlusWraps(h[0].progress.upgradedPods, s.control.k);
    if s.control.k > 0 { PlusWraps(h[0].progress.upgradedPods, s.control.k - 1); }
  }
}
