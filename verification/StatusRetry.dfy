/** updateStatusWithRetry against writers that may change the object between its read and its write. */
module StatusRetry {
  import opened Types
  import opened Store
  import opened ReconcileLoop
  import opened ReconcileTrace
  import opened ReconcileGates

  /** The writes among the events. */
  function Writes(trace: seq<Event>): seq<Event> {
    if trace == [] then []
    else (if trace[0].actor.Operator? then [trace[0]] else []) + Writes(trace[1..])
  }

  lemma WritesOfFirst(e: Event, rest: seq<Event>)
    ensures Writes([e] + rest) == (if e.actor.Operator? then [e] else []) + Writes(rest)
  {
    assert ([e] + rest)[1..] == rest;
  }

  lemma {:induction false} WritesConcat(a: seq<Event>, b: seq<Event>)
    ensures Writes(a + b) == Writes(a) + Writes(b)
  {
    if a == [] {
      assert a + b == b;
    } else {
      var e, rest := a[0], a[1..];
      assert a == [e] + rest && a + b == [e] + (rest + b);
      WritesOfFirst(e, rest);
      WritesOfFirst(e, rest + b);
      WritesConcat(rest, b);
    }
  }

  function Attempts(w: World, w': World): seq<Event> { Writes(New(w, w')) }

  lemma AttemptsConcat(a: World, b: World, c: World)
    requires a.trace <= b.trace && b.trace <= c.trace
    ensures Attempts(a, c) == Attempts(a, b) + Attempts(b, c)
  {
    assert New(a, c) == New(a, b) + New(b, c);
    WritesConcat(New(a, b), New(b, c));
  }

  /** A status write without an error took effect; one that took effect replaced what is observed and kept
      everything else that was stored when it arrived: spec, metadata, nodes, current image and upgrade progress. */
  predicate LosesNothing(e: Event) {
    && e.actor.Operator? && e.actor.request.UpdateStatus?
    && (e.actor.error.None? ==> Perform(e.before, e.actor.request) == Written(e.after))
    && (e.after != e.before ==>
          && e.before.cluster.Some? && e.after.cluster.Some?
          && var c, c' := e.before.cluster.value, e.after.cluster.value;
             && c' == c.(version := c'.version,
                         status := Observed(c.status, c'.status.replicas, c'.status.readyReplicas))
             && e.after == e.before.(clock := e.after.clock, cluster := e.after.cluster))
  }

  /** Ready is True exactly if all replicas are ready and there is one. */
  lemma ReadyExactly(status: Status, replicas: int32, ready: int32)
    ensures var s := Observed(status, replicas, ready);
            && s.replicas == replicas && s.readyReplicas == ready && |s.conditions| == 1
            && (s.conditions[0].status <==> ready == replicas && ready != 0)
            && (s.phase == Running <==> ready == replicas && ready != 0) && (s.phase != Running ==> s.phase == Pending)
            && s.nodes == status.nodes && s.currentImage == status.currentImage && s.upgrade == status.upgrade
  {
  }

  lemma ReadAttempts(w: World)
    ensures w.trace <= Read(w).world.trace && Attempts(w, Read(w).world) == []
  {
    var w1 := Read(w).world;
    if w.turns == [] {
      assert New(w, w1) == [];
    } else {
      assert New(w, w1) == [Event(Others, w.store, w1.store)];
      assert Writes(New(w, w1)) == Writes(New(w, w1)[1..]) && New(w, w1)[1..] == [];
    }
  }

  lemma SendAttempts(w: World, r: Request)
    ensures w.trace <= Send(w, r).world.trace && Attempts(w, Send(w, r).world) == [Sent(w, r)]
  {
    var w1, e := Send(w, r).world, Sent(w, r);
    var others := if w.turns == [] then [] else [Event(Others, w.store, Arrive(w).store)];
    assert w1.trace == w.trace + others + [e];
    assert New(w, w1) == others + [e];
    WritesConcat(others, [e]);
    assert [e][1..] == [];
    assert Writes([e]) == [e] + Writes([]);
    if others != [] { assert others[1..] == []; }
  }

  lemma SendAnswers(w: World, r: Request)
    requires Sound(w) && r.UpdateStatus?
    ensures Send(w, r).error == Some(Conflict) ==> Sent(w, r).after == Sent(w, r).before
    ensures Send(w, r).error.Some? ==> ApiError(Send(w, r).error.value)
  {
    if w.turns != [] { assert w.turns[0] in w.turns; }
  }

  lemma ReadAnswers(w: World)
    requires Sound(w) && Read(w).error.Some?
    ensures ApiError(Read(w).error.value)
  {
    assert w.turns[0] in w.turns;
  }

  lemma ObservedKeeps(w: World, latest: Cluster, replicas: int32, ready: int32)
    requires Sound(w) && KnowsStatus(w.store, latest.version, latest.status)
    ensures LosesNothing(Sent(w, UpdateStatus(latest.version, Observed(latest.status, replicas, ready))))
  {
    ArriveIsLawful(w);
    assert KnowsStatus(Arrive(w).store, latest.version, latest.status);
  }

  /** One attempt: at most one write, and nil exactly if it was acknowledged. */
  lemma OneAttempt(w: World, latest: Cluster)
    requires Sound(w) && KnowsStatus(w.store, latest.version, latest.status)
    ensures Attempted(w, UpdateObserved(w, latest))
  {
    ReadAttempts(w);
    var w1 := Read(w).world;
    match Found(Read(w).error, w1.store.statefulSet)
    case Missing(_) => if Read(w).error.Some? { ReadAnswers(w); }
    case Got(_) =>
      SoundAfterRead(w);
      var r := UpdateStatus(latest.version, Observed(latest.status, w1.store.observedReplicas, w1.store.observedReady));
      ObservedKeeps(w1, latest, w1.store.observedReplicas, w1.store.observedReady);
      SendAttempts(w1, r);
      SendAnswers(w1, r);
      AttemptsConcat(w, w1, Send(w1, r).world);
  }

  lemma SoundAfterRead(w: World)
    requires Sound(w)
    ensures Sound(Read(w).world) && Lawful(w.store, Read(w).world.store)
  {
    ArriveIsLawful(w);
    assert forall t :: t in Pass(w).turns ==> t in w.turns;
  }

  lemma SoundAfterSend(w: World, version: nat, status: Status)
    requires Sound(w)
    ensures Sound(Send(w, UpdateStatus(version, status)).world)
  {
    ArriveIsLawful(w);
    var s := Arrive(w).store;
    var answer := Perform(s, UpdateStatus(version, status));
    assert answer.Written? ==> Coherent(answer.store);
    assert forall t :: t in Pass(w).turns ==> t in w.turns;
  }

  lemma SoundAfterAttempt(w: World, latest: Cluster)
    requires Sound(w) && KnowsStatus(w.store, latest.version, latest.status)
    ensures Sound(UpdateObserved(w, latest).world)
  {
    SoundAfterRead(w);
    var w1 := Read(w).world;
    if Found(Read(w).error, w1.store.statefulSet).Got? {
      SoundAfterSend(w1, latest.version, Observed(latest.status, w1.store.observedReplicas, w1.store.observedReady));
    }
  }

  /** All but the last of the writes conflicted, had no effect, and were retried. */
  predicate RetriedConflicts(sent: seq<Event>) {
    forall k :: 0 <= k < |sent| - 1 ==>
      sent[k].actor.Operator? && sent[k].actor.error == Some(Conflict) && sent[k].after == sent[k].before
  }

  predicate Acknowledged(sent: seq<Event>) {
    sent != [] && sent[|sent| - 1].actor.Operator? && sent[|sent| - 1].actor.error.None?
  }

  lemma OneMoreConflict(first: seq<Event>, rest: seq<Event>)
    requires |first| <= 1 && RetriedConflicts(rest)
    requires forall e :: e in first ==> e.actor.Operator? && e.actor.error == Some(Conflict) && e.after == e.before
    ensures RetriedConflicts(first + rest) && (Acknowledged(first + rest) <==> Acknowledged(rest))
  {
    if first != [] {
      var e := first[0];
      assert first == [e] && e in first;
      assert forall k :: 1 <= k < |first + rest| ==> (first + rest)[k] == rest[k - 1];
    } else {
      assert first + rest == rest;
    }
  }

  lemma OneAttemptAlone(sent: seq<Event>, error: Option<Error>)
    requires |sent| <= 1 && (error.None? ==> sent != [])
    requires forall e :: e in sent ==> e.actor.Operator? && e.actor.error == error
    ensures RetriedConflicts(sent) && (Acknowledged(sent) <==> error.None?)
  {
    if sent != [] { assert sent[0] in sent; }
  }

  /** At most `limit` writes; nil exactly if the last was acknowledged; every earlier one had conflicted; no
      accepted write loses another writer's change; and the loop is never left at its end. */
  predicate Outcome(w: World, step: Step, limit: int) {
    && w.trace <= step.world.trace
    && var sent := Attempts(w, step.world);
       && |sent| <= limit && (step.error.None? <==> Acknowledged(sent))
       && RetriedConflicts(sent) && (forall e :: e in sent ==> LosesNothing(e))
       && step.error != Some(RetriesExhausted)
  }

  /** An attempt that wrote at most once. */
  predicate Attempted(w: World, step: Step) {
    && w.trace <= step.world.trace
    && var sent := Attempts(w, step.world);
       && |sent| <= 1 && (step.error.None? ==> sent != [])
       && (forall e :: e in sent ==> e.actor.Operator? && e.actor.error == step.error && LosesNothing(e))
       && (forall e :: e in sent && step.error == Some(Conflict) ==> e.after == e.before)
       && (step.error.Some? ==> ApiError(step.error.value))
  }

  lemma AfterConflict(w: World, first: Step, step: Step, limit: int)
    requires Attempted(w, first) && first.error == Some(Conflict) && Outcome(first.world, step, limit)
    ensures Outcome(w, step, limit + 1)
  {
    AttemptsConcat(w, first.world, step.world);
    OneMoreConflict(Attempts(w, first.world), Attempts(first.world, step.world));
  }

  lemma LastAttempt(w: World, first: Step)
    requires Attempted(w, first)
    ensures Outcome(w, first, 1)
  {
    OneAttemptAlone(Attempts(w, first.world), first.error);
  }

  lemma AfterRead(w: World, step: Step, limit: int)
    requires Outcome(Read(w).world, step, limit)
    ensures Outcome(w, step, limit)
  {
    ReadAttempts(w);
    AttemptsConcat(w, Read(w).world, step.world);
    assert Attempts(w, step.world) == Attempts(Read(w).world, step.world);
  }

  /** From attempt k on at most 3 - k writes are sent, with the outcome above. */
  lemma {:induction false} RetryOutcome(w: World, attempt: nat)
    requires Sound(w) && attempt < 3
    ensures Outcome(w, StatusFrom(w, attempt), 3 - attempt)
    decreases 3 - attempt
  {
    SoundAfterRead(w);
    var w1 := Read(w).world;
    match Found(Read(w).error, w1.store.cluster)
    case Missing(_) =>
      ReadAttempts(w);
      if Read(w).error.Some? { ReadAnswers(w); }
    case Got(latest) =>
      OneAttempt(w1, latest);
      var first := UpdateObserved(w1, latest);
      if first.error == Some(Conflict) && attempt < 2 {
        SoundAfterAttempt(w1, latest);
        RetryOutcome(first.world, attempt + 1);
        AfterConflict(w1, first, StatusFrom(first.world, attempt + 1), 2 - attempt);
      } else {
        LastAttempt(w1, first);
      }
      AfterRead(w, StatusFrom(w, attempt), 3 - attempt);
  }

  // ---- conflicts are retried ----

  /** No fault pretends a conflict: conflicts come from versions only. */
  ghost predicate GenuineConflicts(w: World) { forall t :: t in w.turns ==> t.fault != Refused(Conflict) }

  lemma GenuineRead(w: World)
    requires GenuineConflicts(w)
    ensures GenuineConflicts(Read(w).world) && Read(w).error != Some(Conflict)
  {
    if w.turns != [] { assert w.turns[0] in w.turns; }
    assert forall t :: t in Pass(w).turns ==> t in w.turns;
  }

  lemma GenuineAttempt(w: World, latest: Cluster)
    requires GenuineConflicts(w)
    ensures var step := UpdateObserved(w, latest);
            && w.trace <= step.world.trace && GenuineConflicts(step.world)
            && (step.error == Some(Conflict) ==> |Attempts(w, step.world)| == 1)
  {
    GenuineRead(w);
    ReadAttempts(w);
    var w1 := Read(w).world;
    if Found(Read(w).error, w1.store.statefulSet).Got? {
      var r := UpdateStatus(latest.version, Observed(latest.status, w1.store.observedReplicas, w1.store.observedReady));
      SendAttempts(w1, r);
      AttemptsConcat(w, w1, Send(w1, r).world);
      assert forall t :: t in Pass(w1).turns ==> t in w1.turns;
    }
  }

  /** A conflict is returned only after three writes: the first two conflicts are always retried. */
  lemma {:induction false} ConflictsAreRetried(w: World, attempt: nat)
    requires GenuineConflicts(w) && attempt < 3 && StatusFrom(w, attempt).error == Some(Conflict)
    ensures w.trace <= StatusFrom(w, attempt).world.trace
    ensures |Attempts(w, StatusFrom(w, attempt).world)| == 3 - attempt
    decreases 3 - attempt
  {
    GenuineRead(w);
    ReadAttempts(w);
    var w1 := Read(w).world;
    var latest := w1.store.cluster.value;
    GenuineAttempt(w1, latest);
    var first := UpdateObserved(w1, latest);
    AttemptsConcat(w, w1, first.world);
    if attempt < 2 {
      ConflictsAreRetried(first.world, attempt + 1);
      AttemptsConcat(w, first.world, StatusFrom(w, attempt).world);
    }
  }
}
