/** The loops of the multi-master post-start script, and the mesh that all pods' scripts build together. */
module MeshScript {
  import opened Naming
  import opened Workload

  /** One round of keydb-cli: whether the ping was answered, and the `loading:` field. */
  datatype Answer = Answer(pong: bool, loading: string)

  const MAX_ATTEMPTS := 60

  predicate Ready(a: Answer) { a.pong && a.loading == "0" }

  /** The server answers as ready in one of sixty attempts. */
  ghost predicate BecomesReady(answers: nat -> Answer) { exists k: nat :: k < 60 && Ready(answers(k)) }

  function Host(id: Identity, ordinal: nat): string {
    PodName(id.name, ordinal) + "." + HeadlessServiceName(id.name) + "." + id.namespace + ".svc.cluster.local"
  }

  function Hosts(id: Identity, ordinals: seq<nat>): seq<string> {
    seq(|ordinals|, i requires 0 <= i < |ordinals| => Host(id, ordinals[i]))
  }

  /** The ordinals below n that print differently from the pod's own index. */
  function Peers(n: nat, index: string): seq<nat> {
    if n == 0 then [] else Peers(n - 1, index) + (if Decimal(n - 1) != index then [n - 1] else [])
  }

  method AwaitReady(answers: nat -> Answer) returns (ready: bool)
    ensures ready <==> BecomesReady(answers)
  {
    var attempt: nat := 0;
    while attempt < MAX_ATTEMPTS
      invariant attempt <= MAX_ATTEMPTS && forall k: nat :: k < attempt ==> !Ready(answers(k))
    {
      if answers(attempt).pong {
        if answers(attempt).loading == "0" { break; }
      }
      attempt := attempt + 1;
    }
    return attempt != MAX_ATTEMPTS;
  }

  /** The hosts given to REPLICAOF, in order, and the script's exit status. */
  method PostStart(replicas: nat, id: Identity, hostname: string, answers: nat -> Answer)
    returns (replicaOf: seq<string>, status: nat)
    ensures status == if BecomesReady(answers) then 0 else 1
    ensures replicaOf == if BecomesReady(answers) then Hosts(id, Peers(replicas, AfterLastDash(hostname))) else []
  {
    var podIndex := AfterLastDash(hostname);
    var ready := AwaitReady(answers);
    if !ready { return [], 1; }
    replicaOf := [];
    for i := 0 to replicas
      invariant replicaOf == Hosts(id, Peers(i, podIndex))
    {
      if Decimal(i) != podIndex { replicaOf := replicaOf + [Host(id, i)]; }
    }
    status := 0;
  }

  // ---- what the loops achieve ----

  /** All ordinals below n but the pod's own, ascending. */
  ghost predicate Others(peers: seq<nat>, n: nat, pod: nat) {
    && (forall j: nat :: j in peers <==> j < n && j != pod)
    && (forall a, b :: 0 <= a < b < |peers| ==> peers[a] < peers[b])
    && |peers| == if pod < n then n - 1 else n
  }

  lemma OneMoreOrdinal(before: seq<nat>, n: nat, pod: nat)
    requires Others(before, n, pod)
    ensures Others(before + (if n != pod then [n] else []), n + 1, pod)
  {
    assert forall a :: 0 <= a < |before| ==> before[a] in before;
  }

  /** A pod connects once to every other ordinal, in ascending order, and never to itself. */
  lemma {:induction false} PeersAreTheOthers(n: nat, cluster: string, pod: nat)
    ensures Others(Peers(n, AfterLastDash(PodName(cluster, pod))), n, pod)
  {
    if n > 0 {
      PeersAreTheOthers(n - 1, cluster, pod);
      OneMoreOrdinal(Peers(n - 1, AfterLastDash(PodName(cluster, pod))), n - 1, pod);
      PodIndexRoundTrip(cluster, pod);
      if Decimal(n - 1) == Decimal(pod) { DecimalInjective(n - 1, pod); }
    }
  }

  /** Different ordinals are different hosts. */
  lemma HostInjective(id: Identity, i: nat, j: nat)
    requires Host(id, i) == Host(id, j)
    ensures i == j
  {
    var a, b := Host(id, i), Host(id, j);
    assert a[..|PodName(id.name, i)|] == PodName(id.name, i);
    assert b[..|PodName(id.name, j)|] == PodName(id.name, j);
    PodNameInjective(id.name, i, id.name, j);
  }

  /** The links that the scripts of the first m of n pods make, each as (from, to). */
  function Links(cluster: string, n: nat, m: nat): seq<(nat, nat)> {
    if m == 0 then []
    else
      var peers := Peers(n, AfterLastDash(PodName(cluster, m - 1)));
      Links(cluster, n, m - 1) + seq(|peers|, i requires 0 <= i < |peers| => (m - 1, peers[i]))
  }

  lemma {:induction false} LinksOf(cluster: string, n: nat, m: nat)
    requires m <= n
    ensures Complete(Links(cluster, n, m), n, m)
    ensures |Links(cluster, n, m)| == m * (n - 1)
  {
    if m > 0 {
      LinksOf(cluster, n, m - 1);
      PeersAreTheOthers(n, cluster, m - 1);
      AddRow(Links(cluster, n, m - 1), n, m, Peers(n, AfterLastDash(PodName(cluster, m - 1))));
      OneMoreRow(m, n - 1);
    } else {
      assert Links(cluster, n, 0) == [];
    }
  }

  lemma OneMoreRow(rows: int, width: int) ensures rows * width == (rows - 1) * width + width {}

  /** Exactly the pairs of different ordinals that start below m, each once. */
  ghost predicate Complete(links: seq<(nat, nat)>, n: nat, m: nat) {
    && (forall p: nat, q: nat :: (p, q) in links <==> p < m && q < n && p != q)
    && (forall a, b :: 0 <= a < b < |links| ==> links[a] != links[b])
  }

  lemma AddRow(before: seq<(nat, nat)>, n: nat, m: nat, peers: seq<nat>)
    requires 0 < m && Complete(before, n, m - 1)
    requires forall q: nat :: q in peers <==> q < n && q != m - 1
    requires forall a, b :: 0 <= a < b < |peers| ==> peers[a] < peers[b]
    ensures Complete(before + seq(|peers|, i requires 0 <= i < |peers| => (m - 1, peers[i])), n, m)
  {
    var row := seq(|peers|, i requires 0 <= i < |peers| => (m - 1, peers[i]));
    var links := before + row;
    forall p: nat, q: nat ensures (p, q) in row <==> p == m - 1 && q in peers {
      if p == m - 1 && q in peers {
        var i :| 0 <= i < |peers| && peers[i] == q;
        assert row[i] == (p, q);
      }
    }
    forall a, b | 0 <= a < b < |links| ensures links[a] != links[b] {
      if b >= |before| {
        assert links[b] == row[b - |before|];
        if a < |before| { assert links[a] == before[a] && before[a] in before; }
      }
    }
  }

  /** All n pods together make each of the n * (n - 1) ordered pairs exactly once. */
  lemma FullMesh(cluster: string, n: nat)
    ensures Complete(Links(cluster, n, n), n, n)
    ensures |Links(cluster, n, n)| == n * (n - 1)
  {
    LinksOf(cluster, n, n);
  }
}
