/** How many pods a cluster has, and in which order the upgrade manager replaces them. */
module UpgradeOrder {
  import opened Types

  // ---- the number of pods ----

  function CalculateReplicas(spec: Spec): int32 {
    match spec.mode
    case MultiMaster => spec.replicas
    case ClusterMode =>
      (match spec.cluster
       case Some(c) => Wrap32(c.shards * Wrap32(1 + c.replicasPerShard))
       case None => 3)
    case UnsupportedMode(_) => spec.replicas
  }

  // ---- reference definition of the orders ----

  /** The ordinals below n that are (masters) or are not (replicas) multiples of the shard width,
      in ascending order. */
  function Ordinals(n: nat, width: nat, masters: bool): (r: seq<int>)
    requires width > 0
    ensures forall x :: x in r <==> 0 <= x < n && (x % width == 0) == masters
    ensures forall i, j :: 0 <= i < j < |r| ==> r[i] < r[j]
  {
    if n == 0 then []
    else
      var rest := Ordinals(n - 1, width, masters);
      assert forall i :: 0 <= i < |rest| ==> rest[i] in rest;
      if ((n - 1) % width == 0) == masters then rest + [n - 1] else rest
  }

  function ReplicasFirst(n: nat, width: nat): seq<int>
    requires width > 0
  {
    Ordinals(n, width, false) + Ordinals(n, width, true)
  }

  function Ascending(n: nat): (r: seq<int>)
    ensures |r| == n && forall i :: 0 <= i < n ==> r[i] == i
  {
    if n == 0 then [] else Ascending(n - 1) + [n - 1]
  }

  /** Every ordinal below n exactly once. */
  ghost predicate IsPermutation(order: seq<int>, n: nat) {
    && |order| == n
    && (forall x :: x in order <==> 0 <= x < n)
    && (forall i, j :: 0 <= i < j < n ==> order[i] != order[j])
  }

  // ---- the orders as the manager computes them ----

  /** The sharding whose pod ordinals all are int32 values. */
  predicate Fits(shards: int, replicasPerShard: int) {
    0 <= shards && 0 <= replicasPerShard && shards * (1 + replicasPerShard) <= MAX_INT32 + 1
  }

  lemma Distribute(a: int, b: int, width: int)
    ensures (a + b) * width == a * width + b * width
  {
  }

  lemma AtLeastOneWidth(a: int, width: nat)
    requires a >= 1
    ensures a * width >= width
  {
    Distribute(a - 1, 1, width);
    assert (a - 1) * width >= 0;
  }

  /** Quotient and remainder are what division by width gives. */
  lemma Division(x: nat, width: nat, q: int, r: int)
    requires 0 <= r < width && x == q * width + r
    ensures x / width == q && x % width == r
  {
    var q', r' := x / width, x % width;
    assert x == q' * width + r';
    Distribute(q - q', q', width);
    if q > q' { AtLeastOneWidth(q - q', width); }
    Distribute(q' - q, q, width);
    if q < q' { AtLeastOneWidth(q' - q, width); }
  }

  /** Shard s starts at ordinal s * width; all its ordinals lie below the start of every later shard. */
  lemma ShardBounds(shard: nat, shards: nat, width: nat)
    requires shard < shards
    ensures shard * width + width == (shard + 1) * width <= shards * width
  {
    Distribute(shard, 1, width);
    Distribute(shards - shard, shard, width);
    AtLeastOneWidth(shards - shard, width);
  }

  lemma ReplicaStep(start: nat, replica: nat, width: nat)
    requires 1 <= replica < width && start % width == 0
    ensures Ordinals(start + replica + 1, width, false) == Ordinals(start + replica, width, false) + [start + replica]
    ensures Ordinals(start + replica + 1, width, true) == Ordinals(start + replica, width, true)
  {
    Division(start + replica, width, start / width, replica);
  }

  lemma MasterStep(start: nat, width: nat)
    requires 1 <= width && start % width == 0
    ensures Ordinals(start + 1, width, true) == Ordinals(start, width, true) + [start]
    ensures Ordinals(start + 1, width, false) == Ordinals(start, width, false)
  {
  }

  lemma {:induction false} MastersOfShard(start: nat, k: nat, width: nat)
    requires 1 <= k <= width && start % width == 0
    ensures Ordinals(start + k, width, true) == Ordinals(start, width, true) + [start]
    decreases k
  {
    if k == 1 {
      MasterStep(start, width);
    } else {
      MastersOfShard(start, k - 1, width);
      ReplicaStep(start, k - 1, width);
    }
  }

  // ---- the order as the loops compute it, on every int32 ----

  /** The int32 index computations of both loops. */
  function ShardStart(shard: int32, replicasPerShard: int32): int32 {
    Wrap32(shard * Wrap32(1 + replicasPerShard))
  }

  function PodIndex(shard: int32, replicasPerShard: int32, replica: int32): int32 {
    Wrap32(ShardStart(shard, replicasPerShard) + replica)
  }

  /** The indices of a shard's first k replicas. */
  function ShardReplicas(shard: int32, replicasPerShard: int32, k: int32): seq<int32>
    decreases if k < 0 then 0 else k
  {
    if k <= 0 then [] else ShardReplicas(shard, replicasPerShard, k - 1) + [PodIndex(shard, replicasPerShard, k)]
  }

  function AllReplicas(shards: int32, replicasPerShard: int32): seq<int32>
    decreases if shards < 0 then 0 else shards
  {
    if shards <= 0 then []
    else AllReplicas(shards - 1, replicasPerShard) + ShardReplicas(shards - 1, replicasPerShard, replicasPerShard)
  }

  function AllMasters(shards: int32, replicasPerShard: int32): seq<int32>
    decreases if shards < 0 then 0 else shards
  {
    if shards <= 0 then [] else AllMasters(shards - 1, replicasPerShard) + [ShardStart(shards - 1, replicasPerShard)]
  }

  /** Products and sums wrap; a negative number of shards gives nothing, of replicas per shard no replicas. */
  function WrappedOrder(c: Sharding): seq<int32> {
    AllReplicas(c.shards, c.replicasPerShard) + AllMasters(c.shards, c.replicasPerShard)
  }

  /** getClusterModeUpgradeOrder. The inner loop counts with `replica <= replicasPerShard`, which never ends when
      the bound is the largest int32; that is the one precondition. */
  method GetClusterModeUpgradeOrder(cluster: Option<Sharding>) returns (order: seq<int32>)
    requires cluster.Some? ==> cluster.value.replicasPerShard < MAX_INT32
    ensures cluster.None? ==> order == [0, 1, 2]
    ensures cluster.Some? ==> order == WrappedOrder(cluster.value)
    ensures cluster.Some? && Fits(cluster.value.shards, cluster.value.replicasPerShard) ==>
              var width := 1 + cluster.value.replicasPerShard;
              order == ReplicasFirst(cluster.value.shards * width, width)
  {
    order := [];
    if cluster.None? {
      for i := 0 to 3
        invariant order == [0, 1, 2][..i]
      {
        order := order + [i];
      }
      return;
    }
    var shards, replicasPerShard := cluster.value.shards, cluster.value.replicasPerShard;

    var shard := 0;
    while shard < shards
      invariant 0 <= shard && (shard <= shards || shard == 0)
      invariant order == AllReplicas(shard, replicasPerShard)
    {
      var replica := 1;
      while replica <= replicasPerShard
        invariant 1 <= replica && (replica <= replicasPerShard + 1 || replica == 1)
        invariant order == AllReplicas(shard, replicasPerShard) + ShardReplicas(shard, replicasPerShard, replica - 1)
      {
        order := order + [PodIndex(shard, replicasPerShard, replica)];
        replica := replica + 1;
      }
      assert ShardReplicas(shard, replicasPerShard, replica - 1)
          == ShardReplicas(shard, replicasPerShard, replicasPerShard);
      shard := shard + 1;
    }

    ghost var replicas := order;
    shard := 0;
    while shard < shards
      invariant 0 <= shard && (shard <= shards || shard == 0)
      invariant order == replicas + AllMasters(shard, replicasPerShard)
    {
      order := order + [ShardStart(shard, replicasPerShard)];
      shard := shard + 1;
    }
    if Fits(shards, replicasPerShard) { WrappedOrderIsReplicasFirst(cluster.value); }
  }

  ghost predicate AtShard(start: int, shard: int, shards: int, width: int) {
    0 <= shard <= shards && 1 <= width && 0 <= start == shard * width && start % width == 0
  }

  lemma NextShard(start: nat, shard: nat, shards: nat, width: nat)
    requires shard < shards && AtShard(start, shard, shards, width)
    ensures AtShard(start + width, shard + 1, shards, width)
  {
    ShardBounds(shard, shards, width);
    Division(start + width, width, shard + 1, 0);
  }

  /** No product or sum of a sharding that fits wraps. */
  lemma Unwrapped(start: nat, shard: nat, shards: nat, replicasPerShard: nat, replica: nat)
    requires shard < shards && Fits(shards, replicasPerShard) && replica <= replicasPerShard < MAX_INT32
    requires start == shard * (1 + replicasPerShard) && shards <= MAX_INT32
    ensures ShardStart(shard, replicasPerShard) == start
    ensures PodIndex(shard, replicasPerShard, replica) == start + replica
  {
    ShardBounds(shard, shards, 1 + replicasPerShard);
  }

  lemma {:induction false} ReplicasOfShard(start: nat, shard: int32, shards: int32, replicasPerShard: int32, k: int32)
    requires 0 <= shard < shards && 0 <= k <= replicasPerShard < MAX_INT32 && Fits(shards, replicasPerShard)
    requires start % (1 + replicasPerShard) == 0 && start == shard * (1 + replicasPerShard)
    ensures Ordinals(start, 1 + replicasPerShard, false) + ShardReplicas(shard, replicasPerShard, k)
         == Ordinals(start + k + 1, 1 + replicasPerShard, false)
    decreases k
  {
    var width := 1 + replicasPerShard;
    if k == 0 {
      MasterStep(start, width);
    } else {
      ReplicasOfShard(start, shard, shards, replicasPerShard, k - 1);
      Unwrapped(start, shard, shards, replicasPerShard, k);
      ReplicaStep(start, k, width);
    }
  }

  /** The first ordinal of a shard, by counting. */
  function Offset(shard: nat, width: nat): nat {
    if shard == 0 then 0 else Offset(shard - 1, width) + width
  }

  lemma {:induction false} OffsetAt(shard: nat, shards: nat, width: nat)
    requires shard <= shards && 1 <= width
    ensures AtShard(Offset(shard, width), shard, shards, width)
  {
    if shard > 0 {
      OffsetAt(shard - 1, shards, width);
      NextShard(Offset(shard - 1, width), shard - 1, shards, width);
    }
  }

  /** Where nothing wraps, the loops over the first shards give the ordinals below the next shard's start. */
  predicate InOrder(start: nat, shard: int32, replicasPerShard: int32, width: nat)
    requires 1 <= width
  {
    && AllReplicas(shard, replicasPerShard) == Ordinals(start, width, false)
    && AllMasters(shard, replicasPerShard) == Ordinals(start, width, true)
  }

  lemma NextInOrder(start: nat, shard: int32, shards: int32, replicasPerShard: int32, width: nat)
    requires 0 <= shard < shards && width == 1 + replicasPerShard
    requires 0 <= replicasPerShard < MAX_INT32 && Fits(shards, replicasPerShard)
    requires start == Offset(shard, width) && InOrder(start, shard, replicasPerShard, width)
    ensures InOrder(start + width, shard + 1, replicasPerShard, width)
  {
    OffsetAt(shard, shards, width);
    ReplicasOfShard(start, shard, shards, replicasPerShard, replicasPerShard);
    Unwrapped(start, shard, shards, replicasPerShard, 0);
    MastersOfShard(start, width, width);
  }

  lemma {:induction false} ShardsInOrder(shard: int32, shards: int32, replicasPerShard: int32, width: nat)
    requires 0 <= shard <= shards && width == 1 + replicasPerShard
    requires 0 <= replicasPerShard < MAX_INT32 && Fits(shards, replicasPerShard)
    ensures InOrder(Offset(shard, width), shard, replicasPerShard, width)
    decreases shard
  {
    if shard > 0 {
      ShardsInOrder(shard - 1, shards, replicasPerShard, width);
      NextInOrder(Offset(shard - 1, width), shard - 1, shards, replicasPerShard, width);
    }
  }

  lemma WrappedOrderIsReplicasFirst(c: Sharding)
    requires c.replicasPerShard < MAX_INT32 && Fits(c.shards, c.replicasPerShard)
    ensures WrappedOrder(c) == ReplicasFirst(c.shards * (1 + c.replicasPerShard), 1 + c.replicasPerShard)
  {
    ShardsInOrder(c.shards, c.shards, c.replicasPerShard, 1 + c.replicasPerShard);
    OffsetAt(c.shards, c.shards, 1 + c.replicasPerShard);
  }

  /** getMultiMasterUpgradeOrder; a negative count gives the empty order. */
  method GetMultiMasterUpgradeOrder(replicas: int32) returns (order: seq<int32>)
    ensures order == Ascending(if replicas < 0 then 0 else replicas)
  {
    order := [];
    var i := 0;
    while i < replicas
      invariant 0 <= i && (i <= replicas || i == 0)
      invariant order == Ascending(i)
    {
      order := order + [i];
      i := i + 1;
    }
  }

  /** The order the manager walks for a spec (performRollingUpdate picks by mode). */
  function OrderOf(spec: Spec): seq<int>
    requires Countable(spec)
  {
    if spec.mode == ClusterMode then
      match spec.cluster
      case None => [0, 1, 2]
      case Some(c) => ReplicasFirst(c.shards * (1 + c.replicasPerShard), 1 + c.replicasPerShard)
    else Ascending(spec.replicas)
  }

  /** The pod count is a non-negative number that int32 arithmetic computes exactly. */
  predicate Countable(spec: Spec) {
    if spec.mode == ClusterMode then
      spec.cluster.Some? ==>
        && 0 <= spec.cluster.value.shards && 0 <= spec.cluster.value.replicasPerShard < MAX_INT32
        && 0 <= spec.cluster.value.shards * (1 + spec.cluster.value.replicasPerShard) <= MAX_INT32
    else 0 <= spec.replicas
  }

  // ---- what the order promises ----

  lemma {:induction false} OrdinalCount(shards: nat, k: nat, width: nat)
    requires 1 <= width && k <= width
    ensures 0 <= shards * width && |Ordinals(shards * width + k, width, true)| == shards + (if k == 0 then 0 else 1)
    ensures |Ordinals(shards * width + k, width, false)| == shards * (width - 1) + (if k == 0 then 0 else k - 1)
    decreases shards, k
  {
    if k == 0 {
      if shards > 0 {
        ShardBounds(shards - 1, shards, width);
        OrdinalCount(shards - 1, width, width);
        Distribute(shards - 1, 1, width - 1);
      }
    } else {
      OrdinalCount(shards, k - 1, width);
      Division(shards * width, width, shards, 0);
      if k == 1 { MasterStep(shards * width, width); } else { ReplicaStep(shards * width, k - 1, width); }
    }
  }

  /** Every ordinal is upgraded exactly once. */
  lemma ReplicasFirstIsPermutation(shards: nat, replicasPerShard: nat)
    ensures var width := 1 + replicasPerShard;
            0 <= shards * width && IsPermutation(ReplicasFirst(shards * width, width), shards * width)
  {
    var width := 1 + replicasPerShard;
    OrdinalCount(shards, 0, width);
    assert shards * width == shards * (width - 1) + shards;
    var rs, ms := Ordinals(shards * width, width, false), Ordinals(shards * width, width, true);
    var order := rs + ms;
    forall i, j | 0 <= i < j < |order| ensures order[i] != order[j] {
      if i < |rs| && j >= |rs| {
        assert order[i] in rs && order[j] in ms;
      }
    }
  }

  lemma PrefixOfFirst(a: seq<int>, b: seq<int>, m: nat, x: int)
    requires m <= |a + b|
    ensures m <= |a| && x in (a + b)[..m] ==> x in a
  {
    if m <= |a| { assert (a + b)[..m] == a[..m]; }
  }

  /** The first shards * replicasPerShard entries are exactly the replicas, ascending, and the rest exactly
      the masters, ascending; so no prefix holds a master before it holds every replica of every shard. */
  lemma ReplicasBeforeMasters(shards: nat, replicasPerShard: nat, m: nat)
    requires m <= |ReplicasFirst(shards * (1 + replicasPerShard), 1 + replicasPerShard)|
    ensures var width, replicas := 1 + replicasPerShard, shards * replicasPerShard;
            var order := ReplicasFirst(shards * width, width);
            && |order| == replicas + shards
            && order[..replicas] == Ordinals(shards * width, width, false)
            && order[replicas..] == Ordinals(shards * width, width, true)
            && ((exists x :: x in order[..m] && x % width == 0) ==>
                forall y :: 0 <= y < shards * width && y % width != 0 ==> y in order[..m])
  {
    var width, replicas := 1 + replicasPerShard, shards * replicasPerShard;
    OrdinalCount(shards, 0, width);
    var rs, ms := Ordinals(shards * width, width, false), Ordinals(shards * width, width, true);
    var order := rs + ms;
    assert order[..replicas] == rs && order[replicas..] == ms;
    if x :| x in order[..m] && x % width == 0 {
      assert x !in rs;
      PrefixOfFirst(rs, ms, m, x);
      forall y | 0 <= y < shards * width && y % width != 0 ensures y in order[..m] {
        assert y in rs;
        var i :| 0 <= i < |rs| && rs[i] == y;
        assert order[..m][i] == y;
      }
    }
  }

  /** The order visits exactly the pods that the StatefulSet's replica count creates, in every mode and
      with the default of three pods when the sharding is missing. */
  lemma OrderCoversReplicas(spec: Spec)
    requires Countable(spec)
    ensures CalculateReplicas(spec) >= 0 && IsPermutation(OrderOf(spec), CalculateReplicas(spec))
  {
    if spec.mode == ClusterMode {
      if spec.cluster.Some? {
        var c := spec.cluster.value;
        WrappedProduct(c.shards, c.replicasPerShard);
        ReplicasFirstIsPermutation(c.shards, c.replicasPerShard);
      }
    } else {
      var order := Ascending(spec.replicas);
      forall x | 0 <= x < spec.replicas ensures x in order {
        assert order[x] == x;
      }
    }
  }

  /** The order that the loops compute is a permutation of the sharding's ordinals exactly if the sharding fits, and
      its length is the stored replica count exactly if that count itself does not wrap. */
  lemma FitsExactly(shards: int32, replicasPerShard: int32)
    requires 0 <= shards && 0 <= replicasPerShard < MAX_INT32
    ensures var c, n := Sharding(shards, replicasPerShard), shards * (1 + replicasPerShard);
            && n >= 0
            && (IsPermutation(WrappedOrder(c), n) <==> Fits(shards, replicasPerShard))
            && forall spec: Spec :: spec.mode == ClusterMode && spec.cluster == Some(c) ==>
                 (CalculateReplicas(spec) == n <==> n <= MAX_INT32)
  {
    var c, n := Sharding(shards, replicasPerShard), shards * (1 + replicasPerShard);
    assert n >= 0;
    if Fits(shards, replicasPerShard) {
      WrappedOrderIsReplicasFirst(c);
      ReplicasFirstIsPermutation(shards, replicasPerShard);
    } else if IsPermutation(WrappedOrder(c), n) {
      CoverBound(WrappedOrder(c), n);
    }
    WrappedProduct(shards, replicasPerShard);
  }

  ghost predicate Covers(order: seq<int32>, n: int) {
    forall x: int :: 0 <= x < n ==> x in order
  }

  lemma CoverBound(order: seq<int32>, n: int)
    requires Covers(order, n)
    ensures n <= MAX_INT32 + 1
  {
    var top := MAX_INT32 + 1;
    var present := top in order;
  }

  lemma WrappedProduct(shards: int32, replicasPerShard: int32)
    requires 0 <= shards && 0 <= replicasPerShard
    ensures Wrap32(shards * Wrap32(1 + replicasPerShard)) == shards * (1 + replicasPerShard)
       <==> shards * (1 + replicasPerShard) <= MAX_INT32
  {
    var n := shards * (1 + replicasPerShard);
    assert n >= 0;
    if replicasPerShard == MAX_INT32 {
      assert Wrap32(1 + replicasPerShard) == -MAX_INT32 - 1;
      if shards >= 1 {
        assert n >= 1 + replicasPerShard;
      } else {
        assert n == 0 && shards * Wrap32(1 + replicasPerShard) == 0;
      }
    }
  }
}
