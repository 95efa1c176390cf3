/** Range routing of logical shards to physical pools, its inverse, and the lookup
    that asks every pool at once. Pools are named by their position. */
module Sharding {
  import opened Domain

  /** `table[i]` is the pool of logical shard `i`. */
  datatype Router = Router(pools: nat, table: seq<nat>)

  datatype OpenError = NoLogicalShards | FewerLogicalThanPools | NotDivisible | PoolFailed(pool: nat)

  /** Consecutive runs of `per` logical shards go to pools 0, 1, 2 and so on. */
  ghost predicate RangePartitioned(r: Router, per: nat) {
    && r.pools > 0 && per > 0 && |r.table| == r.pools * per
    && forall i | 0 <= i < |r.table| :: r.table[i] == i / per
  }

  ghost predicate WellFormed(r: Router) {
    && 0 < r.pools <= |r.table| <= 255
    && (forall i | 0 <= i < |r.table| :: r.table[i] < r.pools)
    && exists per :: RangePartitioned(r, per)
  }

  lemma QuotientIs(a: nat, d: nat, q: nat)
    requires d > 0 && q * d <= a < (q + 1) * d
    ensures a / d == q
  {
    var k: int := a / d - q;
    assert k * d == a / d * d - q * d == (a - a % d) - q * d;
    assert 0 - d < k * d < d;
    assert k >= 1 ==> k * d >= d;
    assert k <= -1 ==> k * d <= 0 - d;
  }

  /** `i * n / (n * per)` is the number of the block `i` falls in. */
  lemma RouteIsBlock(i: nat, n: nat, per: nat)
    requires n > 0 && per > 0 && i < n * per
    ensures i * n / (n * per) == i / per < n
  {
    var q := i / per;
    assert q * per <= i < (q + 1) * per;
    ScaleBounds(i, n, per, q);
    QuotientIs(i * n, n * per, q);
    assert q >= n ==> q * per >= n * per;
  }

  lemma ScaleBounds(i: nat, n: nat, per: nat, q: nat)
    requires n > 0 && q * per <= i < (q + 1) * per
    ensures q * (n * per) <= i * n < (q + 1) * (n * per)
  {
    assert q * (n * per) == (q * per) * n;
    assert (q + 1) * (n * per) == ((q + 1) * per) * n;
  }

  /** Each pool owns one contiguous block of `per` logical shards. */
  lemma BlocksAreContiguous(r: Router, per: nat, pool: nat, i: nat)
    requires RangePartitioned(r, per) && pool < r.pools && i < |r.table|
    ensures r.table[i] == pool <==> pool * per <= i < (pool + 1) * per
    ensures (pool + 1) * per <= |r.table|
  {
    if pool * per <= i < (pool + 1) * per {
      QuotientIs(i, per, pool);
    }
    assert i / per * per <= i < (i / per + 1) * per;
    assert (pool + 1) * per <= r.pools * per;
  }

  /** Open every pool, then precompute the routing table. `configured` is the number
      of shards in the configuration; none means one pool for everything. */
  method OpenShards(configured: nat, logical: nat, failing: set<nat>) returns (res: Result<Router, OpenError>)
    requires logical <= 255
    ensures var n := if configured == 0 then 1 else configured;
            && (res.Ok? <==> logical > 0 && logical % n == 0 && forall p | p in failing :: p >= n)
            && (res.Ok? ==> WellFormed(res.value) && res.value.pools == n && |res.value.table| == logical
                            && RangePartitioned(res.value, logical / n))
  {
    if logical == 0 {
      return Err(NoLogicalShards);
    }
    var n := if configured == 0 then 1 else configured;
    if logical < n {
      SmallRemainder(logical, n);
      return Err(FewerLogicalThanPools);
    }
    if logical % n != 0 {
      return Err(NotDivisible);
    }
    for i := 0 to n
      invariant forall p | 0 <= p < i :: p !in failing
    {
      if i in failing {
        return Err(PoolFailed(i));
      }
    }
    DivideExactly(logical, n);
    var table := BuildTable(n, logical, logical / n);
    res := Ok(Router(n, table));
  }

  lemma DivideExactly(a: nat, n: nat)
    requires 0 < n <= a && a % n == 0
    ensures a == n * (a / n) && a / n > 0
  {
  }

  lemma SmallRemainder(a: nat, n: nat)
    requires 0 < a < n
    ensures a % n != 0
  {
  }

  /** The table loop: shard `i` goes to pool `i * n / logical`. */
  method BuildTable(n: nat, logical: nat, ghost per: nat) returns (table: seq<nat>)
    requires n > 0 && per > 0 && logical == n * per && n <= logical <= 255
    ensures |table| == logical && RangePartitioned(Router(n, table), per) && WellFormed(Router(n, table))
  {
    table := [];
    for i := 0 to logical
      invariant |table| == i && forall j | 0 <= j < i :: table[j] == j / per && table[j] < n
    {
      RouteIsBlock(i, n, per);
      table := table + [i * n / logical];
    }
    assert RangePartitioned(Router(n, table), per);
  }

  /** One pool for everything; a logical count of zero counts as one. */
  method SingleShardRouter(logical: nat) returns (r: Router)
    requires logical <= 255
    ensures WellFormed(r) && r.pools == 1 && |r.table| == if logical == 0 then 1 else logical
  {
    var count := if logical == 0 then 1 else logical;
    var table: seq<nat> := [];
    for i := 0 to count
      invariant |table| == i && forall j | 0 <= j < i :: table[j] == 0 == j / count
    {
      QuotientIs(i, count, 0);
      table := table + [0];
    }
    r := Router(1, table);
    assert RangePartitioned(r, count);
  }

  /** The pool of a logical shard; an index past the table is an error. */
  function For(r: Router, shard: nat): Option<nat> {
    if shard < |r.table| then Some(r.table[shard]) else None
  }

  function FirstShard(r: Router, pool: nat): nat
    requires r.pools > 0
  {
    pool * (|r.table| / r.pools)
  }

  /** Invert the partition: for each pool a logical shard that routes to it, the least
      one, and small enough for a byte. */
  method PhysicalToFirstLogical(r: Router) returns (first: seq<nat>)
    requires WellFormed(r)
    ensures IsFirst(r, first)
    ensures forall p: nat | p < r.pools :: first[p] == FirstShard(r, p)
  {
    ghost var block :| RangePartitioned(r, block);
    QuotientIs(|r.table|, r.pools, block);
    var per := |r.table| / r.pools;
    first := [];
    for i := 0 to r.pools
      invariant |first| == i && forall p: nat | p < i :: FirstOf(r, p, first[p]) && first[p] == FirstShard(r, p)
    {
      BlockStart(r, per, i);
      first := first + [i * per % 256];
    }
  }

  /** The stamp of a pool routes back to it. */
  lemma ShardRoutesHome(r: Router, pool: nat)
    requires WellFormed(r) && pool < r.pools
    ensures For(r, FirstShard(r, pool)) == Some(pool)
  {
    var per :| RangePartitioned(r, per);
    QuotientIs(|r.table|, r.pools, per);
    BlockStart(r, per, pool);
  }

  lemma BlockStart(r: Router, per: nat, pool: nat)
    requires |r.table| <= 255 && RangePartitioned(r, per) && pool < r.pools
    ensures FirstOf(r, pool, pool * per) && pool * per < |r.table|
  {
    assert (pool + 1) * per == pool * per + per;
    assert (pool + 1) * per <= r.pools * per;
    BlocksAreContiguous(r, per, pool, pool * per);
    forall j: nat | j < pool * per ensures For(r, j) != Some(pool) {
      BlocksAreContiguous(r, per, pool, j);
    }
  }

  ghost predicate FirstOf(r: Router, pool: nat, shard: nat) {
    shard < 256 && For(r, shard) == Some(pool) && forall j: nat | j < shard :: For(r, j) != Some(pool)
  }

  ghost predicate IsFirst(r: Router, first: seq<nat>) {
    |first| == r.pools && forall p: nat | p < r.pools :: FirstOf(r, p, first[p])
  }

  // --- scatter lookup --------------------------------------------------------

  /** What one pool answers to a single-row query. */
  datatype PoolAnswer = Found(x: Transaction) | Missing | Broken

  datatype LookupError = NotFound | PoolError

  /** The order in which the pools' answers arrive: each pool once. */
  ghost predicate Arrival(order: seq<nat>, n: nat) {
    && |order| == n && (forall i | 0 <= i < n :: order[i] < n)
    && (forall i, j | 0 <= i < j < n :: order[i] != order[j])
    && (forall p: nat | p < n :: p in order)
  }

  /** Row `x` is the one pool `p` answered with, stamped with a shard of that pool: a
      follow-up write routed by the stamp reaches the pool the row was found in. */
  ghost predicate FromPool(r: Router, answers: seq<PoolAnswer>, p: nat, x: Transaction) {
    && p < |answers| && answers[p].Found? && x == answers[p].x.(shard := x.shard)
    && For(r, x.shard) == Some(p)
  }

  /** Ask every pool; the first row to arrive wins, whatever the order. */
  method ScatterFirst(r: Router, answers: seq<PoolAnswer>, order: seq<nat>)
    returns (res: Result<Transaction, LookupError>)
    requires WellFormed(r) && |answers| == r.pools && Arrival(order, r.pools)
    ensures res.Ok? ==> exists p :: FromPool(r, answers, p, res.value)
    ensures res.Err? ==> forall p | 0 <= p < r.pools :: !answers[p].Found?
    ensures res == Err(NotFound) <==> forall p | 0 <= p < r.pools :: answers[p].Missing?
  {
    var first := PhysicalToFirstLogical(r);
    var misses := 0;
    for i := 0 to r.pools
      invariant 0 <= misses <= i
      invariant forall j | 0 <= j < i :: !answers[order[j]].Found?
      invariant misses == i <==> forall j | 0 <= j < i :: answers[order[j]].Missing?
    {
      var p := order[i];
      match answers[p]
      case Missing => misses := misses + 1;
      case Broken =>
      case Found(x) =>
        assert FirstOf(r, p, first[p]);
        assert FromPool(r, answers, p, x.(shard := first[p]));
        return Ok(x.(shard := first[p]));
    }
    EveryPoolArrived(answers, order);
    res := if misses == r.pools then Err(NotFound) else Err(PoolError);
  }

  lemma EveryPoolArrived(answers: seq<PoolAnswer>, order: seq<nat>)
    requires Arrival(order, |answers|) && forall j | 0 <= j < |order| :: !answers[order[j]].Found?
    ensures forall p | 0 <= p < |answers| :: !answers[p].Found?
    ensures (forall p | 0 <= p < |answers| :: answers[p].Missing?)
            <==> forall j | 0 <= j < |order| :: answers[order[j]].Missing?
  {
    forall p: nat | p < |answers|
      ensures !answers[p].Found?
      ensures (forall j | 0 <= j < |order| :: answers[order[j]].Missing?) ==> answers[p].Missing?
    {
      assert p in order;
    }
  }
}
