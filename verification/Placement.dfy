/** Placing merchants on logical shards: each insert goes to the least loaded one. */
module Placement {
  import opened Domain
  import Sharding

  /** The shard indexes of the merchants table, in insertion order. */
  type Table = seq<nat>

  function Count(t: Table, shard: nat): nat {
    if t == [] then 0 else Count(t[..|t| - 1], shard) + if t[|t| - 1] == shard then 1 else 0
  }

  lemma CountAdd(t: Table, x: nat, shard: nat)
    ensures Count(t + [x], shard) == Count(t, shard) + if x == shard then 1 else 0
  {
    assert (t + [x])[..|t + [x]| - 1] == t;
  }

  /** A row of the GROUP BY query. */
  datatype Group = Group(shard: nat, n: nat)

  /** The answer to the query: one row for each shard below `shards` that has a merchant,
      in any order. */
  ghost predicate Answers(groups: seq<Group>, t: Table, shards: nat) {
    && (forall i | 0 <= i < |groups| :: groups[i].shard < shards && groups[i].n == Count(t, groups[i].shard))
    && (forall s: nat | s < shards && Count(t, s) > 0 :: exists i :: 0 <= i < |groups| && groups[i].shard == s)
  }

  /** The least loaded shard, and the first of those. */
  ghost predicate IsPick(t: Table, shards: nat, best: nat) {
    && best < shards
    && (forall s: nat | s < shards :: Count(t, best) <= Count(t, s))
    && (forall s: nat | s < best :: Count(t, best) < Count(t, s))
  }

  lemma PickIsUnique(t: Table, shards: nat, a: nat, b: nat)
    requires IsPick(t, shards, a) && IsPick(t, shards, b)
    ensures a == b
  {
    assert Count(t, a) == Count(t, b);
  }

  /** Fill the counts from the query, then scan them. Shards without a row count as empty. */
  method PickLeastLoaded(shards: nat, groups: seq<Group>, ghost t: Table) returns (best: nat)
    requires 1 <= shards <= 255 && Answers(groups, t, shards)
    ensures IsPick(t, shards, best)
  {
    var counts := new nat[shards](_ => 0);
    for k := 0 to |groups|
      invariant forall s | 0 <= s < shards ::
        counts[s] == if exists i :: 0 <= i < k && groups[i].shard == s then Count(t, s) else 0
    {
      if groups[k].shard < shards {
        counts[groups[k].shard] := groups[k].n;
      }
    }
    assert forall s | 0 <= s < shards :: counts[s] == Count(t, s);
    best := 0;
    var bestN := counts[0];
    for i := 1 to shards
      invariant best < i && bestN == counts[best]
      invariant forall s | 0 <= s < i :: counts[best] <= counts[s]
      invariant forall s | 0 <= s < best :: counts[best] < counts[s]
    {
      if counts[i] < bestN {
        best, bestN := i, counts[i];
      }
    }
  }

  class Merchants {
    const shards: nat
    var table: Table

    constructor (shards: nat)
      ensures this.shards == shards && table == []
    {
      this.shards, table := shards, [];
    }

    /** One insert. A failed query or a duplicate merchant leaves the table as it was. */
    method Insert(reply: Option<seq<Group>>, taken: bool) returns (placed: Option<nat>)
      requires 1 <= shards <= 255 && (reply.Some? ==> Answers(reply.value, table, shards))
      modifies this`table
      ensures placed.Some? <==> reply.Some? && !taken
      ensures placed.Some? ==> IsPick(old(table), shards, placed.value) && table == old(table) + [placed.value]
      ensures placed.None? ==> table == old(table)
    {
      if reply.None? {
        return None;
      }
      var best := PickLeastLoaded(shards, reply.value, table);
      if taken {
        return None;
      }
      table := table + [best];
      return Some(best);
    }
  }

  // --- balance ---------------------------------------------------------------

  /** No shard holds more than `gap` merchants above another. */
  ghost predicate GapAtMost(t: Table, shards: nat, gap: nat) {
    forall a: nat, b: nat | a < shards && b < shards :: Count(t, a) <= Count(t, b) + gap
  }

  /** An insert never raises the gap above the larger of its old value and 1. */
  lemma InsertKeepsGap(t: Table, shards: nat, best: nat, gap: nat)
    requires IsPick(t, shards, best) && GapAtMost(t, shards, gap) && gap >= 1
    ensures GapAtMost(t + [best], shards, gap)
  {
    forall a: nat, b: nat | a < shards && b < shards ensures Count(t + [best], a) <= Count(t + [best], b) + gap {
      CountAdd(t, best, a);
      CountAdd(t, best, b);
    }
  }

  /** A table every row of which was placed by the picker, from an empty start. */
  ghost predicate Placed(t: Table, shards: nat) {
    forall j | 0 <= j < |t| :: IsPick(t[..j], shards, t[j])
  }

  lemma QuotientRemainder(x: nat, n: nat, q: nat, r: nat)
    requires n >= 1 && x == q * n + r && r < n
    ensures x / n == q && x % n == r
  {
    assert (q + 1) * n == q * n + n;
    Sharding.QuotientIs(x, n, q);
  }

  /** Counts of a table filled in turn, `q` times round and `r` more. */
  lemma {:induction false} TurnCounts(t: Table, shards: nat, q: nat, r: nat, s: nat)
    requires r < shards && s < shards && |t| == q * shards + r
    requires forall k | 0 <= k < |t| :: t[k] == k % shards
    ensures Count(t, s) == q + if s < r then 1 else 0
    decreases |t|
  {
    if r > 0 {
      QuotientRemainder(|t| - 1, shards, q, r - 1);
      TurnCounts(t[..|t| - 1], shards, q, r - 1, s);
    } else if q > 0 {
      assert q * shards == (q - 1) * shards + shards;
      QuotientRemainder(|t| - 1, shards, q - 1, shards - 1);
      TurnCounts(t[..|t| - 1], shards, q - 1, shards - 1, s);
    }
  }

  /** From an empty table the j-th insert lands on shard j mod L. */
  lemma {:induction false} InsertsTakeTurns(t: Table, shards: nat)
    requires shards >= 1 && Placed(t, shards)
    ensures forall j | 0 <= j < |t| :: t[j] == j % shards
  {
    if t != [] {
      var rest, last := t[..|t| - 1], |t| - 1;
      assert forall j | 0 <= j < last :: t[..j] == rest[..j];
      InsertsTakeTurns(rest, shards);
      assert rest == t[..last];
      TurnIsPick(rest, shards);
      PickIsUnique(rest, shards, t[last], last % shards);
    }
  }

  lemma TurnIsPick(t: Table, shards: nat)
    requires shards >= 1 && forall k | 0 <= k < |t| :: t[k] == k % shards
    ensures IsPick(t, shards, |t| % shards)
  {
    var q, r := |t| / shards, |t| % shards;
    forall s: nat | s < shards ensures Count(t, s) == q + if s < r then 1 else 0 {
      TurnCounts(t, shards, q, r, s);
    }
  }

  /** The query's answer, here in shard order. */
  method CountByShard(t: Table, shards: nat) returns (groups: seq<Group>)
    ensures Answers(groups, t, shards)
  {
    groups := [];
    for s := 0 to shards
      invariant forall i | 0 <= i < |groups| :: groups[i].shard < s && groups[i].n == Count(t, groups[i].shard)
      invariant forall k: nat | k < s && Count(t, k) > 0 :: exists i :: 0 <= i < |groups| && groups[i].shard == k
    {
      if Count(t, s) > 0 {
        ghost var before := groups;
        groups := groups + [Group(s, Count(t, s))];
        assert groups[|before|].shard == s;
        assert forall i | 0 <= i < |before| :: groups[i] == before[i];
      }
    }
  }

  /** `n` inserts that all succeed, into an empty table. */
  method InsertAll(shards: nat, n: nat) returns (placed: seq<nat>)
    requires 1 <= shards <= 255
    ensures |placed| == n && forall j | 0 <= j < n :: placed[j] == j % shards
    ensures GapAtMost(placed, shards, 1)
  {
    var m := new Merchants(shards);
    placed := [];
    assert GapAtMost(placed, shards, 1);
    while |placed| < n
      invariant |placed| <= n && m.table == placed && m.shards == shards
      invariant Placed(placed, shards) && GapAtMost(placed, shards, 1)
    {
      var groups := CountByShard(placed, shards);
      var at := m.Insert(Some(groups), false);
      InsertKeepsGap(placed, shards, at.value, 1);
      assert forall j | 0 <= j < |placed| :: (placed + [at.value])[..j] == placed[..j];
      assert (placed + [at.value])[..|placed|] == placed;
      placed := placed + [at.value];
    }
    InsertsTakeTurns(placed, shards);
  }
}
