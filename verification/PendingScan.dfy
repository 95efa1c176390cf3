/** The stuck-order scan: one page per pool, gathered in arrival order, sorted in
    place and cut. */
module PendingScan {
  import opened Domain
  import opened Sharding

  // --- the order -------------------------------------------------------------

  predicate StringLeq(s: string, t: string) {
    if s == "" then true
    else if t == "" then false
    else s[0] < t[0] || (s[0] == t[0] && StringLeq(s[1..], t[1..]))
  }

  /** Oldest first, then by transaction id. */
  predicate Leq(a: Transaction, b: Transaction) {
    a.createdAt < b.createdAt || (a.createdAt == b.createdAt && StringLeq(a.id, b.id))
  }

  lemma {:induction false} StringLeqTotal(s: string, t: string)
    ensures StringLeq(s, t) || StringLeq(t, s)
  {
    if s != "" && t != "" {
      StringLeqTotal(s[1..], t[1..]);
    }
  }

  lemma {:induction false} StringLeqTransitive(s: string, t: string, u: string)
    requires StringLeq(s, t) && StringLeq(t, u)
    ensures StringLeq(s, u)
  {
    if s != "" && s[0] == t[0] == u[0] {
      StringLeqTransitive(s[1..], t[1..], u[1..]);
    }
  }

  lemma LeqTransitive(a: Transaction, b: Transaction, c: Transaction)
    requires Leq(a, b) && Leq(b, c)
    ensures Leq(a, c)
  {
    if a.createdAt == c.createdAt {
      StringLeqTransitive(a.id, b.id, c.id);
    }
  }

  predicate Sorted(s: seq<Transaction>) {
    forall i, j | 0 <= i < j < |s| :: Leq(s[i], s[j])
  }

  // --- the insertion sort ----------------------------------------------------

  /** Everything up to `i` is in order except that the row at `j` may be too far right. */
  predicate SortedBut(s: seq<Transaction>, i: int, j: int)
    requires 0 <= j <= i < |s|
  {
    && (forall p, q | 0 <= p < q <= i && p != j && q != j :: Leq(s[p], s[q]))
    && (forall q | j < q <= i :: Leq(s[j], s[q]))
  }

  lemma SettledIsSorted(s: seq<Transaction>, i: int, j: int)
    requires 0 <= j <= i < |s| && SortedBut(s, i, j) && (j > 0 ==> Leq(s[j - 1], s[j]))
    ensures Sorted(s[..i + 1])
  {
    forall p | 0 <= p < j ensures Leq(s[p], s[j]) {
      if p < j - 1 {
        LeqTransitive(s[p], s[j - 1], s[j]);
      }
    }
  }

  lemma SwapKeepsSortedBut(s: seq<Transaction>, i: int, j: int)
    requires 0 < j <= i < |s| && SortedBut(s, i, j) && !Leq(s[j - 1], s[j])
    ensures SortedBut(s[j - 1 := s[j]][j := s[j - 1]], i, j - 1)
  {
    StringLeqTotal(s[j - 1].id, s[j].id);
  }

  method SortByCreatedAt(a: array<Transaction>)
    modifies a
    ensures Sorted(a[..]) && multiset(a[..]) == multiset(old(a[..]))
  {
    if a.Length == 0 {
      return;
    }
    for i := 1 to a.Length
      invariant Sorted(a[..i])
      invariant multiset(a[..]) == multiset(old(a[..]))
    {
      SinkRow(a, i);
    }
    assert a[..a.Length] == a[..];
  }

  /** The inner loop: swap the row at `i` leftwards until it is in place. */
  method SinkRow(a: array<Transaction>, i: nat)
    requires i < a.Length && Sorted(a[..i])
    modifies a
    ensures Sorted(a[..i + 1]) && multiset(a[..]) == multiset(old(a[..]))
  {
    var j := i;
    assert forall p | 0 <= p < i :: a[..][p] == a[..i][p];
    while j > 0
      invariant 0 <= j <= i
      invariant SortedBut(a[..], i, j)
      invariant multiset(a[..]) == multiset(old(a[..]))
    {
      if Leq(a[j - 1], a[j]) {
        break;
      }
      ghost var before := a[..];
      SwapKeepsSortedBut(before, i, j);
      a[j - 1], a[j] := a[j], a[j - 1];
      assert a[..] == before[j - 1 := before[j]][j := before[j - 1]];
      j := j - 1;
    }
    SettledIsSorted(a[..], i, j);
    assert a[..i + 1] == a[..][..i + 1];
  }

  // --- pages and pools -------------------------------------------------------

  function Stamp(page: seq<Transaction>, shard: nat): seq<Transaction> {
    seq(|page|, i requires 0 <= i < |page| => page[i].(shard := shard))
  }

  /** The stuck rows of one pool, as the scan stamps them. */
  function StuckIn(rows: seq<Transaction>, cutoff: int, shard: nat): seq<Transaction> {
    if rows == [] then []
    else (if IsStuck(rows[0].status) && rows[0].createdAt < cutoff then [rows[0].(shard := shard)] else [])
         + StuckIn(rows[1..], cutoff, shard)
  }

  function Min(a: nat, b: nat): nat { if a < b then a else b }

  /** What `ORDER BY created_at LIMIT limit` may return; ties are the pool's choice. */
  ghost predicate IsPage(page: seq<Transaction>, stuck: multiset<Transaction>, limit: nat) {
    && multiset(page) <= stuck && |page| == Min(limit, |stuck|)
    && forall x, y | x in stuck - multiset(page) && y in page :: y.createdAt <= x.createdAt
  }

  predicate InRange(at: seq<nat>, n: nat) {
    forall i | 0 <= i < |at| :: at[i] < n
  }

  /** All of `parts` at the given positions, added up. */
  ghost function Sum(parts: seq<multiset<Transaction>>, at: seq<nat>): multiset<Transaction>
    requires InRange(at, |parts|)
  {
    if at == [] then multiset{} else Sum(parts, at[..|at| - 1]) + parts[at[|at| - 1]]
  }

  function Without<T>(s: seq<T>, j: nat): seq<T>
    requires j < |s|
  {
    s[..j] + s[j + 1..]
  }

  lemma {:induction false} SumTakesOut(parts: seq<multiset<Transaction>>, at: seq<nat>, j: nat)
    requires InRange(at, |parts|) && j < |at|
    ensures InRange(Without(at, j), |parts|)
    ensures Sum(parts, at) == Sum(parts, Without(at, j)) + parts[at[j]]
  {
    var n := |at| - 1;
    if j == n {
      assert Without(at, j) == at[..n];
    } else {
      SumTakesOut(parts, at[..n], j);
      assert Without(at, j)[..n - 1] == Without(at[..n], j);
      assert Without(at, j)[n - 1] == at[n];
    }
  }

  lemma WithoutCounts<T>(s: seq<T>, j: nat)
    requires j < |s|
    ensures multiset(Without(s, j)) == multiset(s) - multiset{s[j]}
  {
    assert s == s[..j] + [s[j]] + s[j + 1..];
  }

  /** The sum does not depend on the order. */
  lemma {:induction false} SumOfPermutation(parts: seq<multiset<Transaction>>, a: seq<nat>, b: seq<nat>)
    requires InRange(a, |parts|) && InRange(b, |parts|)
    requires multiset(a) == multiset(b)
    ensures Sum(parts, a) == Sum(parts, b)
    decreases |a|
  {
    if a == [] {
      assert |multiset(b)| == 0;
    } else {
      var n := |a| - 1;
      assert a[n] in multiset(a);
      var j := IndexOf(b, a[n]);
      assert Without(a, n) == a[..n];
      WithoutCounts(a, n);
      WithoutCounts(b, j);
      SumTakesOut(parts, b, j);
      SumOfPermutation(parts, a[..n], Without(b, j));
    }
  }

  lemma IndexOf(b: seq<nat>, x: nat) returns (j: nat)
    requires x in multiset(b)
    ensures j < |b| && b[j] == x
  {
    j :| 0 <= j < |b| && b[j] == x;
  }

  /** The pages of the pools in `order`, one after the other. */
  function Gather(pages: seq<seq<Transaction>>, order: seq<nat>): seq<Transaction>
    requires InRange(order, |pages|)
  {
    if order == [] then [] else Gather(pages, order[..|order| - 1]) + pages[order[|order| - 1]]
  }

  ghost predicate AllPages(pages: seq<seq<Transaction>>, parts: seq<multiset<Transaction>>, limit: nat) {
    |pages| == |parts| && forall p | 0 <= p < |pages| :: IsPage(pages[p], parts[p], limit)
  }

  lemma SubsetSize(a: multiset<Transaction>, b: multiset<Transaction>)
    requires a <= b
    ensures |a| <= |b|
  {
    assert b == a + (b - a);
  }

  /** Gathering loses nothing unless it has at least `limit` rows. */
  lemma {:induction false} GatherCounts(pages: seq<seq<Transaction>>, parts: seq<multiset<Transaction>>,
                                        order: seq<nat>, limit: nat)
    requires AllPages(pages, parts, limit) && InRange(order, |pages|)
    ensures multiset(Gather(pages, order)) <= Sum(parts, order)
    ensures |Gather(pages, order)| == |Sum(parts, order)| || limit <= |Gather(pages, order)| <= |Sum(parts, order)|
  {
    if order != [] {
      var p, rest := order[|order| - 1], order[..|order| - 1];
      GatherCounts(pages, parts, rest, limit);
      assert IsPage(pages[p], parts[p], limit);
      assert multiset(Gather(pages, order)) == multiset(Gather(pages, rest)) + multiset(pages[p]);
      SubsetSize(multiset(Gather(pages, order)), Sum(parts, order));
      assert |Sum(parts, order)| == |Sum(parts, rest)| + |parts[p]|;
    }
  }

  /** A row missing from the gathered rows was left out by the pool that holds it. */
  lemma {:induction false} LeftOutByAPool(pages: seq<seq<Transaction>>, parts: seq<multiset<Transaction>>,
                                          order: seq<nat>, limit: nat, x: Transaction)
    returns (p: nat)
    requires AllPages(pages, parts, limit) && InRange(order, |pages|)
    requires Sum(parts, order)[x] > multiset(Gather(pages, order))[x]
    ensures p < |pages| && x in parts[p] - multiset(pages[p])
    ensures multiset(pages[p]) <= multiset(Gather(pages, order))
  {
    p := order[|order| - 1];
    var rest := order[..|order| - 1];
    assert multiset(Gather(pages, order)) == multiset(Gather(pages, rest)) + multiset(pages[p]);
    if parts[p][x] <= multiset(pages[p])[x] {
      p := LeftOutByAPool(pages, parts, rest, limit, x);
    }
  }

  /** The cut of the sorted rows: nothing left out is strictly older. */
  lemma NothingOlderIsLeftOut(
    pages: seq<seq<Transaction>>, parts: seq<multiset<Transaction>>, order: seq<nat>, limit: nat,
    sorted: seq<Transaction>, x: Transaction, y: Transaction)
    requires AllPages(pages, parts, limit) && InRange(order, |pages|)
    requires Sorted(sorted) && multiset(sorted) == multiset(Gather(pages, order))
    requires var cut := sorted[..Min(limit, |sorted|)]; x in Sum(parts, order) - multiset(cut) && y in cut
    ensures y.createdAt <= x.createdAt
  {
    var k := Min(limit, |sorted|);
    var cut, tail := sorted[..k], sorted[k..];
    assert sorted == cut + tail;
    var j :| 0 <= j < k && cut[j] == y;
    if x in tail {
      var i :| 0 <= i < |tail| && tail[i] == x;
      assert sorted[j] == y && sorted[k + i] == x;
    } else {
      assert multiset(sorted)[x] == multiset(cut)[x];
      var p := LeftOutByAPool(pages, parts, order, limit, x);
      FullPageIsOlder(pages[p], parts[p], limit, sorted, x, j);
    }
  }

  /** A pool that left out `x` sent `limit` rows no younger than `x`; so the first
      `limit` rows of all are no younger either. */
  lemma FullPageIsOlder(page: seq<Transaction>, stuck: multiset<Transaction>, limit: nat, sorted: seq<Transaction>,
                        x: Transaction, j: nat)
    requires IsPage(page, stuck, limit) && x in stuck - multiset(page)
    requires Sorted(sorted) && multiset(page) <= multiset(sorted) && j < limit && j < |sorted|
    ensures sorted[j].createdAt <= x.createdAt
  {
    SubsetSize(multiset(page), stuck);
    LeftOutMeansFull(page, stuck, x);
    if sorted[j].createdAt > x.createdAt {
      YoungTailHoldsNone(page, sorted, x, j);
      SubsetSize(multiset(page), multiset(sorted[..j]));
    }
  }

  lemma YoungTailHoldsNone(page: seq<Transaction>, sorted: seq<Transaction>, x: Transaction, j: nat)
    requires Sorted(sorted) && j < |sorted| && multiset(page) <= multiset(sorted)
    requires sorted[j].createdAt > x.createdAt && forall y | y in page :: y.createdAt <= x.createdAt
    ensures multiset(page) <= multiset(sorted[..j])
  {
    var head, tail := sorted[..j], sorted[j..];
    assert sorted == head + tail;
    forall i | 0 <= i < |tail| ensures tail[i].createdAt > x.createdAt {
      assert i > 0 ==> Leq(sorted[j], sorted[j + i]);
    }
    forall y ensures multiset(page)[y] <= multiset(head)[y] {
      assert y in page ==> y !in tail;
      assert multiset(sorted)[y] == multiset(head)[y] + multiset(tail)[y];
    }
  }

  lemma LeftOutMeansFull(page: seq<Transaction>, stuck: multiset<Transaction>, x: Transaction)
    requires multiset(page) <= stuck && x in stuck - multiset(page)
    ensures |page| < |stuck|
  {
    assert stuck == multiset(page) + (stuck - multiset(page));
    assert |stuck - multiset(page)| > 0;
  }

  // --- the scan --------------------------------------------------------------

  /** The stuck rows of every pool. */
  ghost function StuckByPool(r: Router, rows: seq<seq<Transaction>>, cutoff: int): seq<multiset<Transaction>>
    requires r.pools > 0
  {
    seq(|rows|, p requires 0 <= p < |rows| => multiset(StuckIn(rows[p], cutoff, FirstShard(r, p))))
  }

  function Positions(n: nat): (at: seq<nat>)
    ensures |at| == n && forall i | 0 <= i < n :: at[i] == i
  {
    seq(n, i => i)
  }

  /** A pool either fails or answers with a page of its stuck rows. */
  ghost predicate PoolAnswers(r: Router, rows: seq<Transaction>, cutoff: int, limit: nat, pool: nat,
                              answer: Option<seq<Transaction>>)
    requires r.pools > 0
  {
    answer.Some? ==>
      IsPage(Stamp(answer.value, FirstShard(r, pool)), multiset(StuckIn(rows, cutoff, FirstShard(r, pool))), limit)
  }

  lemma ArrivalIsPermutation(order: seq<nat>, n: nat)
    requires Arrival(order, n)
    ensures multiset(order) == multiset(Positions(n))
  {
    forall p: nat ensures multiset(order)[p] == multiset(Positions(n))[p] {
      CountsOnce(order, p);
      CountsOnce(Positions(n), p);
      assert p < n ==> Positions(n)[p] == p;
      assert p in order <==> p < n;
      assert p in Positions(n) <==> p < n;
    }
  }

  lemma {:induction false} CountsOnce(s: seq<nat>, p: nat)
    requires forall i, j | 0 <= i < j < |s| :: s[i] != s[j]
    ensures multiset(s)[p] == if p in s then 1 else 0
  {
    if s != [] {
      assert s == [s[0]] + s[1..];
      CountsOnce(s[1..], p);
      assert s[0] !in s[1..];
    }
  }

  /** Collect the pages as they arrive; a failed pool makes the whole scan fail. */
  method GatherPages(answers: seq<Option<seq<Transaction>>>, order: seq<nat>, first: seq<nat>,
                     ghost pages: seq<seq<Transaction>>)
    returns (all: seq<Transaction>, failed: bool)
    requires |first| == |answers| == |pages| && InRange(order, |answers|)
    requires forall p | 0 <= p < |answers| && answers[p].Some? :: pages[p] == Stamp(answers[p].value, first[p])
    ensures failed <==> exists i :: 0 <= i < |order| && answers[order[i]].None?
    ensures !failed ==> all == Gather(pages, order)
  {
    all, failed := [], false;
    for i := 0 to |order|
      invariant failed <==> exists j :: 0 <= j < i && answers[order[j]].None?
      invariant !failed ==> all == Gather(pages, order[..i])
    {
      match answers[order[i]]
      case None => failed := true;
      case Some(page) =>
        assert order[..i + 1][..i] == order[..i];
        all := all + Stamp(page, first[order[i]]);
    }
    assert order[..|order|] == order;
  }

  /** `out` is a sorted choice of up to `limit` of all rows in `parts`, and leaves out
      none that is strictly older than one it holds. */
  ghost predicate IsOldest(parts: seq<multiset<Transaction>>, limit: nat, out: seq<Transaction>) {
    var stuck := Sum(parts, Positions(|parts|));
    && multiset(out) <= stuck && |out| == Min(limit, |stuck|)
    && Sorted(out)
    && forall x, y | x in stuck - multiset(out) && y in out :: y.createdAt <= x.createdAt
  }

  lemma CutIsOldest(parts: seq<multiset<Transaction>>, limit: nat, pages: seq<seq<Transaction>>, order: seq<nat>,
                    sorted: seq<Transaction>, out: seq<Transaction>)
    requires AllPages(pages, parts, limit) && Arrival(order, |parts|)
    requires Sorted(sorted) && multiset(sorted) == multiset(Gather(pages, order))
    requires out == sorted[..Min(limit, |sorted|)]
    ensures IsOldest(parts, limit, out)
  {
    ArrivalIsPermutation(order, |parts|);
    SumOfPermutation(parts, order, Positions(|parts|));
    CutHasSize(parts, limit, pages, order, sorted, out);
    forall x, y | x in Sum(parts, order) - multiset(out) && y in out ensures y.createdAt <= x.createdAt {
      NothingOlderIsLeftOut(pages, parts, order, limit, sorted, x, y);
    }
  }

  lemma CutHasSize(parts: seq<multiset<Transaction>>, limit: nat, pages: seq<seq<Transaction>>, order: seq<nat>,
                   sorted: seq<Transaction>, out: seq<Transaction>)
    requires AllPages(pages, parts, limit) && InRange(order, |parts|)
    requires multiset(sorted) == multiset(Gather(pages, order)) && out == sorted[..Min(limit, |sorted|)]
    ensures multiset(out) <= Sum(parts, order) && |out| == Min(limit, |Sum(parts, order)|)
  {
    GatherCounts(pages, parts, order, limit);
    assert |sorted| == |multiset(sorted)| == |Gather(pages, order)|;
    assert sorted == out + sorted[|out|..];
  }

  method SortAndCut(all: seq<Transaction>, limit: nat) returns (out: seq<Transaction>, ghost sorted: seq<Transaction>)
    ensures Sorted(sorted) && multiset(sorted) == multiset(all) && out == sorted[..Min(limit, |sorted|)]
  {
    var buffer := new Transaction[|all|](i requires 0 <= i < |all| => all[i]);
    assert buffer[..] == all;
    SortByCreatedAt(buffer);
    sorted := buffer[..];
    out := if buffer.Length > limit then buffer[..limit] else buffer[..];
  }

  /** Scan every pool for stuck rows. If no pool fails, the result is `limit` of all
      the stuck rows, or all of them, sorted, with nothing strictly older left out --
      for any arrival order and any choice each pool makes among equally old rows. */
  method GetPendingBefore(r: Router, ghost rows: seq<seq<Transaction>>, cutoff: int, limit: int,
                          answers: seq<Option<seq<Transaction>>>, order: seq<nat>)
    returns (res: Option<seq<Transaction>>)
    requires WellFormed(r) && |rows| == |answers| == r.pools && Arrival(order, r.pools)
    requires limit > 0 ==> forall p | 0 <= p < r.pools :: PoolAnswers(r, rows[p], cutoff, limit, p, answers[p])
    ensures limit <= 0 ==> res == Some([])
    ensures limit > 0 ==> (res.None? <==> exists p :: 0 <= p < r.pools && answers[p].None?)
    ensures limit > 0 && res.Some? ==> IsOldest(StuckByPool(r, rows, cutoff), limit, res.value)
  {
    if limit <= 0 {
      return Some([]);
    }
    var first := PhysicalToFirstLogical(r);
    ghost var pages := StampedPages(answers, first);
    var all, failed := GatherPages(answers, order, first, pages);
    if failed {
      return None;
    }
    EveryPoolAnswered(answers, order);
    StampedPagesOk(r, rows, cutoff, limit, answers, first);
    var out;
    ghost var sorted;
    out, sorted := SortAndCut(all, limit);
    CutIsOldest(StuckByPool(r, rows, cutoff), limit, pages, order, sorted, out);
    res := Some(out);
  }

  lemma EveryPoolAnswered(answers: seq<Option<seq<Transaction>>>, order: seq<nat>)
    requires Arrival(order, |answers|) && forall i | 0 <= i < |order| :: answers[order[i]].Some?
    ensures forall p | 0 <= p < |answers| :: answers[p].Some?
  {
    forall p: nat | p < |answers| ensures answers[p].Some? {
      assert p in order;
    }
  }

  function StampedPages(answers: seq<Option<seq<Transaction>>>, first: seq<nat>): (pages: seq<seq<Transaction>>)
    requires |first| == |answers|
    ensures |pages| == |answers|
    ensures forall p | 0 <= p < |answers| && answers[p].Some? :: pages[p] == Stamp(answers[p].value, first[p])
  {
    seq(|answers|, p requires 0 <= p < |answers| => if answers[p].Some? then Stamp(answers[p].value, first[p]) else [])
  }

  lemma StampedPagesOk(r: Router, rows: seq<seq<Transaction>>, cutoff: int, limit: nat,
                       answers: seq<Option<seq<Transaction>>>, first: seq<nat>)
    requires r.pools > 0 && |rows| == |answers| == |first| == r.pools
    requires forall p: nat | p < r.pools :: first[p] == FirstShard(r, p)
    requires forall p | 0 <= p < r.pools :: answers[p].Some? && PoolAnswers(r, rows[p], cutoff, limit, p, answers[p])
    ensures AllPages(StampedPages(answers, first), StuckByPool(r, rows, cutoff), limit)
  {
    var pages, parts := StampedPages(answers, first), StuckByPool(r, rows, cutoff);
    forall p: nat | p < |pages| ensures IsPage(pages[p], parts[p], limit) {
      assert PoolAnswers(r, rows[p], cutoff, limit, p, answers[p]);
      assert first[p] == FirstShard(r, p);
    }
  }

  /** Every row of a scan names, by its stamp, the pool it is stored in: a later status
      write routed by that stamp reaches it. */
  lemma ScannedRowsRouteHome(r: Router, rows: seq<seq<Transaction>>, cutoff: int, limit: nat, out: seq<Transaction>,
                             x: Transaction)
    requires WellFormed(r) && |rows| == r.pools
    requires IsOldest(StuckByPool(r, rows, cutoff), limit, out) && x in out
    ensures exists p: nat, y :: p < r.pools && y in rows[p] && x == y.(shard := x.shard) && For(r, x.shard) == Some(p)
  {
    assert x in multiset(out);
    var parts := StuckByPool(r, rows, cutoff);
    var p := InSomePart(parts, Positions(|rows|), x);
    assert x in StuckIn(rows[p], cutoff, FirstShard(r, p));
    var y := StuckCameFrom(rows[p], cutoff, FirstShard(r, p), x);
    ShardRoutesHome(r, p);
  }

  lemma {:induction false} InSomePart(parts: seq<multiset<Transaction>>, at: seq<nat>, x: Transaction) returns (p: nat)
    requires InRange(at, |parts|) && x in Sum(parts, at)
    ensures p < |parts| && x in parts[p]
  {
    p := at[|at| - 1];
    if x !in parts[p] {
      p := InSomePart(parts, at[..|at| - 1], x);
    }
  }

  lemma {:induction false} StuckCameFrom(rows: seq<Transaction>, cutoff: int, shard: nat, x: Transaction)
    returns (y: Transaction)
    requires x in StuckIn(rows, cutoff, shard)
    ensures y in rows && x == y.(shard := shard) && IsStuck(x.status) && x.createdAt < cutoff
  {
    y := rows[0];
    if x in StuckIn(rows[1..], cutoff, shard) {
      y := StuckCameFrom(rows[1..], cutoff, shard, x);
    }
  }
}
