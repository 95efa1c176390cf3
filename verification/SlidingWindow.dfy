/** The per-merchant sliding-window limiter: a Redis sorted set of admitted calls.
    Times are whole nanoseconds. */
module SlidingWindow {
  import opened Domain

  /** The sorted set: member to score. */
  type ZSet = map<nat, nat>

  /** One call with the member it would add. `Allow` uses the numeral of `now`. */
  datatype Call = Call(now: nat, limit: int, member: nat)

  function AllowCall(now: nat, limit: int): Call { Call(now, limit, now) }

  /** ZREMRANGEBYSCORE from 0 to `bound`. */
  function Trim(z: ZSet, bound: int): ZSet { map m | m in z && z[m] > bound :: z[m] }

  predicate Admits(w: nat, z: ZSet, c: Call) { c.limit > 0 && |Trim(z, c.now - w)| < c.limit }

  /** A limit of zero or less is refused without touching Redis. */
  function After(w: nat, z: ZSet, c: Call): ZSet {
    if c.limit <= 0 then z
    else if Admits(w, z, c) then Trim(z, c.now - w)[c.member := c.now]
    else Trim(z, c.now - w)
  }

  class RateKey {
    var entries: ZSet

    constructor ()
      ensures entries == map[]
    {
      entries := map[];
    }

    /** The script, behind the guard that keeps non-positive limits away from it. The
        count it reports back is what is left, never below zero. */
    method Allow(w: nat, c: Call) returns (allowed: bool, remaining: nat)
      modifies this
      ensures entries == After(w, old(entries), c) && allowed == Admits(w, old(entries), c)
      ensures allowed ==> remaining == c.limit - |Trim(old(entries), c.now - w)| - 1
      ensures !allowed ==> remaining == 0
    {
      if c.limit <= 0 {
        return false, 0;
      }
      entries := Trim(entries, c.now - w);
      var count := |entries|;
      if count >= c.limit {
        return false, 0;
      }
      entries := entries[c.member := c.now];
      return true, c.limit - (count + 1);
    }
  }

  // --- runs and the reference ------------------------------------------------

  ghost predicate Nondecreasing(calls: seq<Call>) {
    forall i, j | 0 <= i <= j < |calls| :: calls[i].now <= calls[j].now
  }

  /** The sorted set after the first `n` calls. */
  function At(w: nat, calls: seq<Call>, n: nat): ZSet
    requires n <= |calls|
  {
    if n == 0 then map[] else After(w, At(w, calls, n - 1), calls[n - 1])
  }

  predicate Admitted(w: nat, calls: seq<Call>, n: nat)
    requires n < |calls|
  {
    Admits(w, At(w, calls, n), calls[n])
  }

  /** Admitted calls, the latest first. */
  datatype History = Empty | Then(call: Call, earlier: History)

  /** The full history of the first `n` calls. */
  function Before(w: nat, calls: seq<Call>, n: nat): History
    requires n <= |calls|
  {
    if n == 0 then Empty
    else if Admitted(w, calls, n - 1) then Then(calls[n - 1], Before(w, calls, n - 1))
    else Before(w, calls, n - 1)
  }

  /** The reference: how many calls of a history lie after `lo`. */
  function CountAfter(h: History, lo: int): nat {
    match h
    case Empty => 0
    case Then(c, g) => CountAfter(g, lo) + if c.now > lo then 1 else 0
  }

  /** Every call of a history, never trimmed. */
  function Untrimmed(h: History): ZSet {
    match h
    case Empty => map[]
    case Then(c, g) => Untrimmed(g)[c.member := c.now]
  }

  lemma TrimTwice(z: ZSet, a: int, b: int)
    requires a <= b
    ensures Trim(Trim(z, a), b) == Trim(z, b)
  {
  }

  lemma TrimAdd(z: ZSet, m: nat, t: nat, b: int)
    ensures t > b ==> Trim(z[m := t], b) == Trim(z, b)[m := t]
    ensures t <= b ==> Trim(z[m := t], b) == Trim(z, b) - {m}
  {
  }

  lemma TrimStep(z: ZSet, u: ZSet, a: int, b: int, m: nat, t: nat)
    requires a <= b && Trim(z, b) == Trim(u, b)
    ensures Trim(Trim(z, a), b) == Trim(u, b) && Trim(Trim(z, a)[m := t], b) == Trim(u[m := t], b)
  {
    TrimTwice(z, a, b);
    TrimAdd(Trim(z, a), m, t, b);
    TrimAdd(u, m, t, b);
  }

  lemma TrimmedAgreesAfter(w: nat, z: ZSet, h: History, c: Call, b: int)
    requires c.now - w <= b && Trim(z, b) == Trim(Untrimmed(h), b)
    ensures Trim(After(w, z, c), b) == Trim(Untrimmed(if Admits(w, z, c) then Then(c, h) else h), b)
  {
    TrimStep(z, Untrimmed(h), c.now - w, b, c.member, c.now);
  }

  /** Trimming early loses nothing that a later trim would keep. */
  lemma {:induction false} TrimmedAgrees(w: nat, calls: seq<Call>, n: nat, b: int)
    requires Nondecreasing(calls) && n <= |calls| && (n > 0 ==> calls[n - 1].now - w <= b)
    ensures Trim(At(w, calls, n), b) == Trim(Untrimmed(Before(w, calls, n)), b)
  {
    if n > 0 {
      assert n > 1 ==> calls[n - 2].now <= calls[n - 1].now;
      TrimmedAgrees(w, calls, n - 1, b);
      TrimmedAgreesAfter(w, At(w, calls, n - 1), Before(w, calls, n - 1), calls[n - 1], b);
    }
  }

  /** No call of a history is later than `t`, nor than one admitted after it. */
  ghost predicate Upto(h: History, t: nat) {
    match h
    case Empty => true
    case Then(c, g) => c.now <= t && Upto(g, c.now)
  }

  lemma {:induction false} BeforeIsUpto(w: nat, calls: seq<Call>, n: nat, t: nat)
    requires Nondecreasing(calls) && n <= |calls| && (n > 0 ==> calls[n - 1].now <= t)
    ensures Upto(Before(w, calls, n), t)
  {
    if n > 0 {
      assert n > 1 ==> calls[n - 2].now <= calls[n - 1].now;
      BeforeIsUpto(w, calls, n - 1, calls[n - 1].now);
      BeforeIsUpto(w, calls, n - 1, t);
    }
  }

  /** Some call after `b` has this member. */
  ghost predicate Seen(h: History, b: int, m: nat) {
    match h
    case Empty => false
    case Then(c, g) => (c.now > b && c.member == m) || Seen(g, b, m)
  }

  /** Two calls after `b` never share a member. */
  ghost predicate Distinct(h: History, b: int) {
    match h
    case Empty => true
    case Then(c, g) => Distinct(g, b) && !(c.now > b && Seen(g, b, c.member))
  }

  lemma {:induction false} NothingAfterLast(h: History, t: nat, b: int, m: nat)
    requires Upto(h, t) && t <= b
    ensures !Seen(h, b, m)
  {
    if h.Then? {
      NothingAfterLast(h.earlier, h.call.now, b, m);
    }
  }

  lemma {:induction false} UntrimmedHolds(h: History, t: nat, b: int, m: nat)
    requires Upto(h, t)
    ensures m in Trim(Untrimmed(h), b) <==> Seen(h, b, m)
  {
    if h.Then? {
      UntrimmedHolds(h.earlier, h.call.now, b, m);
      if h.call.now <= b {
        NothingAfterLast(h.earlier, h.call.now, b, m);
      }
    }
  }

  lemma CardAdd(z: ZSet, m: nat, t: nat, b: int)
    ensures t > b ==> |Trim(z[m := t], b)| == |Trim(z, b)| + (if m in Trim(z, b) then 0 else 1)
    ensures t <= b && m !in Trim(z, b) ==> Trim(z[m := t], b) == Trim(z, b)
  {
    TrimAdd(z, m, t, b);
  }

  /** The set holds as many entries as the history has calls after `b` exactly when no two
      of those share a member -- the same nanosecond, for `Allow`. */
  lemma {:induction false} CardIsCountIff(h: History, t: nat, b: int)
    requires Upto(h, t)
    ensures |Trim(Untrimmed(h), b)| <= CountAfter(h, b)
    ensures |Trim(Untrimmed(h), b)| == CountAfter(h, b) <==> Distinct(h, b)
  {
    if h.Empty? {
      assert Trim(map[], b) == map[];
    } else {
      var c, g := h.call, h.earlier;
      CardIsCountIff(g, c.now, b);
      UntrimmedHolds(g, c.now, b, c.member);
      CardAdd(Untrimmed(g), c.member, c.now, b);
      if c.now <= b {
        NothingAfterLast(g, c.now, b, c.member);
      }
    }
  }

  ghost predicate Counts(z: ZSet, h: History, lo: int) { |Trim(z, lo)| == CountAfter(h, lo) }

  lemma DecisionIsCount(w: nat, z: ZSet, h: History, c: Call)
    requires Upto(h, c.now) && Trim(z, c.now - w) == Trim(Untrimmed(h), c.now - w)
    ensures Counts(z, h, c.now - w) <==> Distinct(h, c.now - w)
    ensures Distinct(h, c.now - w) ==> (Admits(w, z, c) <==> CountAfter(h, c.now - w) < c.limit)
  {
    CardIsCountIff(h, c.now, c.now - w);
  }

  /** The limiter counts what the full history counts exactly when no two admitted calls in
      the window share a member, and then decides as the reference does: admit when fewer
      than `limit` admitted calls lie in (now - w, now]. */
  lemma DecisionIsReference(w: nat, calls: seq<Call>, n: nat, lo: int)
    requires Nondecreasing(calls) && n < |calls| && lo == calls[n].now - w
    ensures Counts(At(w, calls, n), Before(w, calls, n), lo) <==> Distinct(Before(w, calls, n), lo)
    ensures Distinct(Before(w, calls, n), lo) ==>
              (Admitted(w, calls, n) <==> CountAfter(Before(w, calls, n), lo) < calls[n].limit)
  {
    assert n > 0 ==> calls[n - 1].now <= calls[n].now;
    TrimmedAgrees(w, calls, n, lo);
    BeforeIsUpto(w, calls, n, calls[n].now);
    DecisionIsCount(w, At(w, calls, n), Before(w, calls, n), calls[n]);
  }

  lemma AfterSameInstant(w: nat, z: ZSet, t: nat)
    requires w > 0 && (z == map[] || z == map[t := t])
    ensures Admits(w, z, AllowCall(t, 2)) && After(w, z, AllowCall(t, 2)) == map[t := t]
  {
    assert Trim(z, t - w) == z;
    assert z.Keys <= {t};
  }

  /** Two calls in one nanosecond share a member, and the window then admits more than
      its limit: three calls at one instant pass a limit of two. */
  lemma SameInstantIsUndercounted(w: nat, t: nat)
    requires w > 0
    ensures var c := AllowCall(t, 2); Before(w, [c, c, c], 3) == Then(c, Then(c, Then(c, Empty)))
  {
    var c := AllowCall(t, 2);
    var calls := [c, c, c];
    AfterSameInstant(w, map[], t);
    AfterSameInstant(w, map[t := t], t);
    assert At(w, calls, 0) == map[];
    assert At(w, calls, 1) == After(w, At(w, calls, 0), c) == map[t := t];
    assert At(w, calls, 2) == After(w, At(w, calls, 1), c) == map[t := t];
    assert Before(w, calls, 1) == Then(c, Empty);
    assert Before(w, calls, 2) == Then(c, Before(w, calls, 1));
  }

  // --- no window overflows ---------------------------------------------------

  /** Calls of a history in the half-open window (lo, lo + w]. */
  function CountIn(h: History, lo: int, w: nat): nat {
    match h
    case Empty => 0
    case Then(c, g) => CountIn(g, lo, w) + if lo < c.now <= lo + w then 1 else 0
  }

  lemma {:induction false} WindowInside(h: History, lo: int, w: nat, b: int)
    requires b <= lo
    ensures CountIn(h, lo, w) <= CountAfter(h, b)
  {
    if h.Then? {
      WindowInside(h.earlier, lo, w, b);
    }
  }

  ghost predicate DistinctMembers(calls: seq<Call>) {
    forall i, j | 0 <= i < j < |calls| :: calls[i].member != calls[j].member
  }

  lemma {:induction false} BeforeIsDistinct(w: nat, calls: seq<Call>, n: nat, b: int)
    requires DistinctMembers(calls) && n <= |calls|
    ensures Distinct(Before(w, calls, n), b)
  {
    if n > 0 {
      BeforeIsDistinct(w, calls, n - 1, b);
      NotSeenBefore(w, calls, n - 1, b, n - 1);
    }
  }

  lemma {:induction false} NotSeenBefore(w: nat, calls: seq<Call>, n: nat, b: int, k: nat)
    requires DistinctMembers(calls) && n <= k < |calls|
    ensures !Seen(Before(w, calls, n), b, calls[k].member)
  {
    if n > 0 {
      assert calls[n - 1].member != calls[k].member;
      NotSeenBefore(w, calls, n - 1, b, k);
    }
  }

  lemma AdmittedLeavesRoom(w: nat, calls: seq<Call>, n: nat, lo: int)
    requires Nondecreasing(calls) && DistinctMembers(calls) && n < |calls| && calls[n].now - w <= lo
    requires Admitted(w, calls, n)
    ensures CountIn(Before(w, calls, n), lo, w) < calls[n].limit
  {
    var b := calls[n].now - w;
    BeforeIsDistinct(w, calls, n, b);
    DecisionIsReference(w, calls, n, b);
    WindowInside(Before(w, calls, n), lo, w, b);
  }

  /** With distinct members and a fixed limit, no half-open window of the run, wherever
      it starts, holds more than `limit` admitted calls. */
  lemma {:induction false} NoWindowOverflows(w: nat, calls: seq<Call>, n: nat, lo: int, limit: nat)
    requires Nondecreasing(calls) && DistinctMembers(calls) && n <= |calls|
    requires forall i | 0 <= i < |calls| :: calls[i].limit == limit
    ensures CountIn(Before(w, calls, n), lo, w) <= limit
  {
    if n > 0 {
      NoWindowOverflows(w, calls, n - 1, lo, limit);
      if Admitted(w, calls, n - 1) && lo < calls[n - 1].now <= lo + w {
        AdmittedLeavesRoom(w, calls, n - 1, lo);
      }
    }
  }

  // --- the expiring key ------------------------------------------------------

  const NS_PER_MS: nat := 1000000

  /** Redis's clock: the same time in whole milliseconds. */
  function Millis(now: nat): nat { now / NS_PER_MS }

  function CeilMillis(w: nat): nat { (w + NS_PER_MS - 1) / NS_PER_MS }

  /** The key with its expiry, which only an admission sets. */
  datatype Expiring = Expiring(z: ZSet, deadline: nat)

  function Visible(e: Expiring, now: nat): ZSet { if KeyExpired(Millis(now), e.deadline) then map[] else e.z }

  function ExpiringAfter(w: nat, e: Expiring, c: Call): Expiring {
    var z := Visible(e, c.now);
    Expiring(After(w, z, c), if Admits(w, z, c) then Millis(c.now) + CeilMillis(w) else e.deadline)
  }

  function ExpiringAt(w: nat, calls: seq<Call>, n: nat): Expiring
    requires n <= |calls|
  {
    if n == 0 then Expiring(map[], 0) else ExpiringAfter(w, ExpiringAt(w, calls, n - 1), calls[n - 1])
  }

  /** Every entry was added early enough to be out of the window once the key may go. */
  ghost predicate DeadlineCovers(w: nat, e: Expiring) {
    forall m | m in e.z :: Millis(e.z[m]) + CeilMillis(w) <= e.deadline
  }

  lemma PastDeadlineIsTrimmed(w: nat, score: nat, now: nat, deadline: nat)
    requires Millis(score) + CeilMillis(w) <= deadline < Millis(now)
    ensures score < now - w
  {
  }

  lemma {:induction false} DeadlineHolds(w: nat, calls: seq<Call>, n: nat)
    requires Nondecreasing(calls) && n <= |calls|
    ensures DeadlineCovers(w, ExpiringAt(w, calls, n))
    ensures n < |calls| ==> forall m | m in ExpiringAt(w, calls, n).z :: ExpiringAt(w, calls, n).z[m] <= calls[n].now
  {
    if n > 0 {
      DeadlineHolds(w, calls, n - 1);
      var e, c := ExpiringAt(w, calls, n - 1), calls[n - 1];
      assert n < |calls| ==> c.now <= calls[n].now;
      forall m | m in e.z ensures Millis(e.z[m]) <= Millis(c.now) {
        MillisMonotone(e.z[m], c.now);
      }
    }
  }

  lemma MillisMonotone(a: nat, b: nat)
    requires a <= b
    ensures Millis(a) <= Millis(b)
  {
  }

  /** Two sorted sets no trim at or after `a` can tell apart. */
  ghost predicate SameFrom(z: ZSet, u: ZSet, a: int) {
    forall b: int :: a <= b ==> Trim(z, b) == Trim(u, b)
  }

  lemma SameFromAfter(w: nat, z: ZSet, u: ZSet, c: Call)
    requires SameFrom(z, u, c.now - w)
    ensures Admits(w, z, c) == Admits(w, u, c)
    ensures SameFrom(After(w, z, c), After(w, u, c), c.now - w)
  {
    forall b: int | c.now - w <= b ensures Trim(After(w, z, c), b) == Trim(After(w, u, c), b) {
      TrimStep(z, u, c.now - w, b, c.member, c.now);
      TrimStep(u, u, c.now - w, b, c.member, c.now);
    }
  }

  lemma ExpiredIsTrimmed(w: nat, e: Expiring, now: nat)
    requires DeadlineCovers(w, e)
    ensures SameFrom(Visible(e, now), e.z, now - w)
  {
    if Millis(now) > e.deadline {
      forall m | m in e.z ensures e.z[m] < now - w {
        PastDeadlineIsTrimmed(w, e.z[m], now, e.deadline);
      }
    }
  }

  /** A key that expires decides every call as one that never does. */
  lemma {:induction false} ExpiryIsInvisible(w: nat, calls: seq<Call>, n: nat)
    requires Nondecreasing(calls) && n < |calls|
    ensures Admits(w, Visible(ExpiringAt(w, calls, n), calls[n].now), calls[n]) == Admitted(w, calls, n)
    ensures SameFrom(ExpiringAt(w, calls, n + 1).z, At(w, calls, n + 1), calls[n].now - w)
  {
    var e, c := ExpiringAt(w, calls, n), calls[n];
    if n > 0 {
      ExpiryIsInvisible(w, calls, n - 1);
      assert calls[n - 1].now <= c.now;
    }
    DeadlineHolds(w, calls, n);
    ExpiredIsTrimmed(w, e, c.now);
    SameFromAfter(w, Visible(e, c.now), At(w, calls, n), c);
  }
}
