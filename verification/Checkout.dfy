/** The Redis lease lock: SET NX with a time to live, and compare-and-delete. */
module LeaseLock {
  import opened Domain

  datatype Lease = Lease(token: nat, expires: int)

  predicate Live(key: Option<Lease>, now: int) { key.Some? && !KeyExpired(now, key.value.expires) }

  function AfterAcquire(key: Option<Lease>, now: int, token: nat, ttl: nat): Option<Lease> {
    if Live(key, now) then key else Some(Lease(token, now + ttl))
  }

  function AfterRelease(key: Option<Lease>, now: int, token: nat): Option<Lease> {
    if Live(key, now) && key.value.token == token then None else key
  }

  // --- histories of one key --------------------------------------------------

  datatype Op = Acquire(now: int, token: nat, ttl: nat) | Release(now: int, token: nat)

  ghost predicate Nondecreasing(ops: seq<Op>) {
    forall i, j | 0 <= i <= j < |ops| :: ops[i].now <= ops[j].now
  }

  /** The key after the first `n` operations. */
  function KeyAt(ops: seq<Op>, n: nat): Option<Lease>
    requires n <= |ops|
  {
    if n == 0 then None
    else
      match ops[n - 1]
      case Acquire(now, token, ttl) => AfterAcquire(KeyAt(ops, n - 1), now, token, ttl)
      case Release(now, token) => AfterRelease(KeyAt(ops, n - 1), now, token)
  }

  /** Operation `i` is an acquire that took the key. */
  predicate Took(ops: seq<Op>, i: nat) {
    i < |ops| && ops[i].Acquire? && !Live(KeyAt(ops, i), ops[i].now)
  }

  ghost predicate ReleasedBetween(ops: seq<Op>, i: nat, n: nat, token: nat) {
    exists k :: i < k < n && k < |ops| && ops[k] == Release(ops[k].now, token)
  }

  /** Acquire `i` took the key, has not been released among the first `n` operations, and its
      time has not run out at `now`. */
  ghost predicate Holding(ops: seq<Op>, i: nat, n: nat, now: int) {
    && i < n && Took(ops, i) && now <= ops[i].now + ops[i].ttl
    && !ReleasedBetween(ops, i, n, ops[i].token)
  }

  lemma {:induction false} HolderKeepsKey(ops: seq<Op>, i: nat, n: nat, now: int)
    requires Nondecreasing(ops) && n <= |ops| && Holding(ops, i, n, now) && (n > 0 ==> ops[n - 1].now <= now)
    ensures KeyAt(ops, n) == Some(Lease(ops[i].token, ops[i].now + ops[i].ttl))
    decreases n
  {
    if i < n - 1 {
      assert ops[n - 2].now <= ops[n - 1].now;
      assert !ReleasedBetween(ops, i, n - 1, ops[i].token);
      HolderKeepsKey(ops, i, n - 1, now);
      assert ops[n - 1].Release? ==> ops[n - 1].token != ops[i].token;
    }
  }

  lemma {:induction false} KeyHasHolder(ops: seq<Op>, n: nat, now: int) returns (i: nat)
    requires Nondecreasing(ops) && n <= |ops| && Live(KeyAt(ops, n), now) && (n > 0 ==> ops[n - 1].now <= now)
    ensures Holding(ops, i, n, now)
  {
    i := n - 1;
    if !Took(ops, n - 1) {
      assert n > 1 ==> ops[n - 2].now <= ops[n - 1].now;
      i := KeyHasHolder(ops, n - 1, now);
      HolderKeepsKey(ops, i, n - 1, now);
    }
  }

  /** The key is live at `now` exactly when some earlier acquire still holds it. */
  lemma LiveIffHeld(ops: seq<Op>, now: int)
    requires Nondecreasing(ops) && (ops != [] ==> ops[|ops| - 1].now <= now)
    ensures Live(KeyAt(ops, |ops|), now) <==> exists i: nat :: Holding(ops, i, |ops|, now)
  {
    if Live(KeyAt(ops, |ops|), now) {
      var i := KeyHasHolder(ops, |ops|, now);
    } else {
      forall i: nat ensures !Holding(ops, i, |ops|, now) {
        if Holding(ops, i, |ops|, now) {
          HolderKeepsKey(ops, i, |ops|, now);
        }
      }
    }
  }

  lemma {:induction false} KeyPrefix(ops: seq<Op>, op: Op, n: nat)
    requires n <= |ops|
    ensures KeyAt(ops + [op], n) == KeyAt(ops, n)
  {
    if n > 0 {
      KeyPrefix(ops, op, n - 1);
    }
  }

  /** The key with its history. */
  class LockKey {
    var held: Option<Lease>
    ghost var ops: seq<Op>

    ghost predicate Valid()
      reads this
    {
      Nondecreasing(ops) && held == KeyAt(ops, |ops|)
    }

    /** The key's clock has not passed `now`. */
    ghost predicate Reached(now: int)
      reads this
    {
      ops != [] ==> ops[|ops| - 1].now <= now
    }

    constructor ()
      ensures Valid() && ops == []
    {
      held, ops := None, [];
    }

    /** Refused exactly while an earlier acquire is unreleased and within its time. */
    method Acquire(now: int, token: nat, ttl: nat) returns (got: bool)
      requires Valid() && Reached(now)
      modifies this
      ensures Valid() && ops == old(ops) + [Op.Acquire(now, token, ttl)]
      ensures !got <==> exists i: nat :: Holding(old(ops), i, |old(ops)|, now)
      ensures got <==> Took(ops, |ops| - 1)
    {
      LiveIffHeld(ops, now);
      KeyPrefix(ops, Op.Acquire(now, token, ttl), |ops|);
      got := !Live(held, now);
      held := AfterAcquire(held, now, token, ttl);
      ops := ops + [Op.Acquire(now, token, ttl)];
    }

    /** Compare and delete: the caller's own lease is gone, and whoever else holds the key
        goes on holding it. */
    method Release(now: int, token: nat)
      requires Valid() && Reached(now)
      modifies this
      ensures Valid() && ops == old(ops) + [Op.Release(now, token)]
      ensures forall i: nat | i < |old(ops)| && old(ops)[i].Acquire? ::
                Holding(ops, i, |ops|, now) <==> Holding(old(ops), i, |old(ops)|, now) && old(ops)[i].token != token
    {
      ghost var before := ops;
      KeyPrefix(ops, Op.Release(now, token), |ops|);
      held := AfterRelease(held, now, token);
      ops := ops + [Op.Release(now, token)];
      forall i: nat | i < |before| && before[i].Acquire?
        ensures Holding(ops, i, |ops|, now) <==> Holding(before, i, |before|, now) && before[i].token != token
      {
        HoldingAfterRelease(before, now, token, i);
      }
    }
  }

  lemma HoldingAfterRelease(before: seq<Op>, now: int, token: nat, i: nat)
    requires i < |before| && before[i].Acquire?
    ensures var ops := before + [Release(now, token)];
            Holding(ops, i, |ops|, now) <==> Holding(before, i, |before|, now) && before[i].token != token
  {
    var ops := before + [Release(now, token)];
    KeyPrefix(before, Release(now, token), i);
    assert ops[i] == before[i] && Took(ops, i) == Took(before, i);
    var t := before[i].token;
    assert ReleasedBetween(before, i, |before|, t) ==> ReleasedBetween(ops, i, |ops|, t) by {
      if ReleasedBetween(before, i, |before|, t) {
        var k :| i < k < |before| && before[k] == Release(before[k].now, t);
        assert ops[k] == before[k];
      }
    }
    assert t == token ==> ReleasedBetween(ops, i, |ops|, t) by {
      assert ops[|before|] == Release(now, token);
    }
    assert ReleasedBetween(ops, i, |ops|, t) && t != token ==> ReleasedBetween(before, i, |before|, t) by {
      if ReleasedBetween(ops, i, |ops|, t) && t != token {
        var k :| i < k < |ops| && ops[k] == Release(ops[k].now, t);
        assert before[k] == ops[k];
      }
    }
  }
}

/** Lazy checkout: any number of `Resolve` calls on any number of pods, for one
    order, with a lease lock, a re-check under it, one Stripe call, a persist and a
    per-pod URL cache. Every external call is one atomic action that may fail. */
module Checkout {
  import opened Domain
  import opened LeaseLock

  type Pid = nat
  type Pod = nat

  const LEASE_MS: nat := 10000

  /** What all calls share: the order, the gateway's settings, and whether the
      provider replays its answer for a repeated idempotency key. */
  datatype Shop = Shop(merchant: string, order: string, successUrl: string, cancelUrl: string, replays: bool)

  datatype SessionRequest = SessionRequest(
    amount: int64, currency: string, types: seq<string>, success: string, cancel: string, reference: string,
    merchant: string)

  datatype Session = Session(id: string, url: string, pi: string)

  /** One request that reached Stripe and was answered with a session. */
  datatype Call = Call(key: string, req: SessionRequest, session: Session)

  function CheckoutUrl(sessionId: string): string { "https://checkout.stripe.com/c/pay/" + sessionId }

  function WithOrderQuery(base: string, order: string): string {
    if base == "" then "" else base + (if '?' in base then "&" else "?") + "order_id=" + order
  }

  function RequestFor(k: Shop, x: Transaction): SessionRequest {
    SessionRequest(x.amount, ToLower(x.currency), ["card"], WithOrderQuery(k.successUrl, x.order),
                   WithOrderQuery(k.cancelUrl, x.order), x.order, x.merchant)
  }

  function KeyFor(x: Transaction): string { "checkout:" + x.merchant + ":" + x.order }

  // --- processes -------------------------------------------------------------

  datatype Local =
    | Start(pod: Pod)
    | Reading(pod: Pod)
    | NeedLock(pod: Pod, x: Transaction)
    | Waiting(pod: Pod)
    | Locked(pod: Pod, x: Transaction, lease: Lease)
    | Checked(pod: Pod, x: Transaction, lease: Lease)
    | Calling(pod: Pod, x: Transaction, lease: Lease)
    | Made(pod: Pod, lease: Lease, session: Session)
    | Answer(pod: Pod, url: string, under: Option<Lease>)
    | Leaving(lease: Lease, reply: Option<string>)
    | Done(reply: Option<string>)

  /** The lease a process believes it holds. */
  function LeaseOf(l: Local): Option<Lease> {
    match l
    case Locked(_, _, lease) => Some(lease)
    case Checked(_, _, lease) => Some(lease)
    case Calling(_, _, lease) => Some(lease)
    case Made(_, lease, _) => Some(lease)
    case Answer(_, _, under) => under
    case Leaving(lease, _) => Some(lease)
    case _ => None
  }

  datatype State = State(
    clock: int, lock: Option<Lease>, nextToken: nat, row: Option<Transaction>, calls: seq<Call>,
    cache: map<Pod, string>, procs: map<Pid, Local>)

  /** How an external call turned out: `Lost` took effect but reported an error. */
  datatype Outcome = Fine | Fails | Lost | Answered(session: Session) | AnswerLost(session: Session)

  datatype Action =
    | Tick(now: int)
    | Arrive(pid: Pid, pod: Pod)
    | Crash(pid: Pid)
    | Evict(pod: Pod)
    | RowInserted(x: Transaction)
    | RowUpdated(status: Status, pi: string)
    | Go(pid: Pid, outcome: Outcome)

  function SessionOf(row: Option<Transaction>): string { if row.None? then "" else row.value.session }

  /** What Stripe may answer: with replay, an earlier answer to the same key and the
      same request, and an error on the same key with another request; else anew. */
  predicate StripeAnswers(k: Shop, calls: seq<Call>, call: Call) {
    && call.session.id != ""
    && (k.replays ==> forall c | c in calls && c.key == call.key :: c.req == call.req && c.session == call.session)
  }

  ghost predicate Enabled(k: Shop, s: State, a: Action) {
    match a
    case Tick(now) => s.clock <= now
    case Arrive(pid, _) => pid !in s.procs
    case Crash(pid) => pid in s.procs
    case Evict(_) => true
    case RowInserted(x) => s.row.None? && x.merchant == k.merchant && x.order == k.order && x.session == ""
    case RowUpdated(_, _) => s.row.Some?
    case Go(pid, o) =>
      && pid in s.procs && !s.procs[pid].Done?
      && (o.Answered? || o.AnswerLost? ==>
            s.procs[pid].Calling? && StripeAnswers(k, s.calls, CallBy(k, s.procs[pid].x, o.session)))
      && (s.procs[pid].Calling? ==> o.Fails? || o.Answered? || o.AnswerLost?)
  }

  function CallBy(k: Shop, x: Transaction, session: Session): Call { Call(KeyFor(x), RequestFor(k, x), session) }

  function Persist(row: Option<Transaction>, session: Session): Option<Transaction> {
    if row.None? then None
    else Some(row.value.(session := if session.id == "" then row.value.session else session.id,
                         pi := if session.pi == "" then row.value.pi else session.pi))
  }

  /** SET NX takes effect: the key was absent or expired, and the command arrived. */
  predicate TakesLock(s: State, l: Local, o: Outcome) {
    l.NeedLock? && !o.Fails? && !Live(s.lock, s.clock)
  }

  function NewLease(s: State): Lease { Lease(s.nextToken, s.clock + LEASE_MS) }

  /** Where one `Resolve` call goes after its next external call. */
  function NextLocal(s: State, l: Local, o: Outcome): Local {
    match l
    case Start(pod) => if pod in s.cache then Done(Some(s.cache[pod])) else Reading(pod)
    case Reading(pod) =>
      if !o.Fine? || s.row.None? then Done(None)
      else if SessionOf(s.row) != "" then Answer(pod, CheckoutUrl(SessionOf(s.row)), None)
      else NeedLock(pod, s.row.value)
    case NeedLock(pod, x) =>
      if TakesLock(s, l, o) && o.Fine? then Locked(pod, x, NewLease(s)) else Waiting(pod)
    case Waiting(pod) =>
      if o.Fine? && SessionOf(s.row) != "" then Answer(pod, CheckoutUrl(SessionOf(s.row)), None) else Done(None)
    case Locked(pod, x, lease) =>
      if o.Fine? && SessionOf(s.row) != "" then Answer(pod, CheckoutUrl(SessionOf(s.row)), Some(lease))
      else Checked(pod, x, lease)
    case Checked(pod, x, lease) => if o.Fine? then Calling(pod, x, lease) else Leaving(lease, None)
    case Calling(pod, x, lease) => if o.Answered? then Made(pod, lease, o.session) else Leaving(lease, None)
    case Made(pod, lease, session) => Answer(pod, session.url, Some(lease))
    case Answer(pod, url, under) => if under.None? then Done(Some(url)) else Leaving(under.value, Some(url))
    case Leaving(_, reply) => Done(reply)
    case Done(_) => l
  }

  function NextLock(s: State, l: Local, o: Outcome): Option<Lease> {
    if l.NeedLock? && !o.Fails? then AfterAcquire(s.lock, s.clock, s.nextToken, LEASE_MS)
    else if l.Leaving? && o.Fine? then AfterRelease(s.lock, s.clock, l.lease.token)
    else s.lock
  }

  function NextCalls(k: Shop, s: State, l: Local, o: Outcome): seq<Call> {
    if l.Calling? && (o.Answered? || o.AnswerLost?) then s.calls + [CallBy(k, l.x, o.session)] else s.calls
  }

  /** One action of one `Resolve` call. */
  function Step(k: Shop, s: State, pid: Pid, o: Outcome): State
    requires pid in s.procs
  {
    var l := s.procs[pid];
    State(s.clock, NextLock(s, l, o), if TakesLock(s, l, o) then s.nextToken + 1 else s.nextToken,
          if l.Made? && !o.Fails? then Persist(s.row, l.session) else s.row,
          NextCalls(k, s, l, o),
          if l.Answer? then s.cache[l.pod := l.url] else s.cache,
          s.procs[pid := NextLocal(s, l, o)])
  }

  function Next(k: Shop, s: State, a: Action): State
    requires a.Go? ==> a.pid in s.procs
  {
    match a
    case Tick(now) => s.(clock := now)
    case Arrive(pid, pod) => s.(procs := s.procs[pid := Start(pod)])
    case Crash(pid) => s.(procs := s.procs - {pid})
    case Evict(pod) => s.(cache := s.cache - {pod})
    case RowInserted(x) => s.(row := Some(x))
    case RowUpdated(status, pi) =>
      if s.row.None? then s
      else s.(row := Some(s.row.value.(status := status, pi := if pi == "" then s.row.value.pi else pi)))
    case Go(pid, o) => Step(k, s, pid, o)
  }

  ghost predicate Init(s: State) {
    s.lock == None && s.row == None && s.calls == [] && s.cache == map[] && s.procs == map[]
  }

  ghost predicate NextRel(k: Shop, s: State, a: Action, s': State) {
    Enabled(k, s, a) && s' == Next(k, s, a)
  }

  ghost predicate StepAt(k: Shop, states: seq<State>, acts: seq<Action>, n: nat) {
    n < |acts| && n + 1 < |states| && NextRel(k, states[n], acts[n], states[n + 1])
  }

  ghost predicate IsRun(k: Shop, states: seq<State>, acts: seq<Action>) {
    |states| == |acts| + 1 && Init(states[0]) && forall n: nat | n < |acts| :: StepAt(k, states, acts, n)
  }

  // --- what every run keeps --------------------------------------------------

  /** `url` leads to session `ss`: Stripe's own address for it, or the rebuilt one. */
  predicate Names(ss: Session, url: string) { url == ss.url || url == CheckoutUrl(ss.id) }

  ghost predicate NamesSome(calls: seq<Call>, url: string) {
    exists i :: 0 <= i < |calls| && Names(calls[i].session, url)
  }

  ghost predicate CalledWith(calls: seq<Call>, session: Session) {
    exists i :: 0 <= i < |calls| && calls[i].session == session
  }

  ghost predicate Stored(calls: seq<Call>, id: string) {
    exists i :: 0 <= i < |calls| && calls[i].session.id == id
  }

  predicate SameTerms(x: Transaction, y: Transaction) {
    x.merchant == y.merchant && x.order == y.order && x.amount == y.amount && x.currency == y.currency
  }

  ghost predicate LocalOk(s: State, l: Local) {
    && (LeaseOf(l).Some? ==> LeaseOf(l).value.token < s.nextToken)
    && (match l
        case NeedLock(_, x) => s.row.Some? && SameTerms(x, s.row.value)
        case Locked(_, x, _) => s.row.Some? && SameTerms(x, s.row.value)
        case Checked(_, x, _) => s.row.Some? && SameTerms(x, s.row.value)
        case Calling(_, x, _) => s.row.Some? && SameTerms(x, s.row.value)
        case Made(_, _, session) => s.row.Some? && CalledWith(s.calls, session) && session.id != ""
        case Answer(_, url, _) => NamesSome(s.calls, url)
        case Leaving(_, Some(url)) => NamesSome(s.calls, url)
        case Done(Some(url)) => NamesSome(s.calls, url)
        case _ => true)
  }

  /** Every request sent so far is the one this row asks for, under its key. */
  ghost predicate SameRequests(k: Shop, s: State) {
    s.calls != [] ==>
      && s.row.Some?
      && forall i | 0 <= i < |s.calls| ::
           s.calls[i].key == KeyFor(s.row.value) && s.calls[i].req == RequestFor(k, s.row.value)
  }

  ghost predicate Replays(calls: seq<Call>) {
    forall i, j | 0 <= i < j < |calls| && calls[i].key == calls[j].key :: calls[i].session == calls[j].session
  }

  ghost predicate CallsOk(k: Shop, s: State) {
    && (s.row.Some? ==> s.row.value.merchant == k.merchant && s.row.value.order == k.order)
    && SameRequests(k, s)
    && (k.replays ==> Replays(s.calls))
  }

  ghost predicate UrlsOk(s: State) {
    && (SessionOf(s.row) != "" ==> Stored(s.calls, SessionOf(s.row)))
    && (forall p | p in s.cache :: NamesSome(s.calls, s.cache[p]))
  }

  ghost predicate TokensOk(s: State) {
    && (s.lock.Some? ==> s.lock.value.token < s.nextToken)
    && (forall p | p in s.procs && s.lock.Some? && LeaseOf(s.procs[p]).Some? ::
          LeaseOf(s.procs[p]).value.token == s.lock.value.token ==> LeaseOf(s.procs[p]) == s.lock)
    && (forall p, q | p in s.procs && q in s.procs && p != q
                      && LeaseOf(s.procs[p]).Some? && LeaseOf(s.procs[q]).Some? ::
          LeaseOf(s.procs[p]).value.token != LeaseOf(s.procs[q]).value.token)
  }

  ghost predicate LocalsOk(s: State) {
    forall p | p in s.procs :: LocalOk(s, s.procs[p])
  }

  ghost predicate Inv(k: Shop, s: State) {
    CallsOk(k, s) && UrlsOk(s) && TokensOk(s) && LocalsOk(s)
  }

  predicate Grows(s: State, s': State) {
    && s.nextToken <= s'.nextToken && s.calls <= s'.calls
    && (s.row.Some? ==> s'.row.Some? && SameTerms(s.row.value, s'.row.value))
  }

  lemma NamesGrows(calls: seq<Call>, calls': seq<Call>, url: string)
    requires calls <= calls' && NamesSome(calls, url)
    ensures NamesSome(calls', url)
  {
    var i :| 0 <= i < |calls| && Names(calls[i].session, url);
    assert calls'[i] == calls[i];
  }

  lemma StoredGrows(calls: seq<Call>, calls': seq<Call>, id: string)
    requires calls <= calls' && Stored(calls, id)
    ensures Stored(calls', id)
  {
    var i :| 0 <= i < |calls| && calls[i].session.id == id;
    assert calls'[i] == calls[i];
  }

  lemma LocalGrows(s: State, s': State, l: Local)
    requires LocalOk(s, l) && Grows(s, s')
    ensures LocalOk(s', l)
  {
    match l
    case Made(_, _, session) =>
      var i :| 0 <= i < |s.calls| && s.calls[i].session == session;
      assert s'.calls[i] == s.calls[i];
    case Answer(_, url, _) => NamesGrows(s.calls, s'.calls, url);
    case Leaving(_, Some(url)) => NamesGrows(s.calls, s'.calls, url);
    case Done(Some(url)) => NamesGrows(s.calls, s'.calls, url);
    case _ =>
  }

  lemma RebuiltUrlNames(calls: seq<Call>, id: string)
    requires Stored(calls, id)
    ensures NamesSome(calls, CheckoutUrl(id))
  {
    var i :| 0 <= i < |calls| && calls[i].session.id == id;
    assert Names(calls[i].session, CheckoutUrl(id));
  }

  lemma MadeUrlNames(calls: seq<Call>, session: Session)
    requires CalledWith(calls, session)
    ensures NamesSome(calls, session.url) && Stored(calls, session.id)
  {
    var i :| 0 <= i < |calls| && calls[i].session == session;
    assert Names(calls[i].session, session.url);
  }

  lemma StepGrows(k: Shop, s: State, pid: Pid, o: Outcome)
    requires pid in s.procs
    ensures Grows(s, Step(k, s, pid, o))
  {
  }

  /** A lease a process gains, and a new lock, carry a token never used before. */
  lemma StepLease(k: Shop, s: State, pid: Pid, o: Outcome)
    requires pid in s.procs
    ensures var s' := Step(k, s, pid, o);
            && (|| LeaseOf(s'.procs[pid]).None? || LeaseOf(s'.procs[pid]) == LeaseOf(s.procs[pid])
                || (LeaseOf(s'.procs[pid]) == s'.lock && s'.lock.value.token == s.nextToken < s'.nextToken))
            && (s'.lock.None? || s'.lock == s.lock || s'.lock.value.token == s.nextToken < s'.nextToken)
  {
  }

  lemma UrlStepOk(k: Shop, s: State, pid: Pid, o: Outcome)
    requires UrlsOk(s) && Enabled(k, s, Go(pid, o)) && LocalOk(s, s.procs[pid]) && !s.procs[pid].Calling?
    ensures var s' := Step(k, s, pid, o); LocalOk(s', s'.procs[pid])
  {
    if SessionOf(s.row) != "" {
      RebuiltUrlNames(s.calls, SessionOf(s.row));
    }
    if s.procs[pid].Made? {
      MadeUrlNames(s.calls, s.procs[pid].session);
    }
  }

  lemma CallStepOk(k: Shop, s: State, pid: Pid, o: Outcome)
    requires Enabled(k, s, Go(pid, o)) && LocalOk(s, s.procs[pid]) && s.procs[pid].Calling?
    ensures var s' := Step(k, s, pid, o); LocalOk(s', s'.procs[pid])
  {
    var s' := Step(k, s, pid, o);
    if o.Answered? {
      assert s'.calls[|s.calls|].session == o.session;
    }
  }

  lemma StepKeepsCalls(k: Shop, s: State, pid: Pid, o: Outcome)
    requires CallsOk(k, s) && Enabled(k, s, Go(pid, o)) && LocalOk(s, s.procs[pid])
    ensures CallsOk(k, Step(k, s, pid, o))
  {
    var s' := Step(k, s, pid, o);
    if s'.calls != s.calls {
      var call := CallBy(k, s.procs[pid].x, o.session);
      assert s'.calls == s.calls + [call] && s'.row == s.row;
      AnswerKeepsReplays(k, s.calls, call);
    }
  }

  lemma AnswerKeepsReplays(k: Shop, calls: seq<Call>, call: Call)
    requires StripeAnswers(k, calls, call) && (k.replays ==> Replays(calls))
    ensures k.replays ==> Replays(calls + [call])
  {
    if k.replays {
      forall i, j | 0 <= i < j < |calls + [call]| && (calls + [call])[i].key == (calls + [call])[j].key
        ensures (calls + [call])[i].session == (calls + [call])[j].session
      {
        assert calls[i] in calls;
      }
    }
  }

  lemma StepKeepsUrls(k: Shop, s: State, pid: Pid, o: Outcome)
    requires UrlsOk(s) && Enabled(k, s, Go(pid, o)) && LocalOk(s, s.procs[pid])
    ensures UrlsOk(Step(k, s, pid, o))
  {
    var s' := Step(k, s, pid, o);
    StepGrows(k, s, pid, o);
    if SessionOf(s'.row) != "" {
      if SessionOf(s'.row) == SessionOf(s.row) {
        StoredGrows(s.calls, s'.calls, SessionOf(s.row));
      } else {
        MadeUrlNames(s.calls, s.procs[pid].session);
      }
    }
    forall p | p in s'.cache ensures NamesSome(s'.calls, s'.cache[p]) {
      NamesGrows(s.calls, s'.calls, s'.cache[p]);
    }
  }

  lemma StepKeepsTokens(k: Shop, s: State, pid: Pid, o: Outcome)
    requires TokensOk(s) && LocalsOk(s) && Enabled(k, s, Go(pid, o))
    ensures TokensOk(Step(k, s, pid, o))
  {
    StepLease(k, s, pid, o);
    StepGrows(k, s, pid, o);
    TokensKept(s, Step(k, s, pid, o), pid);
  }

  lemma TokensKept(s: State, s': State, pid: Pid)
    requires TokensOk(s) && LocalsOk(s) && s.nextToken <= s'.nextToken && pid in s.procs
    requires s'.procs.Keys == s.procs.Keys && forall p | p in s.procs && p != pid :: s'.procs[p] == s.procs[p]
    requires LeaseOf(s'.procs[pid]).None? || LeaseOf(s'.procs[pid]) == LeaseOf(s.procs[pid])
             || (LeaseOf(s'.procs[pid]) == s'.lock && s'.lock.value.token == s.nextToken < s'.nextToken)
    requires s'.lock.None? || s'.lock == s.lock || s'.lock.value.token == s.nextToken < s'.nextToken
    ensures TokensOk(s')
  {
  }

  lemma StepKeepsLocals(k: Shop, s: State, pid: Pid, o: Outcome)
    requires UrlsOk(s) && LocalsOk(s) && Enabled(k, s, Go(pid, o))
    ensures LocalsOk(Step(k, s, pid, o))
  {
    var s' := Step(k, s, pid, o);
    StepGrows(k, s, pid, o);
    forall p | p in s'.procs ensures LocalOk(s', s'.procs[p]) {
      if p != pid {
        LocalGrows(s, s', s.procs[p]);
      } else if s.procs[p].Calling? {
        CallStepOk(k, s, pid, o);
      } else {
        UrlStepOk(k, s, pid, o);
      }
    }
  }

  lemma GoKeepsInv(k: Shop, s: State, pid: Pid, o: Outcome)
    requires Inv(k, s) && Enabled(k, s, Go(pid, o))
    ensures Inv(k, Step(k, s, pid, o))
  {
    StepKeepsCalls(k, s, pid, o);
    StepKeepsUrls(k, s, pid, o);
    StepKeepsTokens(k, s, pid, o);
    StepKeepsLocals(k, s, pid, o);
  }

  lemma NextKeepsInv(k: Shop, s: State, a: Action)
    requires Inv(k, s) && Enabled(k, s, a)
    ensures Inv(k, Next(k, s, a))
  {
    var s' := Next(k, s, a);
    if a.Go? {
      GoKeepsInv(k, s, a.pid, a.outcome);
    } else {
      forall p | p in s'.procs ensures LocalOk(s', s'.procs[p]) {
        if p in s.procs {
          LocalGrows(s, s', s.procs[p]);
        }
      }
    }
  }

  lemma {:induction false} RunKeepsInv(k: Shop, states: seq<State>, acts: seq<Action>, n: nat)
    requires IsRun(k, states, acts) && n < |states|
    ensures Inv(k, states[n])
  {
    if n > 0 {
      RunKeepsInv(k, states, acts, n - 1);
      assert StepAt(k, states, acts, n - 1);
      NextKeepsInv(k, states[n - 1], acts[n - 1]);
    }
  }
}
