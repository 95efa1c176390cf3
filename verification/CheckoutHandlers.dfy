/** `Resolve` as the code runs it: a sequential method, with other calls, the clock and other
    writers free to act before every external call. Each of its external calls is one
    action of the resolver machine. What the outside replies is an input, and the contract
    says which tier answers and with what. */
module CheckoutHandlers {
  import opened Domain
  import opened LeaseLock
  import opened Checkout
  import opened CheckoutTheorems

  // --- replies ---------------------------------------------------------------

  /** Whether a command arrived, and whether its reply came back. */
  datatype Delivery = Delivery(arrived: bool, replied: bool)

  function OutcomeOf(d: Delivery): Outcome { if !d.arrived then Fails else if !d.replied then Lost else Fine }

  /** `read`, `recheck` and `again` say whether the reads of the row work, `limited` that the
      token bucket refuses; `stripe` is what Stripe answers, given the requests it had. */
  datatype Replies = Replies(
    read: bool, lock: Delivery, again: bool, recheck: bool, limited: bool, stripe: seq<Call> -> Option<Session>,
    answer: Delivery, persist: Delivery, release: bool)

  /** Which tier answered, with the states it saw. */
  datatype How =
    | Cached(s: State)
    | Missing(s: State)
    | Found(s: State)
    | Busy(s: State, later: State)
    | Limited
    | Asked(recheck: State, s: State, x: Transaction)

  /** Stripe gives the session a request of this row asks for. */
  predicate Gives(k: Shop, calls: seq<Call>, x: Transaction, r: Replies) {
    && r.answer.arrived && r.stripe(calls).Some?
    && StripeAnswers(k, calls, CallBy(k, x, r.stripe(calls).value))
  }

  function ReplyOf(k: Shop, pod: Pod, how: How, r: Replies): Option<string> {
    match how
    case Cached(s) => if pod in s.cache then Some(s.cache[pod]) else None
    case Found(s) => Some(CheckoutUrl(SessionOf(s.row)))
    case Asked(_, s, x) =>
      if Gives(k, s.calls, x, r) && r.answer.replied then Some(r.stripe(s.calls).value.url) else None
    case _ => None
  }

  ghost predicate Saw(states: seq<State>, from: nat, s: State) {
    exists n: nat :: from <= n < |states| && states[n] == s
  }

  /** What the tier says about the states since `from` and the replies. */
  ghost predicate Tells(states: seq<State>, from: nat, pod: Pod, how: How, r: Replies) {
    match how
    case Cached(s) => Saw(states, from, s) && pod in s.cache
    case Missing(s) => !r.read || (Saw(states, from, s) && s.row.None?)
    case Found(s) => Saw(states, from, s) && SessionOf(s.row) != ""
    case Busy(s, later) =>
      && Saw(states, from, s) && Saw(states, from, later) && r.read
      && (OutcomeOf(r.lock) != Fine || Live(s.lock, s.clock)) && (!r.again || SessionOf(later.row) == "")
    case Limited => r.read && OutcomeOf(r.lock) == Fine && r.limited
    case Asked(recheck, s, x) =>
      && Saw(states, from, recheck) && Saw(states, from, s) && x.session == ""
      && r.read && OutcomeOf(r.lock) == Fine && !r.limited && (!r.recheck || SessionOf(recheck.row) == "")
  }

  lemma SawLater(states: seq<State>, longer: seq<State>, from: nat, earlier: nat, s: State)
    requires states <= longer && earlier <= from && Saw(states, from, s)
    ensures Saw(longer, earlier, s)
  {
    var n: nat :| from <= n < |states| && states[n] == s;
    assert longer[n] == s;
  }

  lemma TellsLater(states: seq<State>, longer: seq<State>, from: nat, earlier: nat, pod: Pod, how: How, r: Replies)
    requires states <= longer && earlier <= from && Tells(states, from, pod, how, r)
    ensures Tells(longer, earlier, pod, how, r)
  {
    match how
    case Cached(s) => SawLater(states, longer, from, earlier, s);
    case Missing(s) =>
      if r.read {
        SawLater(states, longer, from, earlier, s);
      }
    case Found(s) => SawLater(states, longer, from, earlier, s);
    case Busy(s, later) =>
      SawLater(states, longer, from, earlier, s);
      SawLater(states, longer, from, earlier, later);
    case Limited =>
    case Asked(recheck, s, _) =>
      SawLater(states, longer, from, earlier, recheck);
      SawLater(states, longer, from, earlier, s);
  }

  class Resolver {
    const k: Shop
    var state: State
    ghost var states: seq<State>
    ghost var acts: seq<Action>

    ghost predicate Valid()
      reads this
    {
      IsRun(k, states, acts) && states[|acts|] == state
    }

    constructor (k: Shop, clock: int)
      ensures Valid() && this.k == k && acts == []
    {
      this.k := k;
      state := State(clock, None, 0, None, [], map[], map[]);
      states, acts := [State(clock, None, 0, None, [], map[], map[])], [];
    }

    ghost predicate Here(pid: Pid, l: Local)
      reads this
    {
      pid in state.procs && state.procs[pid] == l
    }

    /** Whatever happens elsewhere before the next call of `pid`: callers know only that the
        run goes on and `pid` stays where it is. */
    method Others(pid: Pid)
      requires Valid() && pid in state.procs
      modifies this
      ensures Valid() && old(states) <= states && Here(pid, old(state.procs[pid]))
    {
    }

    method Do(a: Action)
      requires Valid() && Enabled(k, state, a)
      modifies this
      ensures Valid() && old(states) < states && state == Next(k, old(state), a)
    {
      var next := Next(k, state, a);
      ghost var longer, history := acts + [a], states + [next];
      forall n: nat | n < |longer| ensures StepAt(k, history, longer, n) {
        assert n < |acts| ==> StepAt(k, states, acts, n);
      }
      state, states, acts := next, history, longer;
    }

    /** One external call of `pid`, with its outcome. */
    method Go(pid: Pid, o: Outcome)
      requires Valid() && pid in state.procs && Enabled(k, state, Action.Go(pid, o))
      modifies this
      ensures Valid() && old(states) <= states && Here(pid, NextLocal(old(state), old(state.procs[pid]), o))
      ensures Saw(states, |old(states)| - 1, old(state))
    {
      ghost var before := |states| - 1;
      Do(Action.Go(pid, o));
      assert states[before] == old(state);
    }

    /** The tiers in order: local cache, row, lock, then the work under the lock, and the
        release whatever came of it. */
    method Resolve(pid: Pid, pod: Pod, r: Replies) returns (reply: Option<string>, ghost how: How)
      requires Valid() && pid !in state.procs
      modifies this
      ensures Valid() && old(states) <= states && Here(pid, Done(reply))
      ensures reply == ReplyOf(k, pod, how, r) && Tells(states, |old(states)|, pod, how, r)
      ensures k.replays && reply.Some? ==> state.calls != [] && Names(state.calls[0].session, reply.value)
    {
      reply, how := Tiers(pid, pod, r);
      SameRequestSameSession(k, states, acts, |acts|);
    }

    method Tiers(pid: Pid, pod: Pod, r: Replies) returns (reply: Option<string>, ghost how: How)
      requires Valid() && pid !in state.procs
      modifies this
      ensures Valid() && old(states) <= states && Here(pid, Done(reply))
      ensures reply == ReplyOf(k, pod, how, r) && Tells(states, |old(states)|, pod, how, r)
    {
      Do(Arrive(pid, pod));
      ghost var from := |states| - 1;
      reply, how := FromCache(pid, pod, r);
      TellsLater(states, states, from, |old(states)|, pod, how, r);
    }

    method FromCache(pid: Pid, pod: Pod, r: Replies) returns (reply: Option<string>, ghost how: How)
      requires Valid() && Here(pid, Start(pod))
      modifies this
      ensures Valid() && old(states) <= states && Here(pid, Done(reply))
      ensures reply == ReplyOf(k, pod, how, r) && Tells(states, |old(states)| - 1, pod, how, r)
    {
      Others(pid);
      ghost var from, seen := |states| - 1, state;
      if pod in state.cache {
        reply, how := Some(state.cache[pod]), Cached(state);
        Go(pid, Fine);
        SawLater(states, states, from, |old(states)| - 1, seen);
      } else {
        Go(pid, Fine);
        from := |states| - 1;
        reply, how := FromRow(pid, pod, r);
        TellsLater(states, states, from, |old(states)| - 1, pod, how, r);
      }
    }

    method FromRow(pid: Pid, pod: Pod, r: Replies) returns (reply: Option<string>, ghost how: How)
      requires Valid() && Here(pid, Reading(pod))
      modifies this
      ensures Valid() && old(states) <= states && Here(pid, Done(reply))
      ensures reply == ReplyOf(k, pod, how, r) && Tells(states, |old(states)| - 1, pod, how, r)
    {
      Others(pid);
      ghost var from, seen := |states| - 1, state;
      if !r.read || state.row.None? {
        reply, how := None, Missing(state);
        Go(pid, if r.read then Fine else Fails);
      } else if state.row.value.session != "" {
        how := Found(seen);
        reply := AnswerFromRow(pid, pod, None);
      } else {
        reply, how := Lock(pid, pod, r);
      }
      TellsLater(states, states, from, |old(states)| - 1, pod, how, r);
    }

    /** The order exists and has no session yet. */
    method Lock(pid: Pid, pod: Pod, r: Replies) returns (reply: Option<string>, ghost how: How)
      requires Valid() && Here(pid, Reading(pod)) && r.read && state.row.Some? && SessionOf(state.row) == ""
      modifies this
      ensures Valid() && old(states) <= states && Here(pid, Done(reply))
      ensures reply == ReplyOf(k, pod, how, r) && Tells(states, |old(states)| - 1, pod, how, r)
    {
      var x := state.row.value;
      Go(pid, Fine);
      ghost var from := |states| - 1;
      reply, how := WithLock(pid, pod, x, r);
      TellsLater(states, states, from, |old(states)| - 1, pod, how, r);
    }

    /** The row has a session: rebuild its URL and cache it. */
    method AnswerFromRow(pid: Pid, pod: Pod, ghost under: Option<Lease>) returns (reply: Option<string>)
      requires Valid() && pid in state.procs && SessionOf(state.row) != ""
      requires if under.None? then Here(pid, Reading(pod)) || Here(pid, Waiting(pod))
               else state.procs[pid].Locked? && state.procs[pid].pod == pod && state.procs[pid].lease == under.value
      modifies this
      ensures Valid() && old(states) <= states && Saw(states, |old(states)| - 1, old(state))
      ensures Here(pid, if under.None? then Done(reply) else Leaving(under.value, reply))
      ensures reply == Some(CheckoutUrl(SessionOf(old(state).row)))
    {
      var url := CheckoutUrl(SessionOf(state.row));
      Go(pid, Fine);
      ghost var mid := states;
      CacheUrl(pid, pod, url, under);
      SawLater(mid, states, |old(states)| - 1, |old(states)| - 1, old(state));
      reply := Some(url);
    }

    /** Store the URL in the pod's cache. */
    method CacheUrl(pid: Pid, pod: Pod, url: string, ghost under: Option<Lease>)
      requires Valid() && Here(pid, Answer(pod, url, under))
      modifies this
      ensures Valid() && old(states) <= states
      ensures Here(pid, if under.None? then Done(Some(url)) else Leaving(under.value, Some(url)))
    {
      Others(pid);
      Go(pid, Fine);
    }

    /** Acquire the order's lease for ten seconds; without it, read once more and give up. */
    method WithLock(pid: Pid, pod: Pod, x: Transaction, r: Replies) returns (reply: Option<string>, ghost how: How)
      requires Valid() && Here(pid, NeedLock(pod, x)) && r.read && x.session == ""
      modifies this
      ensures Valid() && old(states) <= states && Here(pid, Done(reply))
      ensures reply == ReplyOf(k, pod, how, r) && Tells(states, |old(states)| - 1, pod, how, r)
    {
      var taken, lease;
      ghost var seen;
      taken, lease, seen := Acquire(pid, pod, x, r.lock);
      ghost var from, before := |states| - 1, states;
      if taken {
        reply, how := UnderLock(pid, pod, x, lease, r);
        ghost var mid := states;
        Release(pid, lease, reply, r.release);
        TellsLater(mid, states, from, |old(states)| - 1, pod, how, r);
      } else {
        reply, how := AfterLock(pid, pod, r, before, seen, |old(states)| - 1);
      }
    }

    /** SET NX with an expiry: it may arrive or not, and its reply may be lost. */
    method Acquire(pid: Pid, pod: Pod, x: Transaction, d: Delivery)
      returns (taken: bool, lease: Lease, ghost seen: State)
      requires Valid() && Here(pid, NeedLock(pod, x))
      modifies this
      ensures Valid() && old(states) <= states && Saw(states, |old(states)| - 1, seen)
      ensures Here(pid, if taken then Locked(pod, x, lease) else Waiting(pod))
      ensures taken <==> OutcomeOf(d) == Fine && !Live(seen.lock, seen.clock)
    {
      Others(pid);
      ghost var from := |states| - 1;
      seen, lease := state, NewLease(state);
      taken := d.arrived && d.replied && !Live(state.lock, state.clock);
      Go(pid, OutcomeOf(d));
      SawLater(states, states, from, |old(states)| - 1, seen);
    }

    /** Compare and delete; a failed release leaves the lease to expire. */
    method Release(pid: Pid, lease: Lease, reply: Option<string>, arrived: bool)
      requires Valid() && Here(pid, Leaving(lease, reply))
      modifies this
      ensures Valid() && old(states) <= states && Here(pid, Done(reply))
    {
      Others(pid);
      Go(pid, if arrived then Fine else Fails);
    }

    /** Another call holds the lock, as was `seen`, or seems to: read the row once more. */
    method AfterLock(pid: Pid, pod: Pod, r: Replies, ghost before: seq<State>, ghost seen: State, ghost from: nat)
      returns (reply: Option<string>, ghost how: How)
      requires Valid() && Here(pid, Waiting(pod)) && r.read && before == states && from < |states|
      requires Saw(before, from, seen) && (OutcomeOf(r.lock) != Fine || Live(seen.lock, seen.clock))
      modifies this
      ensures Valid() && old(states) <= states && Here(pid, Done(reply))
      ensures reply == ReplyOf(k, pod, how, r) && Tells(states, from, pod, how, r)
    {
      Others(pid);
      ghost var at, later := |states| - 1, state;
      var id := SessionOf(state.row);
      if r.again && id != "" {
        reply := AnswerFromRow(pid, pod, None);
        SawLater(states, states, at, from, later);
        how := Found(later);
      } else {
        Go(pid, if r.again then Fine else Fails);
        SawLater(states, states, at, from, later);
        SawLater(before, states, from, from, seen);
        reply, how := None, Busy(seen, later);
      }
    }

    /** Re-check the row under the lock, then ask Stripe. A failed re-check goes on. */
    method UnderLock(pid: Pid, pod: Pod, x: Transaction, lease: Lease, r: Replies)
      returns (reply: Option<string>, ghost how: How)
      requires Valid() && Here(pid, Locked(pod, x, lease)) && r.read && OutcomeOf(r.lock) == Fine && x.session == ""
      modifies this
      ensures Valid() && old(states) <= states && Here(pid, Leaving(lease, reply))
      ensures reply == ReplyOf(k, pod, how, r) && Tells(states, |old(states)| - 1, pod, how, r)
    {
      Others(pid);
      ghost var at, from, seen := |states| - 1, |old(states)| - 1, state;
      var id := SessionOf(state.row);
      if r.recheck && id != "" {
        reply := AnswerFromRow(pid, pod, Some(lease));
        SawLater(states, states, at, from, seen);
        how := Found(seen);
      } else {
        Go(pid, if r.recheck then Fine else Fails);
        SawLater(states, states, at, from, seen);
        reply, how := CreateSession(pid, pod, x, lease, r, states, seen, from);
      }
    }

    /** The token bucket, then one session request under the order's idempotency key. `seen` is
        what the re-check saw. */
    method CreateSession(pid: Pid, pod: Pod, x: Transaction, lease: Lease, r: Replies, ghost before: seq<State>,
                         ghost seen: State, ghost from: nat)
      returns (reply: Option<string>, ghost how: How)
      requires Valid() && Here(pid, Checked(pod, x, lease)) && r.read && OutcomeOf(r.lock) == Fine && x.session == ""
      requires before == states && from < |states| && Saw(before, from, seen)
      requires !r.recheck || SessionOf(seen.row) == ""
      modifies this
      ensures Valid() && old(states) <= states && Here(pid, Leaving(lease, reply))
      ensures reply == ReplyOf(k, pod, how, r) && Tells(states, from, pod, how, r)
    {
      Others(pid);
      if r.limited {
        Go(pid, Fails);
        return None, Limited;
      }
      Go(pid, Fine);
      ghost var asked;
      reply, asked := AskStripe(pid, pod, x, lease, r);
      SawLater(states, states, |before| - 1, from, asked);
      SawLater(before, states, from, from, seen);
      how := Asked(seen, asked, x);
    }

    method AskStripe(pid: Pid, pod: Pod, x: Transaction, lease: Lease, r: Replies)
      returns (reply: Option<string>, ghost asked: State)
      requires Valid() && Here(pid, Calling(pod, x, lease))
      modifies this
      ensures Valid() && old(states) <= states && Here(pid, Leaving(lease, reply))
      ensures Saw(states, |old(states)| - 1, asked)
      ensures reply == if Gives(k, asked.calls, x, r) && r.answer.replied then Some(r.stripe(asked.calls).value.url)
                       else None
    {
      Others(pid);
      ghost var from := |states| - 1;
      asked := state;
      if !Gives(k, state.calls, x, r) {
        Go(pid, Fails);
        reply := None;
      } else if !r.answer.replied {
        Go(pid, AnswerLost(r.stripe(state.calls).value));
        reply := None;
      } else {
        var session := r.stripe(state.calls).value;
        Go(pid, Answered(session));
        ghost var mid := states;
        reply := PersistAndAnswer(pid, pod, lease, session, r.persist);
        SawLater(mid, states, from, from, asked);
      }
      SawLater(states, states, from, |old(states)| - 1, asked);
    }

    /** The session ids go onto the row; a failure there is only logged. */
    method PersistAndAnswer(pid: Pid, pod: Pod, lease: Lease, session: Session, d: Delivery)
      returns (reply: Option<string>)
      requires Valid() && Here(pid, Made(pod, lease, session))
      modifies this
      ensures Valid() && old(states) <= states && Here(pid, Leaving(lease, reply)) && reply == Some(session.url)
    {
      Others(pid);
      Go(pid, OutcomeOf(d));
      reply := Some(session.url);
      CacheUrl(pid, pod, session.url, Some(lease));
    }
  }
}
