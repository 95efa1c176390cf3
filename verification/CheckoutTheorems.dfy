/** What lazy checkout promises about Stripe sessions, for every interleaving. */
module CheckoutTheorems {
  import opened Domain
  import opened LeaseLock
  import opened Checkout

  // --- without any assumption on leases, reads or writes ---------------------

  /** However leases expire, reads fail, writes fail and pods crash: all requests for
      the order carry one idempotency key and are the same request. With a provider
      that replays by key, they all got one session and every URL handed out or cached
      names it. */
  lemma SameRequestSameSession(k: Shop, states: seq<State>, acts: seq<Action>, n: nat)
    requires IsRun(k, states, acts) && n < |states|
    ensures var calls := states[n].calls;
            && (forall i, j | 0 <= i < |calls| && 0 <= j < |calls| ::
                  calls[i].key == calls[j].key && calls[i].req == calls[j].req)
            && (k.replays ==>
                  && (forall i | 0 <= i < |calls| :: calls[i].session == calls[0].session)
                  && forall p, url | p in states[n].procs && states[n].procs[p] == Done(Some(url)) ::
                       calls != [] && Names(calls[0].session, url))
  {
    RunKeepsInv(k, states, acts, n);
    var s := states[n];
    forall p, url | k.replays && p in s.procs && s.procs[p] == Done(Some(url))
      ensures s.calls != [] && Names(s.calls[0].session, url)
    {
      assert LocalOk(s, s.procs[p]);
      var i :| 0 <= i < |s.calls| && Names(s.calls[i].session, url);
      assert i > 0 ==> s.calls[0].session == s.calls[i].session;
    }
  }

  /** The provider never has to refuse a key for carrying a different request. */
  lemma KeyNeverMismatches(k: Shop, states: seq<State>, acts: seq<Action>, n: nat, pid: Pid)
    requires IsRun(k, states, acts) && n < |states| && pid in states[n].procs && states[n].procs[pid].Calling?
    ensures var x := states[n].procs[pid].x;
            forall c | c in states[n].calls :: c.key == KeyFor(x) && c.req == RequestFor(k, x)
  {
    RunKeepsInv(k, states, acts, n);
    assert LocalOk(states[n], states[n].procs[pid]);
  }

  // --- what is asked for -----------------------------------------------------

  /** `url` is the configured address with the order id as its last parameter, which starts
      the query exactly when the address has none; nothing is sent for no address. */
  predicate LeadsBack(base: string, order: string, url: string) {
    if base == "" then url == ""
    else
      && |url| > |base| && base == url[..|base|] && url[|base| + 1..] == "order_id=" + order
      && url[|base|] in "?&" && (url[|base|] == '?' <==> '?' !in base)
  }

  lemma QueryLeadsBack(base: string, order: string)
    ensures LeadsBack(base, order, WithOrderQuery(base, order))
  {
    if base != "" {
      var sep := if '?' in base then "&" else "?";
      var url := WithOrderQuery(base, order);
      assert url == base + (sep + ("order_id=" + order));
      assert url[|base| + 1..] == "order_id=" + order;
    }
  }

  lemma LowerAgain(s: string)
    ensures ToLower(ToLower(s)) == ToLower(s)
  {
  }

  /** In every run, every request that reached Stripe asks for the amount of the order's row,
      in its currency, by card, and names the order and its merchant. */
  lemma RequestsAreTheOrders(k: Shop, states: seq<State>, acts: seq<Action>, n: nat, i: nat)
    requires IsRun(k, states, acts) && n < |states| && i < |states[n].calls|
    ensures states[n].row.Some?
    ensures var q, x := states[n].calls[i].req, states[n].row.value;
            && q.amount == x.amount && EqualFold(q.currency, x.currency) && q.currency == ToLower(q.currency)
            && q.types == ["card"] && q.reference == x.order == k.order && q.merchant == x.merchant == k.merchant
            && LeadsBack(k.successUrl, k.order, q.success) && LeadsBack(k.cancelUrl, k.order, q.cancel)
  {
    RunKeepsInv(k, states, acts, n);
    LowerAgain(states[n].row.value.currency);
    QueryLeadsBack(k.successUrl, k.order);
    QueryLeadsBack(k.cancelUrl, k.order);
  }

  /** Rows of merchants whose ids have no colon share an idempotency key exactly when they are
      of one merchant and one order. */
  lemma KeysTellOrdersApart(x: Transaction, y: Transaction)
    requires ':' !in x.merchant && ':' !in y.merchant
    ensures KeyFor(x) == KeyFor(y) <==> x.merchant == y.merchant && x.order == y.order
  {
    var a, b := x.merchant + ":" + x.order, y.merchant + ":" + y.order;
    assert KeyFor(x) == "checkout:" + a && KeyFor(y) == "checkout:" + b;
    if KeyFor(x) == KeyFor(y) {
      assert KeyFor(x)[|"checkout:"|..] == a && KeyFor(y)[|"checkout:"|..] == b;
      assert a[|x.merchant|] == ':' && b[|y.merchant|] == ':';
      assert a[..|x.merchant|] == x.merchant && b[..|y.merchant|] == y.merchant;
      assert a[|x.merchant| + 1..] == x.order && b[|y.merchant| + 1..] == y.order;
    }
  }

  /** The rebuilt address tells sessions apart. */
  lemma UrlsTellSessionsApart(a: string, b: string)
    ensures CheckoutUrl(a) == CheckoutUrl(b) <==> a == b
  {
    var base := CheckoutUrl("");
    assert CheckoutUrl(a)[|base|..] == a && CheckoutUrl(b)[|base|..] == b;
  }

  /** A release changes the key only when the key still is the releaser's own lease: in every
      reachable state, a lease taken by anyone later stays, whether its taker lives,
      crashed or never learned of it. */
  lemma ReleaseKeepsLaterLease(k: Shop, states: seq<State>, acts: seq<Action>, n: nat, p: Pid, o: Outcome)
    requires IsRun(k, states, acts) && n < |states|
    requires p in states[n].procs && states[n].procs[p].Leaving?
    ensures Step(k, states[n], p, o).lock != states[n].lock ==> states[n].lock == Some(states[n].procs[p].lease)
  {
    RunKeepsInv(k, states, acts, n);
    assert LeaseOf(states[n].procs[p]) == Some(states[n].procs[p].lease);
  }

  // --- when holders finish within their lease --------------------------------

  /** The assumptions, action by action: time does not pass a held lease, the re-check
      and the persist succeed, Stripe's answer arrives, and no pod dies holding one. */
  ghost predicate Careful(s: State, a: Action) {
    match a
    case Tick(now) => forall p | p in s.procs && LeaseOf(s.procs[p]).Some? :: now <= LeaseOf(s.procs[p]).value.expires
    case Crash(pid) => pid in s.procs ==> !s.procs[pid].Made?
    case Go(pid, o) =>
      && !o.AnswerLost?
      && (pid in s.procs && s.procs[pid].Locked? ==> o.Fine?)
      && (pid in s.procs && s.procs[pid].Made? ==> !o.Fails?)
    case _ => true
  }

  ghost predicate Holds(s: State, p: Pid) { p in s.procs && LeaseOf(s.procs[p]).Some? }

  ghost predicate LocksOk(s: State) {
    forall p | Holds(s, p) :: s.lock == LeaseOf(s.procs[p]) && Live(s.lock, s.clock)
  }

  predicate About(l: Local) { l.Checked? || l.Calling? }

  ghost predicate OnceOk(s: State) {
    && |s.calls| <= 1
    && (forall c | c in s.calls :: c.session.id != "")
    && (s.calls != [] ==> SessionOf(s.row) == s.calls[0].session.id || exists p :: p in s.procs && s.procs[p].Made?)
    && (forall p | p in s.procs && About(s.procs[p]) :: s.calls == [])
  }

  ghost predicate OnceInv(k: Shop, s: State) { Inv(k, s) && LocksOk(s) && OnceOk(s) }

  lemma OneHolder(k: Shop, s: State, p: Pid, q: Pid)
    requires Inv(k, s) && LocksOk(s) && Holds(s, p) && Holds(s, q)
    ensures p == q
  {
  }

  lemma GoKeepsLocks(k: Shop, s: State, pid: Pid, o: Outcome)
    requires Inv(k, s) && LocksOk(s) && Enabled(k, s, Go(pid, o))
    ensures LocksOk(Step(k, s, pid, o))
  {
    var s' := Step(k, s, pid, o);
    forall p | Holds(s', p) ensures s'.lock == LeaseOf(s'.procs[p]) && Live(s'.lock, s'.clock) {
      if p != pid {
        assert Holds(s, p);
        if Holds(s, pid) {
          OneHolder(k, s, p, pid);
        }
      }
    }
  }

  lemma RecheckFindsNone(k: Shop, s: State, pid: Pid)
    requires OnceInv(k, s) && pid in s.procs && s.procs[pid].Locked? && SessionOf(s.row) == ""
    ensures s.calls == []
  {
    forall p | p in s.procs && s.procs[p].Made? ensures false {
      assert Holds(s, p) && Holds(s, pid);
      OneHolder(k, s, p, pid);
    }
  }

  lemma OthersNotAbout(k: Shop, s: State, pid: Pid, p: Pid)
    requires Inv(k, s) && LocksOk(s) && Holds(s, pid) && p in s.procs && p != pid
    ensures !About(s.procs[p]) && !s.procs[p].Made?
  {
    if Holds(s, p) {
      OneHolder(k, s, p, pid);
    }
  }

  lemma CallKeepsOnce(k: Shop, s: State, pid: Pid, o: Outcome)
    requires OnceInv(k, s) && Enabled(k, s, Go(pid, o)) && Careful(s, Go(pid, o)) && s.procs[pid].Calling?
    ensures OnceOk(Step(k, s, pid, o))
  {
    var s' := Step(k, s, pid, o);
    assert s.calls == [];
    assert o.Answered? ==> pid in s'.procs && s'.procs[pid].Made?;
    forall p | p in s'.procs && About(s'.procs[p]) ensures s'.calls == [] {
      assert Holds(s, pid);
      if p != pid {
        OthersNotAbout(k, s, pid, p);
      }
    }
  }

  lemma PersistKeepsOnce(k: Shop, s: State, pid: Pid, o: Outcome)
    requires OnceInv(k, s) && Enabled(k, s, Go(pid, o)) && Careful(s, Go(pid, o)) && s.procs[pid].Made?
    ensures OnceOk(Step(k, s, pid, o))
  {
    var s' := Step(k, s, pid, o);
    assert LocalOk(s, s.procs[pid]);
    var i :| 0 <= i < |s.calls| && s.calls[i].session == s.procs[pid].session;
    assert SessionOf(s'.row) == s'.calls[0].session.id;
  }

  lemma OtherStepKeepsOnce(k: Shop, s: State, pid: Pid, o: Outcome)
    requires OnceInv(k, s) && Enabled(k, s, Go(pid, o)) && Careful(s, Go(pid, o))
    requires !s.procs[pid].Calling? && !s.procs[pid].Made?
    ensures OnceOk(Step(k, s, pid, o))
  {
    var s' := Step(k, s, pid, o);
    QuietStep(k, s, pid, o);
    if s.procs[pid].Locked? && SessionOf(s.row) == "" {
      RecheckFindsNone(k, s, pid);
    }
    if p :| p in s.procs && s.procs[p].Made? {
      assert p in s'.procs && s'.procs[p].Made?;
    }
  }

  lemma QuietStep(k: Shop, s: State, pid: Pid, o: Outcome)
    requires pid in s.procs && !s.procs[pid].Calling? && !s.procs[pid].Made?
    ensures var s' := Step(k, s, pid, o);
            && s'.calls == s.calls && s'.row == s.row
            && (About(s'.procs[pid]) ==> About(s.procs[pid])
                                         || (s.procs[pid].Locked? && (!o.Fine? || SessionOf(s.row) == "")))
  {
  }

  lemma NextKeepsOnceInv(k: Shop, s: State, a: Action)
    requires OnceInv(k, s) && Enabled(k, s, a) && Careful(s, a)
    ensures OnceInv(k, Next(k, s, a))
  {
    NextKeepsInv(k, s, a);
    if a.Go? {
      GoKeepsLocks(k, s, a.pid, a.outcome);
      if s.procs[a.pid].Calling? {
        CallKeepsOnce(k, s, a.pid, a.outcome);
      } else if s.procs[a.pid].Made? {
        PersistKeepsOnce(k, s, a.pid, a.outcome);
      } else {
        OtherStepKeepsOnce(k, s, a.pid, a.outcome);
      }
    } else {
      QuietNext(k, s, a);
    }
  }

  lemma QuietNext(k: Shop, s: State, a: Action)
    requires OnceInv(k, s) && Enabled(k, s, a) && Careful(s, a) && !a.Go?
    ensures LocksOk(Next(k, s, a)) && OnceOk(Next(k, s, a))
  {
    var s' := Next(k, s, a);
    forall p | Holds(s', p) ensures s'.lock == LeaseOf(s'.procs[p]) && Live(s'.lock, s'.clock) {
      assert Holds(s, p);
    }
    if p :| p in s.procs && s.procs[p].Made? {
      assert p in s'.procs && s'.procs[p].Made?;
    }
  }

  ghost predicate CarefulAt(states: seq<State>, acts: seq<Action>, n: nat) {
    n < |acts| && n < |states| && Careful(states[n], acts[n])
  }

  lemma {:induction false} RunKeepsOnceInv(k: Shop, states: seq<State>, acts: seq<Action>, n: nat)
    requires IsRun(k, states, acts) && n < |states| && forall i: nat | i < |acts| :: CarefulAt(states, acts, i)
    ensures OnceInv(k, states[n])
  {
    if n > 0 {
      RunKeepsOnceInv(k, states, acts, n - 1);
      assert StepAt(k, states, acts, n - 1) && CarefulAt(states, acts, n - 1);
      NextKeepsOnceInv(k, states[n - 1], acts[n - 1]);
    }
  }

  /** Under the lock, a re-check that finds no session means none was ever made. */
  lemma RecheckIsDecisive(k: Shop, states: seq<State>, acts: seq<Action>, n: nat, pid: Pid)
    requires IsRun(k, states, acts) && n < |states| && forall i: nat | i < |acts| :: CarefulAt(states, acts, i)
    requires pid in states[n].procs && states[n].procs[pid].Locked? && SessionOf(states[n].row) == ""
    ensures states[n].calls == []
  {
    RunKeepsOnceInv(k, states, acts, n);
    RecheckFindsNone(k, states[n], pid);
  }

  /** In every interleaving of any number of Resolve calls that meets the assumptions,
      at most one Stripe session is created and every URL returned names it -- with or
      without replay by the provider. */
  lemma AtMostOneSession(k: Shop, states: seq<State>, acts: seq<Action>, n: nat)
    requires IsRun(k, states, acts) && n < |states| && forall i: nat | i < |acts| :: CarefulAt(states, acts, i)
    ensures |states[n].calls| <= 1
    ensures forall p, url | p in states[n].procs && states[n].procs[p] == Done(Some(url)) ::
              |states[n].calls| == 1 && Names(states[n].calls[0].session, url)
  {
    RunKeepsOnceInv(k, states, acts, n);
    var s := states[n];
    forall p, url | p in s.procs && s.procs[p] == Done(Some(url))
      ensures |s.calls| == 1 && Names(s.calls[0].session, url) {
      assert LocalOk(s, s.procs[p]);
      var i :| 0 <= i < |s.calls| && Names(s.calls[i].session, url);
    }
  }
}
