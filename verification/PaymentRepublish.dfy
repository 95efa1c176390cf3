/** Exactly when the tracker can publish an order, and so publish it once more. */
module PaymentRepublish {
  import opened Domain
  import opened PaymentModel
  import opened PaymentSafety
  import opened PaymentFreeze
  import opened PaymentWitness
  import Codec

  /** A pending transfer the tracker would accept for this order. */
  predicate Fits(transfer: ChainRow, x: Transaction) {
    transfer.status == ChainPending && transfer.order == x.order && Codec.WrapInt64(transfer.amount) == x.amount
  }

  /** The order is not final and some pending transfer fits it. Read off the tables. */
  ghost predicate AwaitsPayment(st: Store, id: TxnId) {
    && id in st.rows && !IsFinal(st.rows[id].status)
    && exists h :: h in st.chain && Fits(st.chain[h], st.rows[id])
  }

  ghost predicate PublishesIn(run: seq<Move>, from: nat, id: TxnId) {
    exists k :: from <= k < |run| && run[k].entry.Published? && run[k].entry.id == id
  }

  /** Some continuation of the run by `pid` alone publishes `id`. */
  ghost predicate CanPublish(c: Config, s0: State, run: seq<Move>, pid: Pid, id: TxnId) {
    exists run' :: IsRun(c, s0, run') && GoesOn(run, run', pid) && PublishesIn(run', |run|, id)
  }

  // --- what the tracker cannot do alone --------------------------------------

  /** The item is a pending transfer of `b`, up to its confirmations. */
  predicate FromPending(b: Store, item: ChainItem) {
    item.hash in b.chain && b.chain[item.hash].status == ChainPending && SameTransfer(b.chain[item.hash], item.row)
  }

  /** The order the process has decided to pay or publish. */
  function Chosen(l: Local): Option<Transaction> {
    match l
    case TrkMark(_, _, _, _, _, pay) => pay
    case TrkPay(_, _, _, _, x) => Some(x)
    case TrkPublish(_, _, _, _, x) => Some(x)
    case _ => None
  }

  /** The tracker at `l`, alone since the tables were `b`, has left `id` alone. */
  ghost predicate Spared(c: Config, b: Store, st: Store, l: Local, id: TxnId) {
    && InTrk(l) && id in st.rows && id in b.rows && st.rows[id] == b.rows[id]
    && (forall h | h in st.chain :: h in b.chain && SameTransfer(b.chain[h], st.chain[h])
                                    && (st.chain[h].status == ChainPending ==> b.chain[h].status == ChainPending))
    && (forall y | y in Held(l) :: FromPending(b, y))
    && (Chosen(l).Some? ==> IdOf(c, Chosen(l).value) != id)
  }

  /** An order that is chosen is one the tables call payable. */
  lemma ChosenIsPayable(c: Config, b: Store, st: Store, pid: Pid, l: Local, e: Entry, next: Local, id: TxnId)
    requires RowsNamed(c, st) && Spared(c, b, st, l, id) && !AwaitsPayment(b, id)
    requires l.TrkOrder? && TrkAct(c, st, pid, l, e, next)
    ensures Chosen(next).Some? ==> IdOf(c, Chosen(next).value) != id
  {
    assert Held(l)[0] == l.tx;
    if next != TrkLoop(l.latest, l.todo) {
      var id' :| id' in st.rows && st.rows[id'].order == l.tx.row.order
                 && next == AfterOrder(l.latest, l.todo, l.tx, st.rows[id']);
      DecisionNeedsFit(b, l.latest, l.todo, l.tx, st.rows[id'], id);
    }
  }

  lemma DecisionNeedsFit(b: Store, latest: nat, todo: seq<ChainItem>, tx: ChainItem, x: Transaction, id: TxnId)
    requires latest >= tx.row.block && FromPending(b, tx) && x.order == tx.row.order && !AwaitsPayment(b, id)
    ensures id in b.rows && x == b.rows[id] ==> Chosen(AfterOrder(latest, todo, tx, x)).None?
    ensures Chosen(AfterOrder(latest, todo, tx, x)).Some? ==> Chosen(AfterOrder(latest, todo, tx, x)).value == x
  {
    assert Codec.WrapInt64(tx.row.amount) == x.amount ==> Fits(b.chain[tx.hash], x);
  }

  lemma HeldComesFromHeld(c: Config, b: Store, st: Store, pid: Pid, l: Local, e: Entry, next: Local, id: TxnId)
    requires Spared(c, b, st, l, id) && TrkAct(c, st, pid, l, e, next)
    ensures InTrk(next) && forall y | y in Held(next) :: FromPending(b, y)
  {
    TrackerReleases(c, st, pid, l, e, next);
    TrackerStays(c, st, pid, l, e, next);
    ReleasedComesFromPending(b, st, l, e, next);
  }

  lemma TrackerStays(c: Config, st: Store, pid: Pid, l: Local, e: Entry, next: Local)
    requires InTrk(l) && TrkAct(c, st, pid, l, e, next)
    ensures InTrk(next)
  {
  }

  lemma ReleasedComesFromPending(b: Store, st: Store, l: Local, e: Entry, next: Local)
    requires Released(st, l, e, next) && forall y | y in Held(l) :: FromPending(b, y)
    requires forall h | h in st.chain :: h in b.chain && SameTransfer(b.chain[h], st.chain[h])
                                         && (st.chain[h].status == ChainPending ==> b.chain[h].status == ChainPending)
    ensures forall y | y in Held(next) :: FromPending(b, y)
  {
    forall y | y in Held(next) ensures FromPending(b, y) {
      if Held(l) == [] {
        assert st.chain[y.hash] == y.row;
      } else {
        assert y in Held(l);
      }
    }
  }

  lemma TablesSpared(c: Config, b: Store, st: Store, pid: Pid, l: Local, e: Entry, next: Local, id: TxnId)
    requires Spared(c, b, st, l, id) && TrkAct(c, st, pid, l, e, next)
    ensures var st' := Apply(st, e);
            && id in st'.rows && st'.rows[id] == b.rows[id]
            && forall h | h in st'.chain :: h in b.chain && SameTransfer(b.chain[h], st'.chain[h])
                                            && (st'.chain[h].status == ChainPending ==>
                                                b.chain[h].status == ChainPending)
    ensures e.Published? ==> e.id != id
  {
    if e.ChainMarked? {
      assert l.TrkMark? && l.tx in Held(l);
    }
  }

  lemma ChosenSpared(c: Config, b: Store, st: Store, pid: Pid, l: Local, e: Entry, next: Local, id: TxnId)
    requires RowsNamed(c, st) && Spared(c, b, st, l, id) && !AwaitsPayment(b, id) && TrkAct(c, st, pid, l, e, next)
    ensures Chosen(next).Some? ==> IdOf(c, Chosen(next).value) != id
  {
    if l.TrkOrder? {
      ChosenIsPayable(c, b, st, pid, l, e, next, id);
    }
  }

  lemma MoveSpares(c: Config, b: Store, st: Store, pid: Pid, l: Local, e: Entry, next: Local, id: TxnId)
    requires RowsNamed(c, st) && Spared(c, b, st, l, id) && !AwaitsPayment(b, id) && TrkAct(c, st, pid, l, e, next)
    ensures Spared(c, b, Apply(st, e), next, id) && (e.Published? ==> e.id != id)
  {
    TablesSpared(c, b, st, pid, l, e, next, id);
    HeldComesFromHeld(c, b, st, pid, l, e, next, id);
    ChosenSpared(c, b, st, pid, l, e, next, id);
  }

  ghost predicate SparedAt(c: Config, b: Store, s: State, pid: Pid, id: TxnId) {
    pid in s.procs && Spared(c, b, s.store, s.procs[pid], id)
  }

  lemma StepSpares(c: Config, s0: State, run: seq<Move>, n: nat, b: Store, id: TxnId)
    requires Collisionless(c) && IsRun(c, s0, run) && n < |run| && !AwaitsPayment(b, id)
    requires SparedAt(c, b, At(s0, run, n), run[n].pid, id)
    ensures SparedAt(c, b, At(s0, run, n + 1), run[n].pid, id)
    ensures run[n].entry.Published? ==> run[n].entry.id != id
  {
    var s, m := At(s0, run, n), run[n];
    assert EnabledAt(c, s0, run, n);
    RowsAreNamed(c, s0, run, n);
    MoveSpares(c, b, s.store, m.pid, s.procs[m.pid], m.entry, m.next, id);
  }

  /** The tracker is idle and has not touched anything yet. */
  lemma IdleSpares(c: Config, s: State, pid: Pid, id: TxnId)
    requires pid in s.procs && s.procs[pid] == TrkIdle && id in s.store.rows
    ensures SparedAt(c, s.store, s, pid, id)
  {
  }

  /** While the tracker moves alone, an order that is not payable stays spared. */
  lemma {:induction false} AloneSpares(c: Config, s0: State, run: seq<Move>, n: nat, k: nat, pid: Pid, b: Store,
                                       id: TxnId)
    requires Collisionless(c) && IsRun(c, s0, run) && n <= k <= |run| && !AwaitsPayment(b, id)
    requires forall i | n <= i < |run| :: run[i].pid == pid
    requires SparedAt(c, b, At(s0, run, n), pid, id)
    ensures SparedAt(c, b, At(s0, run, k), pid, id)
    ensures forall i | n <= i < k :: run[i].entry.Published? ==> run[i].entry.id != id
    decreases k
  {
    if n < k {
      AloneSpares(c, s0, run, n, k - 1, pid, b, id);
      StepSpares(c, s0, run, k - 1, b, id);
    }
  }

  // --- what it can do --------------------------------------------------------

  lemma {:induction false} LogIsMoves(c: Config, s0: State, run: seq<Move>, n: nat, k: nat)
    requires IsRun(c, s0, run) && n <= |run|
    ensures |At(s0, run, n).log| == n && (k < n ==> At(s0, run, n).log[k] == run[k].entry)
  {
    if n > 0 {
      LogIsMoves(c, s0, run, n - 1, k);
    }
  }

  lemma PublishedInRun(c: Config, s0: State, run: seq<Move>, run': seq<Move>, pid: Pid, t: seq<Entry>, i: nat,
                       id: TxnId)
    requires IsRun(c, s0, run) && IsRun(c, s0, run') && GoesOn(run, run', pid)
    requires At(s0, run', |run'|).log == At(s0, run, |run|).log + t
    requires i < |t| && t[i].Published? && t[i].id == id
    ensures CanPublish(c, s0, run, pid, id)
  {
    LogIsMoves(c, s0, run, |run|, 0);
    LogIsMoves(c, s0, run', |run'|, |run| + i);
    assert run'[|run| + i].entry == t[i];
  }

  lemma PayableIsPublished(c: Config, s0: State, run: seq<Move>, s: State, pid: Pid, id: TxnId)
    requires Reaches(c, s0, run, s) && RowsNamed(c, s.store)
    requires pid in s.procs && s.procs[pid] == TrkIdle && AwaitsPayment(s.store, id)
    ensures CanPublish(c, s0, run, pid, id)
  {
    var x := s.store.rows[id];
    var h :| h in s.store.chain && Fits(s.store.chain[h], x);
    var item := ChainItem(h, s.store.chain[h]);
    var run', s' := TickPublishes(c, s0, run, s, pid, item, x);
    PublishedInRun(c, s0, run, run', pid, Trail(c, pid, item, x), 6, id);
  }

  /** In every reachable state with the tracker idle -- whatever it published before -- its
      own moves can publish `id` if and only if the order is not final and some pending
      transfer has its order id and, modulo 2^64, its amount. */
  lemma TrackerCanPublishIff(c: Config, s0: State, run: seq<Move>, pid: Pid, id: TxnId)
    requires Collisionless(c) && IsRun(c, s0, run)
    requires var s := At(s0, run, |run|); pid in s.procs && s.procs[pid] == TrkIdle && id in s.store.rows
    ensures CanPublish(c, s0, run, pid, id) <==> AwaitsPayment(At(s0, run, |run|).store, id)
  {
    var s := At(s0, run, |run|);
    if AwaitsPayment(s.store, id) {
      RowsAreNamed(c, s0, run, |run|);
      PayableIsPublished(c, s0, run, s, pid, id);
    } else {
      IdleSpares(c, s, pid, id);
      forall run' | IsRun(c, s0, run') && GoesOn(run, run', pid) ensures !PublishesIn(run', |run|, id) {
        AtPrefix(s0, run, run'[|run|..], |run|);
        assert run + run'[|run|..] == run';
        AloneSpares(c, s0, run', |run|, |run'|, pid, s.store, id);
      }
    }
  }
}
