/** What a row can never go back to, and how often one order is published. */
module PaymentProgress {
  import opened Domain
  import opened PaymentModel
  import opened PaymentSafety

  // --- rows only move forward ------------------------------------------------

  /** A later version of a row: same order, never stuck again, no id erased. */
  predicate Later(x: Transaction, y: Transaction) {
    && SameOrder(x, y)
    && (IsStuck(y.status) ==> IsStuck(x.status))
    && (x.session != "" ==> y.session != "")
    && (x.pi != "" ==> y.pi != "")
  }

  lemma EntryMovesForward(c: Config, log: seq<Entry>, st: Store, e: Entry, id: TxnId)
    requires StoreOk(c, log, st) && Justified(c, log, e) && id in st.rows
    ensures id in Apply(st, e).rows && Later(st.rows[id], Apply(st, e).rows[id])
  {
    EntryIsForward(c, log, st, e, id);
  }

  lemma EntryIsForward(c: Config, log: seq<Entry>, st: Store, e: Entry, id: TxnId)
    requires StoreOk(c, log, st) && Justified(c, log, e) && id in st.rows
    ensures (e.Inserted? ==> e.id != id) && (e.StatusWritten? ==> !IsStuck(e.status))
  {
    var i :| InsertedAt(log, i, id, st.rows[id]);
    assert log[i].Inserted?;
  }

  lemma MoveMovesForward(c: Config, s: State, m: Move, id: TxnId)
    requires Collisionless(c) && Inv(c, s) && Enabled(c, s, m) && id in s.store.rows
    ensures id in After(s, m).store.rows && Later(s.store.rows[id], After(s, m).store.rows[id])
  {
    MoveSafe(c, s, m);
    EntryMovesForward(c, s.log, s.store, m.entry, id);
  }

  lemma RowMovesForward(c: Config, s0: State, run: seq<Move>, n: nat, id: TxnId)
    requires Collisionless(c) && IsRun(c, s0, run) && n < |run| && id in At(s0, run, n).store.rows
    ensures id in At(s0, run, n + 1).store.rows
    ensures Later(At(s0, run, n).store.rows[id], At(s0, run, n + 1).store.rows[id])
  {
    RunStep(c, s0, run, n);
    MoveMovesForward(c, At(s0, run, n), run[n], id);
  }

  /** Between any two points of any run, every row stays and moves only forward:
      once out of the stuck set it never comes back. */
  lemma {:induction false} RowsMoveForward(c: Config, s0: State, run: seq<Move>, i: nat, j: nat, id: TxnId)
    requires Collisionless(c) && IsRun(c, s0, run) && i <= j <= |run|
    requires id in At(s0, run, i).store.rows
    ensures id in At(s0, run, j).store.rows
    ensures Later(At(s0, run, i).store.rows[id], At(s0, run, j).store.rows[id])
    decreases j
  {
    if i < j {
      RowsMoveForward(c, s0, run, i, j - 1, id);
      RowMovesForward(c, s0, run, j - 1, id);
    }
  }

  // --- each reconciler publishes an order at most once -----------------------

  predicate RecPublished(log: seq<Entry>, i: int, pid: Pid) {
    0 <= i < |log| && log[i].Published? && log[i].origin.ByReconciler? && log[i].origin.pid == pid
  }

  ghost predicate NotYet(log: seq<Entry>, pid: Pid, id: TxnId) {
    forall i | RecPublished(log, i, pid) :: log[i].id != id
  }

  ghost predicate FreshQueue(c: Config, log: seq<Entry>, pid: Pid, q: seq<Transaction>) {
    && (forall x | x in q :: NotYet(log, pid, IdOf(c, x)))
    && (forall i, j | 0 <= i < j < |q| :: IdOf(c, q[i]) != IdOf(c, q[j]))
  }

  ghost predicate RecLocalOk(c: Config, s: State, pid: Pid, l: Local) {
    match l
    case RecLoop(q) => FreshQueue(c, s.log, pid, q)
    case RecWrite(q, x, _, _) => FreshQueue(c, s.log, pid, [x] + q)
    case RecPublish(q, x, _) =>
      FreshQueue(c, s.log, pid, [x] + q)
      && IdOf(c, x) in s.store.rows && !IsStuck(s.store.rows[IdOf(c, x)].status)
    case _ => true
  }

  ghost predicate DistinctOrders(log: seq<Entry>, pid: Pid) {
    forall i, j | RecPublished(log, i, pid) && RecPublished(log, j, pid) && i < j :: log[i].id != log[j].id
  }

  ghost predicate Settled(s: State, pid: Pid) {
    forall i | RecPublished(s.log, i, pid) :: s.log[i].id in s.store.rows && !IsStuck(s.store.rows[s.log[i].id].status)
  }

  ghost predicate RecInv(c: Config, s: State, pid: Pid) {
    DistinctOrders(s.log, pid) && Settled(s, pid) && (pid in s.procs ==> RecLocalOk(c, s, pid, s.procs[pid]))
  }

  /** A published entry names the process that moved. */
  lemma OriginIsMover(c: Config, s: State, m: Move)
    requires Enabled(c, s, m)
    ensures (m.entry.Published? || m.entry.StatusWritten?) ==> m.entry.origin.pid == m.pid
    ensures m.entry.Published? && m.entry.origin.ByReconciler? ==>
              s.procs[m.pid].RecPublish? && m.entry.id == IdOf(c, s.procs[m.pid].snapshot)
    ensures m.entry.Published? && m.entry.origin.ByTracker? ==>
              s.procs[m.pid].TrkPublish? && m.entry.id == IdOf(c, s.procs[m.pid].snapshot)
    ensures m.entry.StatusWritten? && m.entry.origin.ByTracker? ==>
              s.procs[m.pid].TrkPay? && m.entry.id == IdOf(c, s.procs[m.pid].snapshot)
  {
  }

  lemma FreshQueueKept(c: Config, log: seq<Entry>, e: Entry, pid: Pid, q: seq<Transaction>)
    requires FreshQueue(c, log, pid, q)
    requires e.Published? && e.origin.ByReconciler? && e.origin.pid == pid ==> forall x | x in q :: IdOf(c, x) != e.id
    ensures FreshQueue(c, log + [e], pid, q)
  {
    forall x | x in q ensures NotYet(log + [e], pid, IdOf(c, x)) {
      forall i | RecPublished(log + [e], i, pid) ensures (log + [e])[i].id != IdOf(c, x) {
        assert i < |log| ==> RecPublished(log, i, pid);
      }
    }
  }

  lemma FreshTail(c: Config, log: seq<Entry>, pid: Pid, q: seq<Transaction>)
    requires FreshQueue(c, log, pid, q) && q != []
    ensures FreshQueue(c, log, pid, q[1..])
    ensures forall x | x in q[1..] :: IdOf(c, x) != IdOf(c, q[0])
    ensures NotYet(log, pid, IdOf(c, q[0]))
  {
  }

  lemma RecLoopOk(c: Config, s: State, pid: Pid, a: Local, e: Entry, b: Local)
    requires RecLocalOk(c, s, pid, a) && a.RecLoop? && RecAct(c, s.store, pid, a, e, b)
    ensures RecLocalOk(c, After(s, Move(pid, e, b)), pid, b)
  {
    FreshQueueKept(c, s.log, e, pid, a.queue);
    if a.queue != [] {
      FreshTail(c, s.log + [e], pid, a.queue);
      assert a.queue == [a.queue[0]] + a.queue[1..];
    }
  }

  lemma RecWriteOk(c: Config, s: State, pid: Pid, a: Local, e: Entry, b: Local)
    requires RecLocalOk(c, s, pid, a) && (a.RecWrite? || a.RecPublish?) && RecAct(c, s.store, pid, a, e, b)
    ensures RecLocalOk(c, After(s, Move(pid, e, b)), pid, b)
  {
    var q := [a.snapshot] + a.queue;
    assert q[1..] == a.queue;
    FreshTail(c, s.log, pid, q);
    FreshQueueKept(c, s.log, e, pid, a.queue);
    if a.RecWrite? {
      FreshQueueKept(c, s.log, e, pid, q);
    }
  }

  /** The reconciler's own moves keep what it relies on. */
  lemma RecMoveOk(c: Config, s: State, pid: Pid, a: Local, e: Entry, b: Local)
    requires StoreOk(c, s.log, s.store) && Settled(s, pid) && RecLocalOk(c, s, pid, a)
    requires InRec(a) && RecAct(c, s.store, pid, a, e, b)
    ensures RecLocalOk(c, After(s, Move(pid, e, b)), pid, b)
  {
    if a.RecLoop? {
      RecLoopOk(c, s, pid, a, e, b);
    } else if !a.RecIdle? {
      RecWriteOk(c, s, pid, a, e, b);
    } else if b.RecLoop? {
      FreshQueueKept(c, s.log, e, pid, b.queue);
    }
  }

  lemma OtherMoveOk(c: Config, s: State, m: Move, pid: Pid, l: Local)
    requires StoreOk(c, s.log, s.store) && Justified(c, s.log, m.entry) && RecLocalOk(c, s, pid, l)
    requires m.entry.Published? ==> m.entry.origin.pid != pid
    ensures RecLocalOk(c, After(s, m), pid, l)
  {
    match l
    case RecLoop(q) => FreshQueueKept(c, s.log, m.entry, pid, q);
    case RecWrite(q, x, _, _) => FreshQueueKept(c, s.log, m.entry, pid, [x] + q);
    case RecPublish(q, x, _) =>
      FreshQueueKept(c, s.log, m.entry, pid, [x] + q);
      EntryMovesForward(c, s.log, s.store, m.entry, IdOf(c, x));
    case _ =>
  }

  lemma SettledKept(c: Config, s: State, m: Move, pid: Pid)
    requires StoreOk(c, s.log, s.store) && Justified(c, s.log, m.entry) && Settled(s, pid)
    requires RecPublished([m.entry], 0, pid) ==>
               m.entry.id in s.store.rows && !IsStuck(s.store.rows[m.entry.id].status)
    ensures Settled(After(s, m), pid)
  {
    var s' := After(s, m);
    forall i | RecPublished(s'.log, i, pid)
      ensures s'.log[i].id in s'.store.rows && !IsStuck(s'.store.rows[s'.log[i].id].status)
    {
      if i < |s.log| {
        assert RecPublished(s.log, i, pid);
      }
      EntryMovesForward(c, s.log, s.store, m.entry, s'.log[i].id);
    }
  }

  lemma DistinctKept(log: seq<Entry>, e: Entry, pid: Pid)
    requires DistinctOrders(log, pid) && (RecPublished([e], 0, pid) ==> NotYet(log, pid, e.id))
    ensures DistinctOrders(log + [e], pid)
  {
    var log' := log + [e];
    forall i, j | RecPublished(log', i, pid) && RecPublished(log', j, pid) && i < j ensures log'[i].id != log'[j].id {
      assert RecPublished(log, i, pid);
      if j < |log| {
        assert RecPublished(log, j, pid);
      }
    }
  }

  /** An order the reconciler is about to publish is settled and not yet published. */
  lemma PublishIsFirst(c: Config, s: State, m: Move, pid: Pid)
    requires RecInv(c, s, pid) && Enabled(c, s, m) && RecPublished([m.entry], 0, pid)
    ensures NotYet(s.log, pid, m.entry.id)
    ensures m.entry.id in s.store.rows && !IsStuck(s.store.rows[m.entry.id].status)
  {
    OriginIsMover(c, s, m);
    var a := s.procs[pid];
    FreshTail(c, s.log, pid, [a.snapshot] + a.queue);
  }

  lemma RolesAreKept(c: Config, s: State, m: Move)
    requires Enabled(c, s, m) && !InRec(s.procs[m.pid])
    ensures !InRec(m.next)
  {
  }

  lemma OwnMoveKept(c: Config, s: State, m: Move)
    requires Inv(c, s) && RecInv(c, s, m.pid) && Enabled(c, s, m) && InRec(s.procs[m.pid])
    ensures RecLocalOk(c, After(s, m), m.pid, m.next)
  {
    RecMoveOk(c, s, m.pid, s.procs[m.pid], m.entry, m.next);
  }

  lemma OtherMoveKept(c: Config, s: State, m: Move, pid: Pid)
    requires Collisionless(c) && Inv(c, s) && RecInv(c, s, pid) && Enabled(c, s, m) && pid in s.procs && m.pid != pid
    ensures RecLocalOk(c, After(s, m), pid, s.procs[pid])
  {
    OriginIsMover(c, s, m);
    MoveSafe(c, s, m);
    OtherMoveOk(c, s, m, pid, s.procs[pid]);
  }

  lemma MoveKeepsRecInv(c: Config, s: State, m: Move, pid: Pid)
    requires Collisionless(c) && Inv(c, s) && RecInv(c, s, pid) && Enabled(c, s, m)
    ensures RecInv(c, After(s, m), pid)
  {
    MoveSafe(c, s, m);
    if RecPublished([m.entry], 0, pid) {
      PublishIsFirst(c, s, m, pid);
    }
    DistinctKept(s.log, m.entry, pid);
    SettledKept(c, s, m, pid);
    if m.pid == pid && InRec(s.procs[pid]) {
      OwnMoveKept(c, s, m);
    } else if m.pid == pid {
      RolesAreKept(c, s, m);
    } else if pid in s.procs {
      OtherMoveKept(c, s, m, pid);
    }
  }

  lemma RecInvNext(c: Config, s0: State, run: seq<Move>, n: nat, pid: Pid)
    requires Collisionless(c) && IsRun(c, s0, run) && n < |run| && RecInv(c, At(s0, run, n), pid)
    ensures RecInv(c, At(s0, run, n + 1), pid)
  {
    RunStep(c, s0, run, n);
    MoveKeepsRecInv(c, At(s0, run, n), run[n], pid);
  }

  lemma {:induction false} RunKeepsRecInv(c: Config, s0: State, run: seq<Move>, n: nat, pid: Pid)
    requires Collisionless(c) && IsRun(c, s0, run) && n <= |run|
    ensures RecInv(c, At(s0, run, n), pid)
  {
    if n > 0 {
      RunKeepsRecInv(c, s0, run, n - 1, pid);
      RecInvNext(c, s0, run, n - 1, pid);
    }
  }

  /** In every run, with anything else going on, one reconciler process publishes at
      most one event per order. */
  lemma ReconcilerPublishesOnce(c: Config, s0: State, run: seq<Move>, n: nat, pid: Pid, i: nat, j: nat)
    requires Collisionless(c) && IsRun(c, s0, run) && n <= |run|
    requires var log := At(s0, run, n).log;
             RecPublished(log, i, pid) && RecPublished(log, j, pid) && log[i].id == log[j].id
    ensures i == j
  {
    RunKeepsRecInv(c, s0, run, n, pid);
  }
}
