/** The confirmation tracker: what has to happen before it publishes one order twice. */
module PaymentChain {
  import opened Domain
  import opened PaymentModel
  import opened PaymentSafety
  import opened PaymentTheorems
  import opened PaymentProgress

  // --- status writes and what undoes them ------------------------------------

  predicate Wrote(log: seq<Entry>, i: int, id: TxnId) {
    0 <= i < |log| && log[i].StatusWritten? && log[i].id == id
  }

  predicate FailedWrite(log: seq<Entry>, i: int, id: TxnId) { Wrote(log, i, id) && log[i].status == Failed }

  predicate TrackerPaid(log: seq<Entry>, i: int, pid: Pid, id: TxnId) {
    Wrote(log, i, id) && log[i].origin.ByTracker? && log[i].origin.pid == pid
  }

  predicate TrackerPublished(log: seq<Entry>, i: int, pid: Pid, id: TxnId) {
    0 <= i < |log| && log[i].Published? && log[i].origin.ByTracker? && log[i].origin.pid == pid && log[i].id == id
  }

  ghost predicate FailedBetween(log: seq<Entry>, a: int, b: int, id: TxnId) {
    exists f :: a < f < b && FailedWrite(log, f, id)
  }

  ghost predicate PaidBetween(log: seq<Entry>, a: int, b: int, pid: Pid, id: TxnId) {
    exists w :: a < w < b && TrackerPaid(log, w, pid, id)
  }

  /** A paid or refunded order stays so until someone writes `failed`. */
  ghost predicate FinalUnlessFailed(log: seq<Entry>, rows: map<TxnId, Transaction>) {
    forall a, id | Wrote(log, a, id) && IsFinal(log[a].status) ::
      FailedBetween(log, a, |log|, id) || (id in rows && IsFinal(rows[id].status))
  }

  /** Every write the tracker made so far to this order has since been undone. */
  ghost predicate AllUndone(log: seq<Entry>, pid: Pid, id: TxnId) {
    forall a | TrackerPaid(log, a, pid, id) :: FailedBetween(log, a, |log|, id)
  }

  /** The tracker has written `paid` again since each publication. */
  ghost predicate PaidSincePublished(log: seq<Entry>, pid: Pid, id: TxnId) {
    forall i | TrackerPublished(log, i, pid, id) :: PaidBetween(log, i, |log|, pid, id)
  }

  ghost predicate TrkLocalOk(c: Config, log: seq<Entry>, pid: Pid, l: Local) {
    match l
    case TrkMark(_, _, _, _, _, Some(x)) => AllUndone(log, pid, IdOf(c, x))
    case TrkPay(_, _, _, _, x) => AllUndone(log, pid, IdOf(c, x))
    case TrkPublish(_, _, _, _, x) => PaidSincePublished(log, pid, IdOf(c, x))
    case _ => true
  }

  ghost predicate UndoneBetweenWrites(log: seq<Entry>, pid: Pid) {
    forall a, b, id | TrackerPaid(log, a, pid, id) && TrackerPaid(log, b, pid, id) && a < b ::
          FailedBetween(log, a, b, id)
  }

  ghost predicate PaidBetweenEvents(log: seq<Entry>, pid: Pid) {
    forall i, j, id | TrackerPublished(log, i, pid, id) && TrackerPublished(log, j, pid, id) && i < j ::
      PaidBetween(log, i, j, pid, id)
  }

  ghost predicate TrkInv(c: Config, s: State, pid: Pid) {
    && FinalUnlessFailed(s.log, s.store.rows)
    && UndoneBetweenWrites(s.log, pid)
    && PaidBetweenEvents(s.log, pid)
    && (pid in s.procs ==> TrkLocalOk(c, s.log, pid, s.procs[pid]))
  }

  // --- every move keeps it ---------------------------------------------------

  lemma FailedBetweenGrows(log: seq<Entry>, e: Entry, a: int, b: int, id: TxnId)
    requires FailedBetween(log, a, b, id)
    ensures FailedBetween(log + [e], a, b, id) && FailedBetween(log + [e], a, b + 1, id)
  {
    var f :| a < f < b && FailedWrite(log, f, id);
    assert FailedWrite(log + [e], f, id);
  }

  lemma PaidBetweenGrows(log: seq<Entry>, e: Entry, a: int, b: int, pid: Pid, id: TxnId)
    requires PaidBetween(log, a, b, pid, id)
    ensures PaidBetween(log + [e], a, b, pid, id) && PaidBetween(log + [e], a, b + 1, pid, id)
  {
    var w :| a < w < b && TrackerPaid(log, w, pid, id);
    assert TrackerPaid(log + [e], w, pid, id);
  }

  lemma WrittenWasInserted(c: Config, log: seq<Entry>, a: int, id: TxnId)
    requires AllJustified(c, log) && Wrote(log, a, id)
    ensures exists i :: 0 <= i < |log| && log[i].Inserted? && log[i].id == id
  {
    var k := WriteFollowsInsert(c, log, a);
    assert log[k].Inserted? && log[k].id == id;
  }

  /** A justified entry never re-inserts a written order, nor writes an odd status. */
  lemma EntryIsTame(c: Config, log: seq<Entry>, e: Entry, a: int, id: TxnId)
    requires AllJustified(c, log) && Justified(c, log, e) && Wrote(log, a, id)
    ensures e.Inserted? ==> e.id != id
    ensures e.StatusWritten? ==> IsFinal(e.status) || e.status == Failed
  {
    WrittenWasInserted(c, log, a, id);
  }

  lemma OldWriteStaysFinal(log: seq<Entry>, st: Store, e: Entry, a: int, id: TxnId)
    requires Wrote(log, a, id) && (e.Inserted? ==> e.id != id)
             && (e.StatusWritten? ==> IsFinal(e.status) || e.status == Failed)
    requires FailedBetween(log, a, |log|, id) || (id in st.rows && IsFinal(st.rows[id].status))
    ensures FailedBetween(log + [e], a, |log| + 1, id)
            || (id in Apply(st, e).rows && IsFinal(Apply(st, e).rows[id].status))
  {
    if FailedBetween(log, a, |log|, id) {
      FailedBetweenGrows(log, e, a, |log|, id);
    } else if e.StatusWritten? && e.id == id && e.status == Failed {
      assert FailedWrite(log + [e], |log|, id);
    }
  }

  lemma FinalUnlessFailedKept(c: Config, log: seq<Entry>, st: Store, e: Entry)
    requires StoreOk(c, log, st) && AllJustified(c, log) && Justified(c, log, e) && FinalUnlessFailed(log, st.rows)
    ensures FinalUnlessFailed(log + [e], Apply(st, e).rows)
  {
    var log', rows' := log + [e], Apply(st, e).rows;
    forall a, id | Wrote(log', a, id) && IsFinal(log'[a].status)
      ensures FailedBetween(log', a, |log'|, id) || (id in rows' && IsFinal(rows'[id].status))
    {
      if a == |log| {
        var i :| 0 <= i < |log| && log[i].Inserted? && log[i].id == id;
      } else {
        assert Wrote(log, a, id);
        EntryIsTame(c, log, e, a, id);
        OldWriteStaysFinal(log, st, e, a, id);
      }
    }
  }

  lemma UndoneBetweenWritesKept(log: seq<Entry>, e: Entry, pid: Pid)
    requires UndoneBetweenWrites(log, pid)
    requires e.StatusWritten? && e.origin.ByTracker? && e.origin.pid == pid ==> AllUndone(log, pid, e.id)
    ensures UndoneBetweenWrites(log + [e], pid)
  {
    var log' := log + [e];
    forall a, b, id | TrackerPaid(log', a, pid, id) && TrackerPaid(log', b, pid, id) && a < b
      ensures FailedBetween(log', a, b, id)
    {
      assert TrackerPaid(log, a, pid, id);
      assert b < |log| ==> TrackerPaid(log, b, pid, id);
      FailedBetweenGrows(log, e, a, b, id);
    }
  }

  lemma PaidBetweenEventsKept(log: seq<Entry>, e: Entry, pid: Pid)
    requires PaidBetweenEvents(log, pid)
    requires e.Published? && e.origin.ByTracker? && e.origin.pid == pid ==> PaidSincePublished(log, pid, e.id)
    ensures PaidBetweenEvents(log + [e], pid)
  {
    var log' := log + [e];
    forall i, j, id | TrackerPublished(log', i, pid, id) && TrackerPublished(log', j, pid, id) && i < j
      ensures PaidBetween(log', i, j, pid, id)
    {
      assert TrackerPublished(log, i, pid, id);
      assert j < |log| ==> TrackerPublished(log, j, pid, id);
      PaidBetweenGrows(log, e, i, j, pid, id);
    }
  }

  lemma AllUndoneKept(log: seq<Entry>, e: Entry, pid: Pid, id: TxnId)
    requires AllUndone(log, pid, id)
    requires e.StatusWritten? && e.origin.ByTracker? ==> e.origin.pid != pid
    ensures AllUndone(log + [e], pid, id)
  {
    forall a | TrackerPaid(log + [e], a, pid, id) ensures FailedBetween(log + [e], a, |log + [e]|, id) {
      assert TrackerPaid(log, a, pid, id);
      FailedBetweenGrows(log, e, a, |log|, id);
    }
  }

  lemma PaidSincePublishedKept(log: seq<Entry>, e: Entry, pid: Pid, id: TxnId)
    requires PaidSincePublished(log, pid, id)
    requires e.Published? && e.origin.ByTracker? ==> e.origin.pid != pid
    ensures PaidSincePublished(log + [e], pid, id)
  {
    forall i | TrackerPublished(log + [e], i, pid, id) ensures PaidBetween(log + [e], i, |log + [e]|, pid, id) {
      assert TrackerPublished(log, i, pid, id);
      PaidBetweenGrows(log, e, i, |log|, pid, id);
    }
  }

  lemma TrkLocalKept(c: Config, log: seq<Entry>, e: Entry, pid: Pid, l: Local)
    requires TrkLocalOk(c, log, pid, l)
    requires e.StatusWritten? || e.Published? ==> e.origin.pid != pid
    ensures TrkLocalOk(c, log + [e], pid, l)
  {
    match l
    case TrkMark(_, _, _, _, _, Some(x)) => AllUndoneKept(log, e, pid, IdOf(c, x));
    case TrkPay(_, _, _, _, x) => AllUndoneKept(log, e, pid, IdOf(c, x));
    case TrkPublish(_, _, _, _, x) => PaidSincePublishedKept(log, e, pid, IdOf(c, x));
    case _ =>
  }

  /** An order read as not final has had all the tracker's writes undone. */
  lemma NotFinalIsUndone(c: Config, log: seq<Entry>, rows: map<TxnId, Transaction>, pid: Pid, id: TxnId)
    requires AllJustified(c, log) && FinalUnlessFailed(log, rows) && id in rows && !IsFinal(rows[id].status)
    ensures AllUndone(log, pid, id)
  {
    forall a | TrackerPaid(log, a, pid, id) ensures FailedBetween(log, a, |log|, id) {
      var m := PaidFollowsMark(c, log, a);
      assert Wrote(log, a, id) && IsFinal(log[a].status);
    }
  }

  lemma TrkOrderOk(c: Config, log: seq<Entry>, st: Store, pid: Pid, a: Local, e: Entry, b: Local)
    requires StoreOk(c, log, st) && AllJustified(c, log) && FinalUnlessFailed(log, st.rows)
    requires a.TrkOrder? && TrkAct(c, st, pid, a, e, b) && b.TrkMark? && b.pay.Some?
    ensures AllUndone(log, pid, IdOf(c, b.pay.value))
  {
    NotFinalIsUndone(c, log, st.rows, pid, IdOf(c, b.pay.value));
  }

  lemma PaidIsSince(log: seq<Entry>, e: Entry, pid: Pid, id: TxnId)
    requires e.StatusWritten? && e.id == id && e.origin.ByTracker? && e.origin.pid == pid
    ensures PaidSincePublished(log + [e], pid, id)
  {
    forall i | TrackerPublished(log + [e], i, pid, id) ensures PaidBetween(log + [e], i, |log + [e]|, pid, id) {
      assert TrackerPaid(log + [e], |log|, pid, id);
    }
  }

  lemma TrkPayOk(c: Config, log: seq<Entry>, st: Store, pid: Pid, a: Local, e: Entry, b: Local)
    requires TrkLocalOk(c, log, pid, a) && InTrk(a) && TrkAct(c, st, pid, a, e, b) && b.TrkPay?
    ensures TrkLocalOk(c, log + [e], pid, b)
  {
    AllUndoneKept(log, e, pid, IdOf(c, b.snapshot));
  }

  lemma TrkMoveOk(c: Config, log: seq<Entry>, st: Store, pid: Pid, a: Local, e: Entry, b: Local)
    requires StoreOk(c, log, st) && AllJustified(c, log) && FinalUnlessFailed(log, st.rows)
    requires TrkLocalOk(c, log, pid, a) && InTrk(a) && TrkAct(c, st, pid, a, e, b)
    ensures TrkLocalOk(c, log + [e], pid, b)
  {
    if a.TrkOrder? && b.TrkMark? && b.pay.Some? {
      TrkOrderOk(c, log, st, pid, a, e, b);
      AllUndoneKept(log, e, pid, IdOf(c, b.pay.value));
    } else if b.TrkPay? {
      TrkPayOk(c, log, st, pid, a, e, b);
    } else if b.TrkPublish? {
      PaidIsSince(log, e, pid, IdOf(c, b.snapshot));
    }
  }

  lemma TrkRolesAreKept(c: Config, s: State, m: Move)
    requires Enabled(c, s, m) && !InTrk(s.procs[m.pid])
    ensures !InTrk(m.next)
  {
  }

  lemma TrkLocalNext(c: Config, s: State, m: Move, pid: Pid)
    requires Inv(c, s) && TrkInv(c, s, pid) && Enabled(c, s, m) && pid in s.procs
    ensures TrkLocalOk(c, s.log + [m.entry], pid, After(s, m).procs[pid])
  {
    OriginIsMover(c, s, m);
    if m.pid != pid {
      TrkLocalKept(c, s.log, m.entry, pid, s.procs[pid]);
    } else if InTrk(s.procs[pid]) {
      TrkMoveOk(c, s.log, s.store, pid, s.procs[pid], m.entry, m.next);
    } else {
      TrkRolesAreKept(c, s, m);
    }
  }

  /** What the tracker knows when it writes `paid`, and when it publishes. */
  lemma OwnEffectsAreGuarded(c: Config, s: State, m: Move, pid: Pid)
    requires TrkInv(c, s, pid) && Enabled(c, s, m)
    ensures m.entry.StatusWritten? && m.entry.origin.ByTracker? && m.entry.origin.pid == pid ==>
              AllUndone(s.log, pid, m.entry.id)
    ensures m.entry.Published? && m.entry.origin.ByTracker? && m.entry.origin.pid == pid ==>
              PaidSincePublished(s.log, pid, m.entry.id)
  {
    OriginIsMover(c, s, m);
  }

  lemma MoveKeepsTrkInv(c: Config, s: State, m: Move, pid: Pid)
    requires Collisionless(c) && Inv(c, s) && TrkInv(c, s, pid) && Enabled(c, s, m)
    ensures TrkInv(c, After(s, m), pid)
  {
    MoveSafe(c, s, m);
    OwnEffectsAreGuarded(c, s, m, pid);
    FinalUnlessFailedKept(c, s.log, s.store, m.entry);
    UndoneBetweenWritesKept(s.log, m.entry, pid);
    PaidBetweenEventsKept(s.log, m.entry, pid);
    if pid in s.procs {
      TrkLocalNext(c, s, m, pid);
    }
  }

  lemma TrkInvNext(c: Config, s0: State, run: seq<Move>, n: nat, pid: Pid)
    requires Collisionless(c) && IsRun(c, s0, run) && n < |run| && TrkInv(c, At(s0, run, n), pid)
    ensures TrkInv(c, At(s0, run, n + 1), pid)
  {
    RunStep(c, s0, run, n);
    MoveKeepsTrkInv(c, At(s0, run, n), run[n], pid);
  }

  lemma {:induction false} RunKeepsTrkInv(c: Config, s0: State, run: seq<Move>, n: nat, pid: Pid)
    requires Collisionless(c) && IsRun(c, s0, run) && n <= |run|
    ensures TrkInv(c, At(s0, run, n), pid)
  {
    if n > 0 {
      RunKeepsTrkInv(c, s0, run, n - 1, pid);
      TrkInvNext(c, s0, run, n - 1, pid);
    }
  }

  /** Two events of one tracker for one order: between the two paid writes behind
      them, a webhook or the reconciler wrote `failed` to that order. */
  lemma RepublishNeedsFailure(c: Config, s0: State, run: seq<Move>, n: nat, pid: Pid, id: TxnId, i: nat, j: nat)
    requires Collisionless(c) && IsRun(c, s0, run) && n <= |run| && i < j
    requires var log := At(s0, run, n).log; TrackerPublished(log, i, pid, id) && TrackerPublished(log, j, pid, id)
    ensures var log := At(s0, run, n).log;
            exists w, f :: 0 <= w < i && TrackerPaid(log, w, pid, id)
                           && w < f < j && FailedWrite(log, f, id) && !log[f].origin.ByTracker?
  {
    var log := At(s0, run, n).log;
    RunKeepsTrkInv(c, s0, run, n, pid);
    RunIsJustified(c, s0, run, n);
    var w, f := RepublishOnLog(c, log, pid, id, i, j);
  }

  lemma RepublishOnLog(c: Config, log: seq<Entry>, pid: Pid, id: TxnId, i: nat, j: nat) returns (w: nat, f: nat)
    requires AllJustified(c, log) && UndoneBetweenWrites(log, pid) && PaidBetweenEvents(log, pid)
    requires TrackerPublished(log, i, pid, id) && TrackerPublished(log, j, pid, id) && i < j
    ensures w < i && TrackerPaid(log, w, pid, id)
    ensures w < f < j && FailedWrite(log, f, id) && !log[f].origin.ByTracker?
  {
    w := WriteBehindEvent(c, log, i);
    assert PaidBetween(log, i, j, pid, id);
    var w' :| i < w' < j && TrackerPaid(log, w', pid, id);
    assert TrackerPaid(log, w, pid, id) && FailedBetween(log, w, w', id);
    f :| w < f < w' && FailedWrite(log, f, id);
    TrackerWritesPaid(c, log, f);
  }

  lemma WriteBehindEvent(c: Config, log: seq<Entry>, i: nat) returns (w: nat)
    requires AllJustified(c, log) && i < |log| && log[i].Published?
    ensures w < i && log[w] == StatusWritten(log[i].id, log[i].event.status, log[i].origin)
  {
    assert Justified(c, log[..i], log[i]);
    w :| 0 <= w < |log[..i]| && log[..i][w] == StatusWritten(log[i].id, log[i].event.status, log[i].origin);
  }

  lemma TrackerWritesPaid(c: Config, log: seq<Entry>, f: nat)
    requires AllJustified(c, log) && f < |log| && log[f].StatusWritten?
    ensures log[f].origin.ByTracker? ==> log[f].status == Paid
  {
    assert Justified(c, log[..f], log[f]);
  }

  /** In particular the tracker publishes at most once an order nobody marks failed. */
  lemma TrackerPublishesOnce(c: Config, s0: State, run: seq<Move>, n: nat, pid: Pid, id: TxnId, i: nat, j: nat)
    requires Collisionless(c) && IsRun(c, s0, run) && n <= |run|
    requires var log := At(s0, run, n).log;
             TrackerPublished(log, i, pid, id) && TrackerPublished(log, j, pid, id)
             && forall f :: !FailedWrite(log, f, id)
    ensures i == j
  {
    if i < j {
      RepublishNeedsFailure(c, s0, run, n, pid, id, i, j);
    } else if j < i {
      RepublishNeedsFailure(c, s0, run, n, pid, id, j, i);
    }
  }
}
