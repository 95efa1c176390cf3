/** What every run of the payment model keeps. The invariant says that each entry
    of the history is justified by the entries before it; the theorems read the
    promises about creation, events and evidence off that history. */
module PaymentSafety {
  import opened Domain
  import opened PaymentModel
  import Codec

  // --- facts about a history -------------------------------------------------

  /** Two versions of one order: everything a payment is about agrees. */
  predicate SameOrder(a: Transaction, b: Transaction) {
    && a.merchant == b.merchant && a.id == b.id && a.order == b.order
    && a.amount == b.amount && a.currency == b.currency && a.payMethod == b.payMethod && a.createdAt == b.createdAt
  }

  ghost predicate InsertedAt(log: seq<Entry>, i: int, id: TxnId, x: Transaction) {
    0 <= i < |log| && log[i].Inserted? && log[i].id == id && SameOrder(log[i].row, x)
  }

  /** `x` is a version of the order some Create inserted under `id`. */
  ghost predicate Born(log: seq<Entry>, id: TxnId, x: Transaction) {
    exists i :: InsertedAt(log, i, id, x)
  }

  ghost predicate InsertedFor(c: Config, log: seq<Entry>, r: Request, pid: Pid) {
    exists i :: InsertedForAt(c, log, i, r, pid)
  }

  ghost predicate InsertedForAt(c: Config, log: seq<Entry>, i: int, r: Request, pid: Pid) {
    && 0 <= i < |log| && log[i].Inserted? && log[i].pid == pid
    && log[i].id == TxnIdOf(c, r.merchant, r.order) && log[i].row == NewRow(c, r, log[i].row.createdAt)
  }

  predicate SameTransfer(a: ChainRow, b: ChainRow) {
    a.block == b.block && a.order == b.order && a.amount == b.amount && a.required == b.required
  }

  ghost predicate ChainInsertedAt(log: seq<Entry>, i: int, tx: ChainItem) {
    0 <= i < |log| && log[i].ChainInserted? && log[i].hash == tx.hash && SameTransfer(log[i].chainRow, tx.row)
  }

  ghost predicate OnChain(log: seq<Entry>, tx: ChainItem) {
    exists i :: ChainInsertedAt(log, i, tx)
  }

  /** A transfer deep enough and with a good receipt, for an order of that amount. */
  ghost predicate Pays(log: seq<Entry>, tx: ChainItem, depth: nat, x: Transaction) {
    && Deep(log, tx, depth)
    && tx.row.order == x.order && Codec.WrapInt64(tx.row.amount) == x.amount
  }

  /** The transfer has a good receipt and lies at least the required number of blocks, exactly
      `depth`, below a head the node reported. */
  ghost predicate Deep(log: seq<Entry>, tx: ChainItem, depth: nat) {
    && OnChain(log, tx) && ReceiptRead(tx.hash, Good) in log && depth >= tx.row.required
    && HeadRead(tx.row.block + depth) in log
  }

  /** Some inserted order has this transfer's order id and another amount. */
  ghost predicate Mismatched(log: seq<Entry>, tx: ChainItem) {
    exists id, x :: Born(log, id, x) && x.order == tx.row.order && x.amount != Codec.WrapInt64(tx.row.amount)
  }

  /** What has to precede a mark on a chain row. */
  ghost predicate MarkEvidence(log: seq<Entry>, tx: ChainItem, mark: ChainStatus, depth: nat) {
    match mark
    case Confirmed => Deep(log, tx, depth)
    case Reorged => ReceiptRead(tx.hash, Missing) in log
    case ChainFailed => ReceiptRead(tx.hash, Reverted) in log || (Deep(log, tx, depth) && Mismatched(log, tx))
    case ChainPending =>
      && OnChain(log, tx) && ReceiptRead(tx.hash, Good) in log && depth < tx.row.required
      && HeadRead(tx.row.block + depth) in log
  }

  // --- the invariant ---------------------------------------------------------

  /** Why an entry was allowed, in terms of the history before it. */
  ghost predicate Justified(c: Config, log: seq<Entry>, e: Entry) {
    match e
    case Inserted(id, row, _) =>
      id == IdOf(c, row) && row.id == id && row.status == Created && row.amount > 0
          && ToUpper(row.currency) == row.currency
      && forall i | 0 <= i < |log| && log[i].Inserted? :: log[i].id != id
    case SessionCalled(id, pid) =>
      && (exists i :: 0 <= i < |log| && log[i].Inserted? && log[i].id == id && log[i].pid == pid)
      && SessionCalled(id, pid) !in log
    case CheckoutWritten(id, _, _) => exists i :: 0 <= i < |log| && log[i].Inserted? && log[i].id == id
    case StatusWritten(id, status, origin) =>
      && (exists i :: 0 <= i < |log| && log[i].Inserted? && log[i].id == id)
      && Evidence(log, id, status, origin)
    case Published(id, ev, origin) =>
      && (exists x :: Born(log, id, x) && ev.merchant == x.merchant && ev.order == x.order
                      && ev.amount == x.amount && ev.currency == x.currency)
      && StatusWritten(id, ev.status, origin) in log
    case ChainInserted(hash, _) => forall i | 0 <= i < |log| && log[i].ChainInserted? :: log[i].hash != hash
    case ChainMarked(hash, status, depth, _) =>
      exists tx: ChainItem :: tx.hash == hash && MarkEvidence(log, tx, status, depth)
    case _ => true
  }

  /** What has to precede a status write, by writer. */
  ghost predicate Evidence(log: seq<Entry>, id: TxnId, status: Status, origin: Origin) {
    match origin
    case ByWebhook(_, pi) =>
      (status == Paid || status == Failed || status == Refunded)
      && (status == Paid && pi != "" ==> IntentRead(pi, IntentSucceeded) in log)
    case ByReconciler(_, pi) =>
      || (status == Paid && IntentRead(pi, IntentSucceeded) in log)
      || (status == Failed && IntentRead(pi, IntentClosed) in log)
    case ByTracker(pid, tx, depth) =>
      && status == Paid && ChainMarked(tx.hash, Confirmed, depth, pid) in log
      && exists x :: Born(log, id, x) && Pays(log, tx, depth, x)
  }

  ghost predicate StoreOk(c: Config, log: seq<Entry>, st: Store) {
    && (forall id | id in st.rows :: st.rows[id].id == id == IdOf(c, st.rows[id]) && Born(log, id, st.rows[id]))
    && (forall i | 0 <= i < |log| && log[i].Inserted? ::
          log[i].id in st.rows && SameOrder(log[i].row, st.rows[log[i].id]))
    && (forall i | 0 <= i < |log| && log[i].ChainInserted? :: log[i].hash in st.chain)
    && (forall h | h in st.chain :: OnChain(log, ChainItem(h, st.chain[h])))
  }

  /** What a process may rely on; every fact here survives other processes' moves. */
  ghost predicate LocalOk(c: Config, log: seq<Entry>, pid: Pid, l: Local) {
    match l
    case CreateSession(r) => InsertedFor(c, log, r, pid) && SessionCalled(TxnIdOf(c, r.merchant, r.order), pid) !in log
    case CreatePersist(r, _, _) => InsertedFor(c, log, r, pid)
    case CreateDone(r, Accepted(id)) => id == TxnIdOf(c, r.merchant, r.order) && InsertedFor(c, log, r, pid)
    case CreateDone(r, Replayed(x)) =>
      Born(log, x.id, x) && x.id == IdOf(c, x) && x.merchant == r.merchant && x.order == r.order
      && LookupReply(c, r, x) == Replayed(x)
    case CreateDone(r, Conflict(x)) =>
      Born(log, x.id, x) && x.id == IdOf(c, x) && x.merchant == r.merchant && x.order == r.order
      && LookupReply(c, r, x) == Conflict(x)
    case HookWrite(_, _, status, pi) =>
      (status == Paid || status == Failed || status == Refunded)
      && (status == Paid && pi != "" ==> IntentRead(pi, IntentSucceeded) in log)
    case HookRead(m, o, status, pi) => StatusWritten(TxnIdOf(c, m, o), status, ByWebhook(pid, pi)) in log
    case HookPublish(x, status, pi) =>
      Born(log, IdOf(c, x), x) && StatusWritten(IdOf(c, x), status, ByWebhook(pid, pi)) in log
    case RecLoop(q) => forall x | x in q :: Born(log, IdOf(c, x), x)
    case RecWrite(q, x, status, pi) =>
      && (forall y | y in q :: Born(log, IdOf(c, y), y)) && Born(log, IdOf(c, x), x)
      && (|| (status == Paid && IntentRead(pi, IntentSucceeded) in log)
          || (status == Failed && IntentRead(pi, IntentClosed) in log))
    case RecPublish(q, x, pi) =>
      && (forall y | y in q :: Born(log, IdOf(c, y), y)) && Born(log, IdOf(c, x), x)
      && StatusWritten(IdOf(c, x), Paid, ByReconciler(pid, pi)) in log
    case TrkList(latest) => HeadRead(latest) in log
    case TrkLoop(latest, todo) => HeadRead(latest) in log && forall tx | tx in todo :: OnChain(log, tx)
    case TrkOrder(latest, todo, tx) =>
      && HeadRead(latest) in log && (forall y | y in todo :: OnChain(log, y))
      && latest >= tx.row.block && Deep(log, tx, latest - tx.row.block)
    case TrkMark(latest, todo, tx, mark, depth, pay) =>
      && HeadRead(latest) in log && (forall y | y in todo :: OnChain(log, y)) && OnChain(log, tx)
      && MarkEvidence(log, tx, mark, depth)
      && (pay.Some? ==>
            mark == Confirmed && Born(log, IdOf(c, pay.value), pay.value) && Pays(log, tx, depth, pay.value))
    case TrkPay(latest, todo, tx, depth, x) =>
      && HeadRead(latest) in log && (forall y | y in todo :: OnChain(log, y))
      && ChainMarked(tx.hash, Confirmed, depth, pid) in log
      && Born(log, IdOf(c, x), x) && Pays(log, tx, depth, x)
    case ChkMark(_, tx, mark) =>
      && (mark == Reorged || mark == ChainFailed)
      && MarkEvidence(log, tx, mark, tx.row.confirmations)
    case TrkPublish(latest, todo, tx, depth, x) =>
      && HeadRead(latest) in log && (forall y | y in todo :: OnChain(log, y))
      && Born(log, IdOf(c, x), x) && StatusWritten(IdOf(c, x), Paid, ByTracker(pid, tx, depth)) in log
    case _ => true
  }

  ghost predicate AllJustified(c: Config, log: seq<Entry>) {
    forall i | 0 <= i < |log| :: Justified(c, log[..i], log[i])
  }

  ghost predicate Inv(c: Config, s: State) {
    && StoreOk(c, s.log, s.store)
    && AllJustified(c, s.log)
    && forall p | p in s.procs :: LocalOk(c, s.log, p, s.procs[p])
  }

  // --- histories only grow ---------------------------------------------------

  lemma BornGrows(log: seq<Entry>, e: Entry, id: TxnId, x: Transaction)
    requires Born(log, id, x)
    ensures Born(log + [e], id, x)
  {
    var i :| InsertedAt(log, i, id, x);
    assert InsertedAt(log + [e], i, id, x);
  }

  lemma InsertedForGrows(c: Config, log: seq<Entry>, e: Entry, r: Request, pid: Pid)
    requires InsertedFor(c, log, r, pid)
    ensures InsertedFor(c, log + [e], r, pid)
  {
    var i :| InsertedForAt(c, log, i, r, pid);
    assert InsertedForAt(c, log + [e], i, r, pid);
  }

  lemma OnChainGrows(log: seq<Entry>, e: Entry, tx: ChainItem)
    requires OnChain(log, tx)
    ensures OnChain(log + [e], tx)
  {
    var i :| ChainInsertedAt(log, i, tx);
    assert ChainInsertedAt(log + [e], i, tx);
  }

  lemma MarkEvidenceGrows(log: seq<Entry>, e: Entry, tx: ChainItem, mark: ChainStatus, depth: nat)
    requires MarkEvidence(log, tx, mark, depth)
    ensures MarkEvidence(log + [e], tx, mark, depth)
  {
    if OnChain(log, tx) {
      OnChainGrows(log, e, tx);
    }
    if Mismatched(log, tx) {
      var id, x: Transaction :| Born(log, id, x) && x.order == tx.row.order
          && x.amount != Codec.WrapInt64(tx.row.amount);
      BornGrows(log, e, id, x);
    }
  }

  /** A process keeps its facts while someone else moves. */
  lemma LocalOkGrows(c: Config, log: seq<Entry>, e: Entry, pid: Pid, l: Local)
    requires LocalOk(c, log, pid, l)
    requires e.SessionCalled? ==> e.pid != pid
    ensures LocalOk(c, log + [e], pid, l)
  {
    forall id, x | Born(log, id, x) ensures Born(log + [e], id, x) { BornGrows(log, e, id, x); }
    forall r | InsertedFor(c, log, r, pid)
      ensures InsertedFor(c, log + [e], r, pid) { InsertedForGrows(c, log, e, r, pid); }
    forall tx | OnChain(log, tx) ensures OnChain(log + [e], tx) { OnChainGrows(log, e, tx); }
    if l.TrkMark? {
      MarkEvidenceGrows(log, e, l.tx, l.mark, l.depth);
    } else if l.ChkMark? {
      MarkEvidenceGrows(log, e, l.tx, l.mark, l.tx.row.confirmations);
    }
  }

  lemma AllJustifiedGrows(c: Config, log: seq<Entry>, e: Entry)
    requires AllJustified(c, log) && Justified(c, log, e)
    ensures AllJustified(c, log + [e])
  {
    forall i | 0 <= i < |log + [e]| ensures Justified(c, (log + [e])[..i], (log + [e])[i]) {
      if i < |log| {
        assert (log + [e])[..i] == log[..i];
      } else {
        assert (log + [e])[..i] == log;
      }
    }
  }

  // --- every move keeps the invariant ----------------------------------------

  lemma RowsOkGrow(c: Config, log: seq<Entry>, st: Store, e: Entry, id: TxnId)
    requires StoreOk(c, log, st) && Justified(c, log, e) && id in Apply(st, e).rows
    ensures var x := Apply(st, e).rows[id]; x.id == id == IdOf(c, x) && Born(log + [e], id, x)
  {
    var x := Apply(st, e).rows[id];
    if e.Inserted? && id == e.id {
      assert InsertedAt(log + [e], |log|, id, x);
    } else {
      var i :| InsertedAt(log, i, id, st.rows[id]);
      assert InsertedAt(log + [e], i, id, x);
    }
  }

  lemma ChainOkGrows(c: Config, log: seq<Entry>, st: Store, e: Entry, h: string)
    requires StoreOk(c, log, st) && h in Apply(st, e).chain
    ensures OnChain(log + [e], ChainItem(h, Apply(st, e).chain[h]))
  {
    var tx := ChainItem(h, Apply(st, e).chain[h]);
    if e.ChainInserted? && h == e.hash {
      assert ChainInsertedAt(log + [e], |log|, tx);
    } else {
      var i :| ChainInsertedAt(log, i, ChainItem(h, st.chain[h]));
      assert ChainInsertedAt(log + [e], i, tx);
    }
  }

  lemma StoreOkGrows(c: Config, log: seq<Entry>, st: Store, e: Entry)
    requires StoreOk(c, log, st) && Justified(c, log, e)
    ensures StoreOk(c, log + [e], Apply(st, e))
  {
    var log', st' := log + [e], Apply(st, e);
    forall id | id in st'.rows ensures st'.rows[id].id == id == IdOf(c, st'.rows[id]) && Born(log', id, st'.rows[id]) {
      RowsOkGrow(c, log, st, e, id);
    }
    forall h | h in st'.chain ensures OnChain(log', ChainItem(h, st'.chain[h])) {
      ChainOkGrows(c, log, st, e, h);
    }
    InsertsStay(c, log, st, e);
  }

  /** What was inserted is still in the tables. */
  lemma InsertsStay(c: Config, log: seq<Entry>, st: Store, e: Entry)
    requires StoreOk(c, log, st) && Justified(c, log, e)
    ensures var log', st' := log + [e], Apply(st, e);
            && (forall i | 0 <= i < |log'| && log'[i].Inserted? ::
                  log'[i].id in st'.rows && SameOrder(log'[i].row, st'.rows[log'[i].id]))
            && (forall i | 0 <= i < |log'| && log'[i].ChainInserted? :: log'[i].hash in st'.chain)
  {
    var log', st' := log + [e], Apply(st, e);
    forall i | 0 <= i < |log'| && log'[i].Inserted?
      ensures log'[i].id in st'.rows && SameOrder(log'[i].row, st'.rows[log'[i].id])
    {
      assert i < |log| ==> log[i] == log'[i];
    }
    forall i | 0 <= i < |log'| && log'[i].ChainInserted? ensures log'[i].hash in st'.chain {
      assert i < |log| ==> log[i] == log'[i];
    }
  }

  /** The row behind a match was inserted, and is a version of that order. */
  lemma MatchIsBorn(c: Config, log: seq<Entry>, st: Store, id: TxnId)
    requires StoreOk(c, log, st) && id in st.rows
    ensures exists i :: 0 <= i < |log| && log[i].Inserted? && log[i].id == id
    ensures forall e :: Born(log + [e], id, st.rows[id])
  {
    var i :| InsertedAt(log, i, id, st.rows[id]);
    assert 0 <= i < |log| && log[i].Inserted? && log[i].id == id;
    forall e ensures Born(log + [e], id, st.rows[id]) { BornGrows(log, e, id, st.rows[id]); }
  }

  /** Every session call follows the insert it belongs to. */
  lemma SessionFollowsInsert(c: Config, log: seq<Entry>)
    requires AllJustified(c, log)
    ensures forall j | 0 <= j < |log| && log[j].SessionCalled? ::
              exists i :: 0 <= i < |log| && log[i].Inserted? && log[i].id == log[j].id
  {
    forall j | 0 <= j < |log| && log[j].SessionCalled?
      ensures exists i :: 0 <= i < |log| && log[i].Inserted? && log[i].id == log[j].id
    {
      assert Justified(c, log[..j], log[j]);
      var i :| 0 <= i < |log[..j]| && log[..j][i].Inserted? && log[..j][i].id == log[j].id;
      assert log[i].Inserted? && log[i].id == log[j].id;
    }
  }

  lemma CreateInsertSafe(c: Config, log: seq<Entry>, st: Store, pid: Pid, a: Local, e: Entry, b: Local)
    requires StoreOk(c, log, st) && AllJustified(c, log)
    requires a.CreateInsert? && CreateAct(c, st, pid, a, e, b)
    ensures Justified(c, log, e) && LocalOk(c, log + [e], pid, b)
  {
    if e.Inserted? {
      assert InsertedForAt(c, log + [e], |log|, a.req, pid);
      SessionFollowsInsert(c, log);
    }
  }

  lemma CreateLookupSafe(c: Config, log: seq<Entry>, st: Store, pid: Pid, a: Local, e: Entry, b: Local)
    requires Collisionless(c) && StoreOk(c, log, st)
    requires a.CreateLookup? && CreateAct(c, st, pid, a, e, b)
    ensures Justified(c, log, e) && LocalOk(c, log + [e], pid, b)
  {
    var id := TxnIdOf(c, a.req.merchant, a.req.order);
    if id in st.rows && st.rows[id].merchant == a.req.merchant {
      MatchIsBorn(c, log, st, id);
      SameMerchantSameOrder(c, a.req.merchant, a.req.order, st.rows[id].order);
    }
  }

  lemma CreateStripeSafe(c: Config, log: seq<Entry>, st: Store, pid: Pid, a: Local, e: Entry, b: Local)
    requires StoreOk(c, log, st) && LocalOk(c, log, pid, a)
    requires a.CreateSession? || a.CreatePersist?
    requires CreateAct(c, st, pid, a, e, b)
    ensures Justified(c, log, e) && LocalOk(c, log + [e], pid, b)
  {
    InsertedForGrows(c, log, e, a.req, pid);
    var i :| InsertedForAt(c, log, i, a.req, pid);
    assert 0 <= i < |log| && log[i].Inserted?;
  }

  lemma SameMerchantSameOrder(c: Config, merchant: string, o1: string, o2: string)
    requires Collisionless(c) && TxnIdOf(c, merchant, o1) == TxnIdOf(c, merchant, o2)
    ensures o1 == o2
  {
    assert o1 == (merchant + ":" + o1)[|merchant| + 1..];
    assert o2 == (merchant + ":" + o2)[|merchant| + 1..];
  }

  lemma HookSafe(c: Config, log: seq<Entry>, st: Store, pid: Pid, a: Local, e: Entry, b: Local)
    requires StoreOk(c, log, st) && LocalOk(c, log, pid, a)
    requires InHook(a)
    requires HookAct(c, st, pid, a, e, b)
    ensures Justified(c, log, e) && LocalOk(c, log + [e], pid, b)
  {
    if (a.HookWrite? || a.HookRead?) && Matches(c, st, a.merchant, a.order) {
      MatchIsBorn(c, log, st, TxnIdOf(c, a.merchant, a.order));
    }
  }

  lemma QueueGrows(c: Config, log: seq<Entry>, e: Entry, q: seq<Transaction>)
    requires forall x | x in q :: Born(log, IdOf(c, x), x)
    ensures forall x | x in q :: Born(log + [e], IdOf(c, x), x)
  {
    forall x | x in q ensures Born(log + [e], IdOf(c, x), x) { BornGrows(log, e, IdOf(c, x), x); }
  }

  lemma RecSafe(c: Config, log: seq<Entry>, st: Store, pid: Pid, a: Local, e: Entry, b: Local)
    requires StoreOk(c, log, st) && LocalOk(c, log, pid, a)
    requires InRec(a)
    requires RecAct(c, st, pid, a, e, b)
    ensures Justified(c, log, e) && LocalOk(c, log + [e], pid, b)
  {
    match a
    case RecIdle =>
      if b.RecLoop? {
        QueueGrows(c, log, e, b.queue);
      }
    case RecLoop(q) =>
      QueueGrows(c, log, e, q);
    case RecWrite(q, x, _, _) =>
      QueueGrows(c, log, e, q);
      BornGrows(log, e, IdOf(c, x), x);
      if Matches(c, st, x.merchant, x.order) {
        MatchIsBorn(c, log, st, IdOf(c, x));
      }
    case RecPublish(q, x, _) =>
      QueueGrows(c, log, e, q);
  }

  lemma TodoGrows(log: seq<Entry>, e: Entry, todo: seq<ChainItem>)
    requires forall tx | tx in todo :: OnChain(log, tx)
    ensures forall tx | tx in todo :: OnChain(log + [e], tx)
  {
    forall tx | tx in todo ensures OnChain(log + [e], tx) { OnChainGrows(log, e, tx); }
  }

  lemma TrkScanSafe(c: Config, log: seq<Entry>, st: Store, pid: Pid, a: Local, e: Entry, b: Local)
    requires StoreOk(c, log, st) && LocalOk(c, log, pid, a)
    requires a.TrkIdle? || a.TrkList? || a.TrkLoop?
    requires TrkAct(c, st, pid, a, e, b)
    ensures Justified(c, log, e) && LocalOk(c, log + [e], pid, b)
  {
    if a.TrkList? && b.TrkLoop? {
      TodoGrows(log, e, b.todo);
    } else if a.TrkLoop? {
      TodoGrows(log, e, a.todo);
    }
  }

  lemma AfterOrderOk(c: Config, log: seq<Entry>, pid: Pid, latest: nat, todo: seq<ChainItem>, tx: ChainItem,
                     x: Transaction)
    requires latest >= tx.row.block && Deep(log, tx, latest - tx.row.block) && HeadRead(latest) in log
    requires forall y | y in todo :: OnChain(log, y)
    requires Born(log, IdOf(c, x), x) && x.order == tx.row.order
    ensures LocalOk(c, log, pid, AfterOrder(latest, todo, tx, x))
  {
    assert x.amount != Codec.WrapInt64(tx.row.amount) ==> Mismatched(log, tx);
  }

  lemma TrkOrderSafe(c: Config, log: seq<Entry>, st: Store, pid: Pid, a: Local, e: Entry, b: Local)
    requires StoreOk(c, log, st) && LocalOk(c, log, pid, a)
    requires a.TrkOrder? && TrkAct(c, st, pid, a, e, b)
    ensures Justified(c, log, e) && LocalOk(c, log + [e], pid, b)
  {
    TodoGrows(log, e, a.todo);
    OnChainGrows(log, e, a.tx);
    if b != TrkLoop(a.latest, a.todo) {
      var id :| id in st.rows && st.rows[id].order == a.tx.row.order
          && b == AfterOrder(a.latest, a.todo, a.tx, st.rows[id]);
      MatchIsBorn(c, log, st, id);
      AfterOrderOk(c, log + [e], pid, a.latest, a.todo, a.tx, st.rows[id]);
    }
  }

  lemma TrkMarkSafe(c: Config, log: seq<Entry>, st: Store, pid: Pid, a: Local, e: Entry, b: Local)
    requires LocalOk(c, log, pid, a)
    requires a.TrkMark? && TrkAct(c, st, pid, a, e, b)
    ensures Justified(c, log, e) && LocalOk(c, log + [e], pid, b)
  {
    TodoGrows(log, e, a.todo);
    OnChainGrows(log, e, a.tx);
    if a.pay.Some? {
      BornGrows(log, e, IdOf(c, a.pay.value), a.pay.value);
    }
  }

  lemma TrkPaySafe(c: Config, log: seq<Entry>, st: Store, pid: Pid, a: Local, e: Entry, b: Local)
    requires StoreOk(c, log, st) && LocalOk(c, log, pid, a)
    requires a.TrkPay? || a.TrkPublish?
    requires TrkAct(c, st, pid, a, e, b)
    ensures Justified(c, log, e) && LocalOk(c, log + [e], pid, b)
  {
    TodoGrows(log, e, a.todo);
    if a.TrkPay? {
      OnChainGrows(log, e, a.tx);
      BornGrows(log, e, IdOf(c, a.snapshot), a.snapshot);
      if e.StatusWritten? {
        MatchIsBorn(c, log, st, e.id);
      }
    }
  }

  lemma ChkSafe(c: Config, log: seq<Entry>, st: Store, pid: Pid, a: Local, e: Entry, b: Local)
    requires InChk(a) && LocalOk(c, log, pid, a) && ChkAct(st, pid, a, e, b)
    ensures Justified(c, log, e) && LocalOk(c, log + [e], pid, b)
  {
  }

  lemma PaymentMoveSafe(c: Config, log: seq<Entry>, st: Store, pid: Pid, a: Local, e: Entry, b: Local)
    requires Collisionless(c) && StoreOk(c, log, st) && AllJustified(c, log) && LocalOk(c, log, pid, a)
    requires (InCreate(a) || InHook(a) || InRec(a)) && Act(c, st, pid, a, e, b)
    ensures Justified(c, log, e) && LocalOk(c, log + [e], pid, b)
    ensures e.SessionCalled? ==> e.pid == pid
  {
    if a.CreateInsert? {
      CreateInsertSafe(c, log, st, pid, a, e, b);
    } else if a.CreateLookup? {
      CreateLookupSafe(c, log, st, pid, a, e, b);
    } else if InCreate(a) {
      CreateStripeSafe(c, log, st, pid, a, e, b);
    } else if InHook(a) {
      HookSafe(c, log, st, pid, a, e, b);
    } else {
      RecSafe(c, log, st, pid, a, e, b);
    }
  }

  lemma TrackerMoveSafe(c: Config, log: seq<Entry>, st: Store, pid: Pid, a: Local, e: Entry, b: Local)
    requires StoreOk(c, log, st) && LocalOk(c, log, pid, a) && InTrk(a) && Act(c, st, pid, a, e, b)
    ensures Justified(c, log, e) && LocalOk(c, log + [e], pid, b) && !e.SessionCalled?
  {
    if a.TrkOrder? {
      TrkOrderSafe(c, log, st, pid, a, e, b);
    } else if a.TrkMark? {
      TrkMarkSafe(c, log, st, pid, a, e, b);
    } else if a.TrkPay? || a.TrkPublish? {
      TrkPaySafe(c, log, st, pid, a, e, b);
    } else {
      TrkScanSafe(c, log, st, pid, a, e, b);
    }
  }

  lemma ChainMoveSafe(c: Config, log: seq<Entry>, st: Store, pid: Pid, a: Local, e: Entry, b: Local)
    requires StoreOk(c, log, st) && LocalOk(c, log, pid, a)
    requires !InCreate(a) && !InHook(a) && !InRec(a) && Act(c, st, pid, a, e, b)
    ensures Justified(c, log, e) && LocalOk(c, log + [e], pid, b) && !e.SessionCalled?
  {
    if InTrk(a) {
      TrackerMoveSafe(c, log, st, pid, a, e, b);
    } else if InChk(a) {
      ChkSafe(c, log, st, pid, a, e, b);
    } else if a == CheckoutPersist {
      MatchIsBorn(c, log, st, e.id);
    }
  }

  lemma MoveSafe(c: Config, s: State, m: Move)
    requires Collisionless(c) && Inv(c, s) && Enabled(c, s, m)
    ensures Justified(c, s.log, m.entry) && LocalOk(c, s.log + [m.entry], m.pid, m.next)
    ensures m.entry.SessionCalled? ==> m.entry.pid == m.pid
  {
    var a := s.procs[m.pid];
    if InCreate(a) || InHook(a) || InRec(a) {
      PaymentMoveSafe(c, s.log, s.store, m.pid, a, m.entry, m.next);
    } else {
      ChainMoveSafe(c, s.log, s.store, m.pid, a, m.entry, m.next);
    }
  }

  lemma MoveKeepsInv(c: Config, s: State, m: Move)
    requires Collisionless(c) && Inv(c, s) && Enabled(c, s, m)
    ensures Inv(c, After(s, m))
  {
    MoveSafe(c, s, m);
    StoreOkGrows(c, s.log, s.store, m.entry);
    AllJustifiedGrows(c, s.log, m.entry);
    var s' := After(s, m);
    forall p | p in s'.procs ensures LocalOk(c, s'.log, p, s'.procs[p]) {
      if p != m.pid {
        LocalOkGrows(c, s.log, m.entry, p, s.procs[p]);
      }
    }
  }

  lemma InitHasInv(c: Config, s: State)
    requires Init(s)
    ensures Inv(c, s)
  {
  }

  /** The invariant holds at every point of every run. */
  lemma {:induction false} RunKeepsInv(c: Config, s0: State, run: seq<Move>, n: nat)
    requires Collisionless(c) && IsRun(c, s0, run) && n <= |run|
    ensures Inv(c, At(s0, run, n))
  {
    if n == 0 {
      InitHasInv(c, s0);
    } else {
      var s := At(s0, run, n - 1);
      RunKeepsInv(c, s0, run, n - 1);
      assert EnabledAt(c, s0, run, n - 1);
      MoveKeepsInv(c, s, run[n - 1]);
      assert At(s0, run, n) == After(s, run[n - 1]);
    }
  }

  lemma RunIsJustified(c: Config, s0: State, run: seq<Move>, n: nat)
    requires Collisionless(c) && IsRun(c, s0, run) && n <= |run|
    ensures AllJustified(c, At(s0, run, n).log)
  {
    RunKeepsInv(c, s0, run, n);
  }

  /** One move of a run, with the invariant on both sides of it. */
  lemma RunStep(c: Config, s0: State, run: seq<Move>, n: nat)
    requires Collisionless(c) && IsRun(c, s0, run) && n < |run|
    ensures Inv(c, At(s0, run, n)) && Enabled(c, At(s0, run, n), run[n])
    ensures At(s0, run, n + 1) == After(At(s0, run, n), run[n])
  {
    RunKeepsInv(c, s0, run, n);
    assert EnabledAt(c, s0, run, n);
  }

  // --- building runs ---------------------------------------------------------

  lemma {:induction false} AtPrefix(s0: State, run: seq<Move>, more: seq<Move>, n: nat)
    requires n <= |run|
    ensures At(s0, run + more, n) == At(s0, run, n)
  {
    if n > 0 {
      AtPrefix(s0, run, more, n - 1);
      assert (run + more)[n - 1] == run[n - 1];
    }
  }

  /** One more enabled move makes a longer run. */
  lemma RunGrows(c: Config, s0: State, run: seq<Move>, m: Move)
    requires IsRun(c, s0, run) && Enabled(c, At(s0, run, |run|), m)
    ensures IsRun(c, s0, run + [m]) && At(s0, run + [m], |run| + 1) == After(At(s0, run, |run|), m)
  {
    var longer := run + [m];
    AtPrefix(s0, run, [m], |run|);
    forall n: nat | n < |longer| ensures EnabledAt(c, s0, longer, n) {
      AtPrefix(s0, run, [m], if n < |run| then n else |run|);
      if n < |run| {
        assert EnabledAt(c, s0, run, n) && longer[n] == run[n];
      }
    }
  }

  // --- what no move takes back -----------------------------------------------

  ghost predicate RowsNamed(c: Config, st: Store) {
    forall id | id in st.rows :: IdOf(c, st.rows[id]) == id
  }

  lemma EntryKeepsNames(c: Config, st: Store, e: Entry)
    requires RowsNamed(c, st) && (e.Inserted? ==> IdOf(c, e.row) == e.id)
    ensures RowsNamed(c, Apply(st, e))
  {
  }

  lemma CreateInsertsOnce(c: Config, st: Store, pid: Pid, a: Local, e: Entry, b: Local)
    requires InCreate(a) && CreateAct(c, st, pid, a, e, b)
    ensures e.Inserted? ==> e.id !in st.rows && IdOf(c, e.row) == e.id
  {
  }

  lemma TicksNeverInsert(c: Config, st: Store, pid: Pid, a: Local, e: Entry, b: Local)
    requires (InTrk(a) && TrkAct(c, st, pid, a, e, b)) || (InChk(a) && ChkAct(st, pid, a, e, b))
    ensures !e.Inserted?
  {
  }

  lemma ServicesNeverInsert(c: Config, st: Store, pid: Pid, a: Local, e: Entry, b: Local)
    requires (InHook(a) && HookAct(c, st, pid, a, e, b)) || (InRec(a) && RecAct(c, st, pid, a, e, b))
    ensures !e.Inserted?
  {
  }

  lemma InsertsAreCreates(c: Config, st: Store, pid: Pid, a: Local, e: Entry, b: Local)
    requires Act(c, st, pid, a, e, b)
    ensures e.Inserted? ==> e.id !in st.rows && IdOf(c, e.row) == e.id
  {
    if InCreate(a) {
      CreateInsertsOnce(c, st, pid, a, e, b);
    } else if InHook(a) || InRec(a) {
      ServicesNeverInsert(c, st, pid, a, e, b);
    } else if InTrk(a) || InChk(a) {
      TicksNeverInsert(c, st, pid, a, e, b);
    }
  }

  /** Rows stay, under the same merchant and order, and chain rows stay. */
  ghost predicate Stays(a: Store, b: Store) {
    && (forall id | id in a.rows ::
          id in b.rows && b.rows[id].merchant == a.rows[id].merchant && b.rows[id].order == a.rows[id].order)
    && (forall h | h in a.chain :: h in b.chain)
  }

  lemma EntryStays(st: Store, e: Entry)
    requires e.Inserted? ==> e.id !in st.rows
    ensures Stays(st, Apply(st, e))
  {
  }

  lemma StepStays(c: Config, s0: State, run: seq<Move>, n: nat)
    requires IsRun(c, s0, run) && n < |run| && RowsNamed(c, At(s0, run, n).store)
    ensures RowsNamed(c, At(s0, run, n + 1).store) && Stays(At(s0, run, n).store, At(s0, run, n + 1).store)
  {
    assert EnabledAt(c, s0, run, n);
    var s, m := At(s0, run, n), run[n];
    InsertsAreCreates(c, s.store, m.pid, s.procs[m.pid], m.entry, m.next);
    EntryKeepsNames(c, s.store, m.entry);
    EntryStays(s.store, m.entry);
  }

  lemma {:induction false} RowsAreNamed(c: Config, s0: State, run: seq<Move>, n: nat)
    requires IsRun(c, s0, run) && n <= |run|
    ensures RowsNamed(c, At(s0, run, n).store)
  {
    if n > 0 {
      RowsAreNamed(c, s0, run, n - 1);
      StepStays(c, s0, run, n - 1);
    }
  }

  lemma {:induction false} RunStays(c: Config, s0: State, run: seq<Move>, i: nat, j: nat)
    requires IsRun(c, s0, run) && i <= j <= |run|
    ensures Stays(At(s0, run, i).store, At(s0, run, j).store)
    decreases j
  {
    if i < j {
      RunStays(c, s0, run, i, j - 1);
      RowsAreNamed(c, s0, run, j - 1);
      StepStays(c, s0, run, j - 1);
    }
  }

  /** A run that goes on keeps what its tables held. */
  lemma ContinuationStays(c: Config, s0: State, run: seq<Move>, longer: seq<Move>)
    requires IsRun(c, s0, longer) && run <= longer
    ensures Stays(At(s0, run, |run|).store, At(s0, longer, |longer|).store)
    ensures RowsNamed(c, At(s0, longer, |longer|).store)
  {
    SharedStart(s0, run, longer);
    RunStays(c, s0, longer, |run|, |longer|);
    RowsAreNamed(c, s0, longer, |longer|);
  }

  lemma SharedStart(s0: State, run: seq<Move>, longer: seq<Move>)
    requires run <= longer
    ensures At(s0, longer, |run|) == At(s0, run, |run|)
  {
    AtPrefix(s0, run, longer[|run|..], |run|);
    assert run + longer[|run|..] == longer;
  }

  // --- one process's share of a run ------------------------------------------

  /** The entries of the moves of `pid`, in order. */
  ghost function Own(run: seq<Move>, pid: Pid): seq<Entry> {
    if run == [] then []
    else
      var last := run[|run| - 1];
      Own(run[..|run| - 1], pid) + if last.pid == pid then [last.entry] else []
  }

  lemma OwnAdd(run: seq<Move>, m: Move, pid: Pid)
    ensures Own(run + [m], pid) == Own(run, pid) + if m.pid == pid then [m.entry] else []
  {
    assert (run + [m])[..|run + [m]| - 1] == run;
  }
}
