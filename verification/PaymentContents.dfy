/** What the tables hold, read off the log alone: a row is what was inserted, with the status
    last written and the last ids that were not empty; a transfer is what was inserted, with
    the status and depth of its last mark. */
module PaymentContents {
  import opened Domain
  import opened PaymentModel

  /** The row the log's insert of an id brought in. */
  function RowInserted(log: seq<Entry>, id: TxnId): Option<Transaction> {
    if log == [] then None
    else
      var e := log[|log| - 1];
      if e.Inserted? && e.id == id then Some(e.row) else RowInserted(log[..|log| - 1], id)
  }

  /** The status last written to a row. */
  function LastStatus(log: seq<Entry>, id: TxnId): Option<Status> {
    if log == [] then None
    else
      var e := log[|log| - 1];
      if e.StatusWritten? && e.id == id then Some(e.status) else LastStatus(log[..|log| - 1], id)
  }

  /** The payment intent an entry brings to a row, if any. */
  function IntentFor(e: Entry, id: TxnId): string {
    match e
    case StatusWritten(to, _, ByWebhook(_, pi)) => if to == id then pi else ""
    case StatusWritten(to, _, ByReconciler(_, pi)) => if to == id then pi else ""
    case CheckoutWritten(to, _, pi) => if to == id then pi else ""
    case _ => ""
  }

  /** The last payment intent brought to a row. */
  function LastIntent(log: seq<Entry>, id: TxnId): string {
    if log == [] then ""
    else
      var pi := IntentFor(log[|log| - 1], id);
      if pi != "" then pi else LastIntent(log[..|log| - 1], id)
  }

  /** The last session written to a row. */
  function LastSession(log: seq<Entry>, id: TxnId): string {
    if log == [] then ""
    else
      var e := log[|log| - 1];
      if e.CheckoutWritten? && e.id == id && e.session != "" then e.session else LastSession(log[..|log| - 1], id)
  }

  /** The row of this id, if the log has one. */
  ghost predicate RowIsLogged(rows: map<TxnId, Transaction>, log: seq<Entry>, id: TxnId) {
    if id in rows then
      && RowInserted(log, id).Some?
      && var born := RowInserted(log, id).value;
      && rows[id].merchant == born.merchant && rows[id].order == born.order && rows[id].id == born.id
      && rows[id].amount == born.amount && rows[id].currency == born.currency
      && rows[id].payMethod == born.payMethod && rows[id].createdAt == born.createdAt && rows[id].shard == born.shard
      && rows[id].status == (if LastStatus(log, id).Some? then LastStatus(log, id).value else Created)
      && rows[id].pi == LastIntent(log, id) && rows[id].session == LastSession(log, id)
    else
      && RowInserted(log, id).None? && LastStatus(log, id).None?
      && LastIntent(log, id) == "" && LastSession(log, id) == ""
  }

  /** An insert brings a row or transfer that is not there; other writes are to those that
      are. */
  predicate WritesMatch(st: Store, e: Entry) {
    && (e.Inserted? ==> e.id !in st.rows && e.row.status == Created && e.row.pi == "" && e.row.session == "")
    && (e.StatusWritten? || e.CheckoutWritten? ==> e.id in st.rows)
    && (e.ChainInserted? ==> e.hash !in st.chain) && (e.ChainMarked? ==> e.hash in st.chain)
  }

  lemma CreateMatches(c: Config, st: Store, pid: Pid, a: Local, e: Entry, b: Local)
    requires InCreate(a) && CreateAct(c, st, pid, a, e, b)
    ensures WritesMatch(st, e)
  {
  }

  lemma HookMatches(c: Config, st: Store, pid: Pid, a: Local, e: Entry, b: Local)
    requires InHook(a) && HookAct(c, st, pid, a, e, b)
    ensures WritesMatch(st, e)
  {
  }

  lemma ReconcilerMatches(c: Config, st: Store, pid: Pid, a: Local, e: Entry, b: Local)
    requires InRec(a) && RecAct(c, st, pid, a, e, b)
    ensures WritesMatch(st, e)
  {
  }

  lemma TrackerMatches(c: Config, st: Store, pid: Pid, a: Local, e: Entry, b: Local)
    requires InTrk(a) && TrkAct(c, st, pid, a, e, b)
    ensures WritesMatch(st, e)
  {
  }

  lemma MoveMatches(c: Config, st: Store, pid: Pid, a: Local, e: Entry, b: Local)
    requires Act(c, st, pid, a, e, b)
    ensures WritesMatch(st, e)
  {
    if InCreate(a) {
      CreateMatches(c, st, pid, a, e, b);
    } else if InHook(a) {
      HookMatches(c, st, pid, a, e, b);
    } else if InRec(a) {
      ReconcilerMatches(c, st, pid, a, e, b);
    } else if InTrk(a) {
      TrackerMatches(c, st, pid, a, e, b);
    }
  }

  lemma RowStaysLogged(st: Store, log: seq<Entry>, e: Entry, id: TxnId)
    requires RowIsLogged(st.rows, log, id)
    requires WritesMatch(st, e)
    ensures RowIsLogged(Apply(st, e).rows, log + [e], id)
  {
    assert (log + [e])[..|log|] == log;
  }

  /** In every run, at every point: each row has the fields it was inserted with, except that
      its status is the one last written, or `created` if none was, and its payment intent
      and session are the last ones written that were not empty. An id without a
      row was never written. */
  lemma {:induction false} RowsAreLogged(c: Config, s0: State, run: seq<Move>, n: nat, id: TxnId)
    requires IsRun(c, s0, run) && n <= |run|
    ensures RowIsLogged(At(s0, run, n).store.rows, At(s0, run, n).log, id)
  {
    if n > 0 {
      RowsAreLogged(c, s0, run, n - 1, id);
      assert EnabledAt(c, s0, run, n - 1);
      var s, m := At(s0, run, n - 1), run[n - 1];
      MoveMatches(c, s.store, m.pid, s.procs[m.pid], m.entry, m.next);
      RowStaysLogged(s.store, s.log, m.entry, id);
    }
  }

  // --- transfers -------------------------------------------------------------

  function TransferInserted(log: seq<Entry>, hash: string): Option<ChainRow> {
    if log == [] then None
    else
      var e := log[|log| - 1];
      if e.ChainInserted? && e.hash == hash then Some(e.chainRow) else TransferInserted(log[..|log| - 1], hash)
  }

  /** The status and depth of the last mark on a transfer. */
  function LastMark(log: seq<Entry>, hash: string): Option<(ChainStatus, nat)> {
    if log == [] then None
    else
      var e := log[|log| - 1];
      if e.ChainMarked? && e.hash == hash then Some((e.chainStatus, e.confirmations))
      else LastMark(log[..|log| - 1], hash)
  }

  ghost predicate TransferIsLogged(chain: map<string, ChainRow>, log: seq<Entry>, hash: string) {
    if hash in chain then
      && TransferInserted(log, hash).Some?
      && var born := TransferInserted(log, hash).value;
      && chain[hash].block == born.block && chain[hash].order == born.order && chain[hash].amount == born.amount
      && chain[hash].required == born.required
      && (chain[hash].status, chain[hash].confirmations)
         == match LastMark(log, hash) case Some(mark) => mark case None => (born.status, born.confirmations)
    else TransferInserted(log, hash).None? && LastMark(log, hash).None?
  }

  lemma TransferStaysLogged(st: Store, log: seq<Entry>, e: Entry, hash: string)
    requires TransferIsLogged(st.chain, log, hash)
    requires WritesMatch(st, e)
    ensures TransferIsLogged(Apply(st, e).chain, log + [e], hash)
  {
    assert (log + [e])[..|log|] == log;
  }

  /** In every run, at every point: each transfer has the block, order, amount and required
      depth it was inserted with, and the status and depth of its last mark. */
  lemma {:induction false} TransfersAreLogged(c: Config, s0: State, run: seq<Move>, n: nat, hash: string)
    requires IsRun(c, s0, run) && n <= |run|
    ensures TransferIsLogged(At(s0, run, n).store.chain, At(s0, run, n).log, hash)
  {
    if n > 0 {
      TransfersAreLogged(c, s0, run, n - 1, hash);
      assert EnabledAt(c, s0, run, n - 1);
      var s, m := At(s0, run, n - 1), run[n - 1];
      MoveMatches(c, s.store, m.pid, s.procs[m.pid], m.entry, m.next);
      TransferStaysLogged(s.store, s.log, m.entry, hash);
    }
  }
}
