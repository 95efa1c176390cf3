/** The payment row and everything that writes it: payment creation, the Stripe
    webhook, the stuck-order reconciler, the checkout resolver's persist step, the
    chain listener, the confirmation tracker and the chain reconciler.

    Every external call is one atomic move. Any number of processes interleave
    their moves in any order. A write may succeed, fail without effect, or take
    effect and still be reported as an error (its reply was lost). */
module PaymentModel {
  import opened Domain
  import Codec

  type TxnId = string
  type Pid = nat

  // --- shared tables ---------------------------------------------------------

  datatype ChainStatus = ChainPending | Confirmed | ChainFailed | Reorged

  datatype ChainRow = ChainRow(
    block: nat, order: string, amount: nat, required: nat, confirmations: nat, status: ChainStatus)

  /** An on-chain row as a listing returns it. */
  datatype ChainItem = ChainItem(hash: string, row: ChainRow)

  datatype Store = Store(rows: map<TxnId, Transaction>, chain: map<string, ChainRow>)

  // --- the history -----------------------------------------------------------

  /** Which process wrote a status or published an event, and on what evidence. */
  datatype Origin =
    | ByWebhook(pid: Pid, pi: string)
    | ByReconciler(pid: Pid, pi: string)
    | ByTracker(pid: Pid, tx: ChainItem, depth: nat)

  datatype Event = Event(merchant: string, order: string, status: Status, pi: string, amount: int64, currency: string)

  /** What a read of a payment intent reports: succeeded, canceled or in need of a new
      payment method, or neither. */
  datatype Intent = IntentSucceeded | IntentClosed | IntentOpen

  /** What a read of a transaction receipt reports; an error counts as missing. */
  datatype Receipt = Missing | Reverted | Good

  /** One entry per move; `Quiet` is a read or a call that had no effect. */
  datatype Entry =
    | Quiet
    | Inserted(id: TxnId, row: Transaction, pid: Pid)
    | SessionCalled(id: TxnId, pid: Pid)
    | CheckoutWritten(id: TxnId, session: string, pi: string)
    | IntentRead(pi: string, intent: Intent)
    | StatusWritten(id: TxnId, status: Status, origin: Origin)
    | Published(id: TxnId, event: Event, origin: Origin)
    | ChainInserted(hash: string, chainRow: ChainRow)
    | HeadRead(latest: nat)
    | ReceiptRead(hash: string, receipt: Receipt)
    | ChainMarked(hash: string, chainStatus: ChainStatus, confirmations: nat, pid: Pid)

  /** The payment intent a status write passes along; the tracker passes "". */
  function IntentOf(o: Origin): string {
    match o
    case ByWebhook(_, pi) => pi
    case ByReconciler(_, pi) => pi
    case ByTracker(_, _, _) => ""
  }

  /** `COALESCE(NULLIF(new, ''), old)` */
  function Coalesce(update: string, current: string): string { if update == "" then current else update }

  function WithStatus(t: Transaction, status: Status, pi: string): Transaction {
    t.(status := status, pi := Coalesce(pi, t.pi))
  }

  function WithCheckout(t: Transaction, session: string, pi: string): Transaction {
    t.(session := Coalesce(session, t.session), pi := Coalesce(pi, t.pi))
  }

  /** What an entry does to the tables. Updates of absent rows match nothing. */
  function Apply(st: Store, e: Entry): Store {
    match e
    case Inserted(id, row, _) => st.(rows := st.rows[id := row])
    case CheckoutWritten(id, session, pi) =>
      if id in st.rows then st.(rows := st.rows[id := WithCheckout(st.rows[id], session, pi)]) else st
    case StatusWritten(id, status, origin) =>
      if id in st.rows then st.(rows := st.rows[id := WithStatus(st.rows[id], status, IntentOf(origin))]) else st
    case ChainInserted(hash, row) => st.(chain := st.chain[hash := row])
    case ChainMarked(hash, status, confirmations, _) =>
      if hash in st.chain
      then st.(chain := st.chain[hash := st.chain[hash].(status := status, confirmations := confirmations)]) else st
    case _ => st
  }

  // --- configuration and requests --------------------------------------------

  /** `hash` is the digest behind transaction ids. */
  datatype Config = Config(hash: string -> string, lazyCheckout: bool, defaultCurrency: string)

  ghost predicate Collisionless(c: Config) {
    forall x, y :: c.hash(x) == c.hash(y) ==> x == y
  }

  function TxnIdOf(c: Config, merchant: string, order: string): TxnId { c.hash(merchant + ":" + order) }

  function IdOf(c: Config, t: Transaction): TxnId { TxnIdOf(c, t.merchant, t.order) }

  datatype Request = Request(
    merchant: string, shard: nat, order: string, amount: int64, currency: string, flow: string, types: seq<string>)

  function CurrencyOf(c: Config, r: Request): string {
    ToUpper(if r.currency == "" then c.defaultCurrency else r.currency)
  }

  function PrimaryMethod(r: Request): string {
    if EqualFold(r.flow, "crypto") then "crypto_eth"
    else if |r.types| > 0 then r.types[0]
    else "card"
  }

  /** The row an accepted request leaves behind, as a scan returns it. */
  function NewRow(c: Config, r: Request, createdAt: int): Transaction {
    Transaction(r.merchant, TxnIdOf(c, r.merchant, r.order), r.order, r.amount, CurrencyOf(c, r), Created,
                Codec.StoredMethod(PrimaryMethod(r)), "", "", createdAt, r.shard)
  }

  predicate SameMaterial(existing: Transaction, amount: int64, currency: string, payMethod: string) {
    && existing.amount == amount
    && EqualFold(existing.currency, currency)
    && Codec.IsCrypto(existing.payMethod) == Codec.IsCrypto(payMethod)
  }

  predicate Insertable(c: Config, r: Request) {
    |r.merchant| <= 16 && Codec.EncodeCurrency(CurrencyOf(c, r)).Some?
  }

  // --- processes -------------------------------------------------------------

  datatype Reply =
    | Accepted(id: TxnId)
    | Replayed(existing: Transaction)
    | Conflict(existing: Transaction)
    | Rejected

  datatype HookKind = Succeeded | PaymentFailed | ChargeRefunded

  /** Where a process is in its code, with the local variables it still needs. */
  datatype Local =
    // Payments.Create
    | CreateInsert(req: Request)
    | CreateLookup(req: Request)
    | CreateSession(req: Request)
    | CreatePersist(req: Request, session: string, pi: string)
    | CreateDone(req: Request, reply: Reply)
    // Webhooks.Process, one process per delivery
    | HookStart(kind: HookKind, merchant: string, order: string, pi: string)
    | HookWrite(merchant: string, order: string, status: Status, pi: string)
    | HookRead(merchant: string, order: string, status: Status, pi: string)
    | HookPublish(snapshot: Transaction, status: Status, pi: string)
    | HookDone
    // service.OrderReconciliation
    | RecIdle
    | RecLoop(queue: seq<Transaction>)
    | RecWrite(queue: seq<Transaction>, snapshot: Transaction, status: Status, pi: string)
    | RecPublish(queue: seq<Transaction>, snapshot: Transaction, pi: string)
    // blockchain.ConfirmationTracker
    | TrkIdle
    | TrkList(latest: nat)
    | TrkLoop(latest: nat, todo: seq<ChainItem>)
    | TrkOrder(latest: nat, todo: seq<ChainItem>, tx: ChainItem)
    | TrkMark(latest: nat, todo: seq<ChainItem>, tx: ChainItem, mark: ChainStatus, depth: nat, pay: Option<Transaction>)
    | TrkPay(latest: nat, todo: seq<ChainItem>, tx: ChainItem, depth: nat, snapshot: Transaction)
    | TrkPublish(latest: nat, todo: seq<ChainItem>, tx: ChainItem, depth: nat, snapshot: Transaction)
    // blockchain.Reconciler
    | ChkIdle
    | ChkLoop(todo: seq<ChainItem>)
    | ChkMark(todo: seq<ChainItem>, tx: ChainItem, mark: ChainStatus)
    // chain listener inserts, and the checkout resolver's persist
    | Listener
    | CheckoutPersist

  predicate IsStart(l: Local) {
    l.CreateInsert? || l.HookStart? || l.RecIdle? || l.TrkIdle? || l.ChkIdle? || l.Listener? || l.CheckoutPersist?
  }

  predicate InCreate(l: Local) { l.CreateInsert? || l.CreateLookup? || l.CreateSession? || l.CreatePersist? }

  predicate InHook(l: Local) { l.HookStart? || l.HookWrite? || l.HookRead? || l.HookPublish? }

  predicate InRec(l: Local) { l.RecIdle? || l.RecLoop? || l.RecWrite? || l.RecPublish? }

  predicate InTrk(l: Local) {
    l.TrkIdle? || l.TrkList? || l.TrkLoop? || l.TrkOrder? || l.TrkMark? || l.TrkPay? || l.TrkPublish?
  }

  predicate InChk(l: Local) { l.ChkIdle? || l.ChkLoop? || l.ChkMark? }

  // --- what each process may do next -----------------------------------------

  function AfterInsert(c: Config, r: Request): Local {
    if EqualFold(r.flow, "crypto") || c.lazyCheckout
    then CreateDone(r, Accepted(TxnIdOf(c, r.merchant, r.order)))
    else CreateSession(r)
  }

  function LookupReply(c: Config, r: Request, existing: Transaction): Reply {
    if SameMaterial(existing, r.amount, CurrencyOf(c, r), PrimaryMethod(r)) then Replayed(existing)
    else Conflict(existing)
  }

  ghost predicate CreateAct(c: Config, st: Store, pid: Pid, a: Local, e: Entry, b: Local)
    requires InCreate(a)
  {
    var r := a.req;
    var id := TxnIdOf(c, r.merchant, r.order);
    || (e == Quiet && b == CreateDone(r, Rejected))
    || (match a
        case CreateInsert(_) =>
          && ValidOrderId(r.order) && r.amount > 0 && Insertable(c, r)
          && (if id in st.rows then e == Quiet && b == CreateLookup(r)
              else
                && e.Inserted? && e.id == id && e.pid == pid && e.row == NewRow(c, r, e.row.createdAt)
                && (b == AfterInsert(c, r) || b == CreateDone(r, Rejected)))
        case CreateLookup(_) =>
          && id in st.rows && st.rows[id].merchant == r.merchant
          && e == Quiet && b == CreateDone(r, LookupReply(c, r, st.rows[id]))
        case CreateSession(_) =>
          && e == SessionCalled(id, pid)
          && (b == CreateDone(r, Rejected) || (b.CreatePersist? && b.req == r))
        case CreatePersist(_, session, pi) =>
          && id in st.rows && e == CheckoutWritten(id, session, pi)
          && (b == CreateDone(r, Accepted(id)) || b == CreateDone(r, Rejected)))
  }

  /** The row an UPDATE or SELECT by (merchant_id, order_id) matches. */
  predicate Matches(c: Config, st: Store, merchant: string, order: string) {
    var id := TxnIdOf(c, merchant, order);
    id in st.rows && st.rows[id].merchant == merchant && st.rows[id].order == order
  }

  /** The webhook's decision once Stripe has reported on the intent it names. */
  function AfterCheck(m: string, o: string, pi: string, intent: Intent): Local {
    if intent == IntentSucceeded then HookWrite(m, o, Paid, pi) else HookDone
  }

  ghost predicate HookAct(c: Config, st: Store, pid: Pid, a: Local, e: Entry, b: Local)
    requires InHook(a)
  {
    || (e == Quiet && b == HookDone)
    || (match a
        case HookStart(Succeeded, m, o, pi) =>
          && m != "" && o != ""
          && (if pi == "" then e == Quiet && b == HookWrite(m, o, Paid, pi)
              else e.IntentRead? && e.pi == pi && b == AfterCheck(m, o, pi, e.intent))
        case HookStart(PaymentFailed, m, o, pi) =>
          m != "" && o != "" && e == Quiet && b == HookWrite(m, o, Failed, pi)
        case HookStart(ChargeRefunded, m, o, pi) =>
          && e == Quiet
          && (if m != "" && o != "" then b == HookWrite(m, o, Refunded, pi)
              else
                && pi != "" && b.HookWrite? && b.status == Refunded && b.pi == pi
                && Matches(c, st, b.merchant, b.order) && st.rows[TxnIdOf(c, b.merchant, b.order)].pi == pi)
        case HookWrite(m, o, status, pi) =>
          && Matches(c, st, m, o) && ValidOrderId(o)
          && e == StatusWritten(TxnIdOf(c, m, o), status, ByWebhook(pid, pi))
          && (b == HookDone || (status != Failed && b == HookRead(m, o, status, pi)))
        case HookRead(m, o, status, pi) =>
          && Matches(c, st, m, o)
          && e == Quiet && b == HookPublish(st.rows[TxnIdOf(c, m, o)], status, pi)
        case HookPublish(x, status, pi) =>
          && e == Published(IdOf(c, x), Event(x.merchant, x.order, status, x.pi, x.amount, x.currency),
                            ByWebhook(pid, pi))
          && b == HookDone)
  }

  /** What a listing of stuck rows may return: distinct rows, stuck when listed. */
  predicate StuckPage(c: Config, st: Store, page: seq<Transaction>) {
    && (forall x | x in page :: Matches(c, st, x.merchant, x.order) && st.rows[IdOf(c, x)] == x && IsStuck(x.status))
    && (forall i, j | 0 <= i < j < |page| :: IdOf(c, page[i]) != IdOf(c, page[j]))
  }

  /** The reconciler's decision once Stripe has reported on the row's payment intent. */
  function AfterIntent(queue: seq<Transaction>, x: Transaction, intent: Intent, pi: string): Local {
    match intent
    case IntentSucceeded => RecWrite(queue, x, Paid, pi)
    case IntentClosed => RecWrite(queue, x, Failed, pi)
    case IntentOpen => RecLoop(queue)
  }

  ghost predicate RecAct(c: Config, st: Store, pid: Pid, a: Local, e: Entry, b: Local)
    requires InRec(a)
  {
    match a
    case RecIdle => e == Quiet && (b == RecIdle || (b.RecLoop? && StuckPage(c, st, b.queue)))
    case RecLoop(q) =>
      if q == [] then e == Quiet && b == RecIdle
      else
        || (e == Quiet && b == RecLoop(q[1..]))
        || (q[0].pi != "" && e.IntentRead? && b == AfterIntent(q[1..], q[0], e.intent, e.pi))
    case RecWrite(q, x, status, pi) =>
      || (e == Quiet && b == RecLoop(q))
      || (&& Matches(c, st, x.merchant, x.order)
          && e == StatusWritten(IdOf(c, x), status, ByReconciler(pid, pi))
          && (b == RecLoop(q) || (status == Paid && b == RecPublish(q, x, pi))))
    case RecPublish(q, x, pi) =>
      && b == RecLoop(q)
      && (|| e == Quiet
          || e == Published(IdOf(c, x), Event(x.merchant, x.order, Paid, pi, x.amount, x.currency),
                            ByReconciler(pid, pi)))
  }

  /** What a listing of pending on-chain rows may return. */
  predicate PendingPage(st: Store, page: seq<ChainItem>) {
    && (forall p | p in page :: p.hash in st.chain && st.chain[p.hash] == p.row && p.row.status == ChainPending)
    && (forall i, j | 0 <= i < j < |page| :: page[i].hash != page[j].hash)
  }

  /** The tracker's decision once an order has been found for a deep enough tx. */
  function AfterOrder(latest: nat, todo: seq<ChainItem>, tx: ChainItem, x: Transaction): Local
    requires latest >= tx.row.block
  {
    var depth := latest - tx.row.block;
    if IsFinal(x.status) then TrkMark(latest, todo, tx, Confirmed, depth, None)
    else if Codec.WrapInt64(tx.row.amount) != x.amount then TrkMark(latest, todo, tx, ChainFailed, depth, None)
    else TrkMark(latest, todo, tx, Confirmed, depth, Some(x))
  }

  /** The tracker's decision once the receipt has been read. */
  function AfterReceipt(latest: nat, todo: seq<ChainItem>, tx: ChainItem, receipt: Receipt): Local {
    if receipt == Missing then TrkMark(latest, todo, tx, Reorged, 0, None)
    else if receipt == Reverted then TrkMark(latest, todo, tx, ChainFailed, 0, None)
    else if latest < tx.row.block then TrkLoop(latest, todo)
    else if latest - tx.row.block < tx.row.required
    then TrkMark(latest, todo, tx, ChainPending, latest - tx.row.block, None)
    else TrkOrder(latest, todo, tx)
  }

  ghost predicate TrkAct(c: Config, st: Store, pid: Pid, a: Local, e: Entry, b: Local)
    requires InTrk(a)
  {
    match a
    case TrkIdle => (e == Quiet && b == TrkIdle) || (e.HeadRead? && b == TrkList(e.latest))
    case TrkList(latest) =>
      e == Quiet && (b == TrkIdle || (b.TrkLoop? && b.latest == latest && PendingPage(st, b.todo)))
    case TrkLoop(latest, todo) =>
      if todo == [] then e == Quiet && b == TrkIdle
      else e.ReceiptRead? && e.hash == todo[0].hash && b == AfterReceipt(latest, todo[1..], todo[0], e.receipt)
    case TrkOrder(latest, todo, tx) =>
      && e == Quiet
      && (|| b == TrkLoop(latest, todo)
          || exists id | id in st.rows && st.rows[id].order == tx.row.order ::
               latest >= tx.row.block && b == AfterOrder(latest, todo, tx, st.rows[id]))
    case TrkMark(latest, todo, tx, mark, depth, pay) =>
      || (e == Quiet && b == TrkLoop(latest, todo))
      || (&& tx.hash in st.chain && e == ChainMarked(tx.hash, mark, depth, pid)
          && (b == TrkLoop(latest, todo) || (pay.Some? && b == TrkPay(latest, todo, tx, depth, pay.value))))
    case TrkPay(latest, todo, tx, depth, x) =>
      || (e == Quiet && b == TrkLoop(latest, todo))
      || (&& Matches(c, st, x.merchant, x.order)
          && e == StatusWritten(IdOf(c, x), Paid, ByTracker(pid, tx, depth))
          && (b == TrkLoop(latest, todo) || b == TrkPublish(latest, todo, tx, depth, x)))
    case TrkPublish(latest, todo, tx, depth, x) =>
      && b == TrkLoop(latest, todo)
      && (|| e == Quiet
          || e == Published(IdOf(c, x), Event(x.merchant, x.order, Paid, "", x.amount, x.currency),
                            ByTracker(pid, tx, depth)))
  }

  function AfterRecheck(todo: seq<ChainItem>, tx: ChainItem, receipt: Receipt): Local {
    match receipt
    case Missing => ChkMark(todo, tx, Reorged)
    case Reverted => ChkMark(todo, tx, ChainFailed)
    case Good => ChkLoop(todo)
  }

  ghost predicate ChkAct(st: Store, pid: Pid, a: Local, e: Entry, b: Local)
    requires InChk(a)
  {
    match a
    case ChkIdle => e == Quiet && (b == ChkIdle || (b.ChkLoop? && PendingPage(st, b.todo)))
    case ChkLoop(todo) =>
      if todo == [] then e == Quiet && b == ChkIdle
      else e.ReceiptRead? && e.hash == todo[0].hash && b == AfterRecheck(todo[1..], todo[0], e.receipt)
    case ChkMark(todo, tx, mark) =>
      && b == ChkLoop(todo)
      && (e == Quiet || (tx.hash in st.chain && e == ChainMarked(tx.hash, mark, tx.row.confirmations, pid)))
  }

  ghost predicate Act(c: Config, st: Store, pid: Pid, a: Local, e: Entry, b: Local) {
    if InCreate(a) then CreateAct(c, st, pid, a, e, b)
    else if InHook(a) then HookAct(c, st, pid, a, e, b)
    else if InRec(a) then RecAct(c, st, pid, a, e, b)
    else if InTrk(a) then TrkAct(c, st, pid, a, e, b)
    else if InChk(a) then ChkAct(st, pid, a, e, b)
    else if a == Listener
    then b == Listener && e.ChainInserted? && e.hash !in st.chain && e.chainRow.status == ChainPending
    else a == CheckoutPersist && b == CheckoutPersist && e.CheckoutWritten? && e.id in st.rows
  }

  // --- runs ------------------------------------------------------------------

  datatype State = State(store: Store, log: seq<Entry>, procs: map<Pid, Local>)

  datatype Move = Move(pid: Pid, entry: Entry, next: Local)

  ghost predicate Init(s: State) {
    s.store == Store(map[], map[]) && s.log == [] && forall p | p in s.procs :: IsStart(s.procs[p])
  }

  ghost predicate Enabled(c: Config, s: State, m: Move) {
    m.pid in s.procs && Act(c, s.store, m.pid, s.procs[m.pid], m.entry, m.next)
  }

  function After(s: State, m: Move): State {
    State(Apply(s.store, m.entry), s.log + [m.entry], s.procs[m.pid := m.next])
  }

  /** The state a run reaches after its first `n` moves. */
  function At(s0: State, run: seq<Move>, n: nat): State
    requires n <= |run|
  {
    if n == 0 then s0 else After(At(s0, run, n - 1), run[n - 1])
  }

  ghost predicate EnabledAt(c: Config, s0: State, run: seq<Move>, n: nat) {
    n < |run| && Enabled(c, At(s0, run, n), run[n])
  }

  ghost predicate IsRun(c: Config, s0: State, run: seq<Move>) {
    Init(s0) && forall n: nat | n < |run| :: EnabledAt(c, s0, run, n)
  }
}
