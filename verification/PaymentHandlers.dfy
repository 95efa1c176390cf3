/** The handlers as the code runs them: sequential methods over the shared tables, with other
    processes free to move before every external call. Each external call is one move of
    the payment machine, so whatever these methods do is a run of it and every theorem
    about runs applies to them. What the external services reply is an input, and each
    contract gives the handler's own moves for it. */
module PaymentHandlers {
  import opened Domain
  import opened PaymentModel
  import opened PaymentSafety
  import opened PaymentTheorems
  import Codec

  // --- replies ---------------------------------------------------------------

  /** How a write or a publication turns out. */
  datatype WriteReply = Works | Fails | Lost

  /** What the write leaves in the log. */
  function Effect(reply: WriteReply, e: Entry): Entry { if reply == Fails then Quiet else e }

  function KindOf(eventType: string): Option<HookKind> {
    if eventType == "payment_intent.succeeded" || eventType == "checkout.session.completed" then Some(Succeeded)
    else if eventType == "payment_intent.payment_failed" then Some(PaymentFailed)
    else if eventType == "charge.refunded" then Some(ChargeRefunded)
    else None
  }

  /** The intent statuses the reconciler acts on. */
  function IntentNamed(status: string): Intent {
    if status == "succeeded" then IntentSucceeded
    else if status == "canceled" || status == "requires_payment_method" then IntentClosed
    else IntentOpen
  }

  /** `report` is the status Stripe gives for the intent the event names. */
  datatype HookReplies = HookReplies(report: Option<string>, write: WriteReply, read: bool, publish: WriteReply)

  datatype CreateReplies = CreateReplies(
    insert: WriteReply, lookup: bool, session: Option<(string, string)>, persist: WriteReply)

  predicate WritesWell(r: HookReplies) { r.write == Works && r.read && r.publish == Works }

  /** The cross-check: an intent that is named must be reported as succeeded. */
  predicate Cleared(pi: string, report: Option<string>) { pi == "" || report == Some("succeeded") }

  /** The intent statuses and event types, by name. */
  lemma NamesAreThese(status: string, eventType: string)
    ensures IntentNamed(status) == IntentSucceeded <==> status == "succeeded"
    ensures IntentNamed(status) == IntentClosed <==> status == "canceled" || status == "requires_payment_method"
    ensures KindOf(eventType) == Some(Succeeded) <==>
              eventType == "payment_intent.succeeded" || eventType == "checkout.session.completed"
    ensures KindOf(eventType) == Some(PaymentFailed) <==> eventType == "payment_intent.payment_failed"
    ensures KindOf(eventType) == Some(ChargeRefunded) <==> eventType == "charge.refunded"
  {
  }

  /** `report` is the status and id Stripe gives for the row's intent. */
  datatype StuckReplies = StuckReplies(report: Option<(string, string)>, write: WriteReply, publish: WriteReply)

  /** `order` is the id of the row the lookup by order id hits. */
  datatype TransferReplies = TransferReplies(
    receipt: Receipt, order: Option<TxnId>, mark: WriteReply, pay: WriteReply, publish: WriteReply)

  // --- what each handler does, reply by reply --------------------------------

  function HookEvent(c: Config, x: Transaction, status: Status, origin: Origin): Entry {
    Published(IdOf(c, x), Event(x.merchant, x.order, status, x.pi, x.amount, x.currency), origin)
  }

  /** What the cross-check leaves in the log: what Stripe reported, if it was asked and did. */
  function CheckEntry(pi: string, report: Option<string>): Entry {
    if pi == "" || report.None? then Quiet else IntentRead(pi, IntentNamed(report.value))
  }

  /** The webhook's status write; `hit` says whether a row matched it. */
  function WriteEntry(c: Config, pid: Pid, m: string, o: string, status: Status, pi: string, hit: bool,
                      write: WriteReply): Entry {
    if hit then Effect(write, StatusWritten(TxnIdOf(c, m, o), status, ByWebhook(pid, pi))) else Quiet
  }

  /** The webhook's moves from its write on: the status and, only if that worked, the read back
      of `x`, and only if that worked, the event. */
  function PublishTrace(c: Config, pid: Pid, m: string, o: string, status: Status, pi: string, hit: bool,
                        x: Option<Transaction>, r: HookReplies): seq<Entry> {
    var w := WriteEntry(c, pid, m, o, status, pi, hit, r.write);
    if hit && r.write == Works then [w] + ReadTrace(c, pid, status, pi, x, r.publish) else [w]
  }

  function ReadTrace(c: Config, pid: Pid, status: Status, pi: string, x: Option<Transaction>, publish: WriteReply)
    : seq<Entry>
  {
    if x.None? then [Quiet] else [Quiet] + [Effect(publish, HookEvent(c, x.value, status, ByWebhook(pid, pi)))]
  }

  function SucceededTrace(c: Config, pid: Pid, m: string, o: string, pi: string, hit: bool, x: Option<Transaction>,
                          r: HookReplies): seq<Entry> {
    if m == "" || o == "" then [Quiet]
    else if !Cleared(pi, r.report) then [CheckEntry(pi, r.report)]
    else [CheckEntry(pi, r.report)] + PublishTrace(c, pid, m, o, Paid, pi, hit, x, r)
  }

  function FailedTrace(c: Config, pid: Pid, m: string, o: string, pi: string, hit: bool, write: WriteReply)
    : seq<Entry>
  {
    if m == "" || o == "" then [Quiet] else [Quiet] + [WriteEntry(c, pid, m, o, Failed, pi, hit, write)]
  }

  /** `who` is the merchant and order the refund is about. */
  function RefundedTrace(c: Config, pid: Pid, who: Option<(string, string)>, pi: string, hit: bool,
                         x: Option<Transaction>, r: HookReplies): seq<Entry> {
    if who.None? then [Quiet]
    else [Quiet] + PublishTrace(c, pid, who.value.0, who.value.1, Refunded, pi, hit, x, r)
  }

  /** The moves of a `Create`; `won` says that no row had the id when it inserted. An insert
      that meets a row is followed by a lookup, if the database reports the duplicate. */
  function CreateTrace(c: Config, pid: Pid, r: Request, createdAt: int, replies: CreateReplies, won: bool): seq<Entry> {
    if !Acceptable(c, r) then [Quiet]
    else if !won then if replies.insert == Works then [Quiet] + [Quiet] else [Quiet]
    else WinnerTrace(c, pid, r, createdAt, replies)
  }

  function WinnerTrace(c: Config, pid: Pid, r: Request, createdAt: int, replies: CreateReplies): seq<Entry> {
    var e := Effect(replies.insert, Inserted(TxnIdOf(c, r.merchant, r.order), NewRow(c, r, createdAt), pid));
    if replies.insert == Works && Eager(c, r) then [e] + SessionTrace(c, pid, r, replies) else [e]
  }

  /** The flow that opens a Stripe session at once. */
  predicate Eager(c: Config, r: Request) { !EqualFold(r.flow, "crypto") && !c.lazyCheckout }

  function SessionTrace(c: Config, pid: Pid, r: Request, replies: CreateReplies): seq<Entry> {
    var id := TxnIdOf(c, r.merchant, r.order);
    if replies.session.None? then [SessionCalled(id, pid)]
    else
      [SessionCalled(id, pid)]
      + [Effect(replies.persist, CheckoutWritten(id, replies.session.value.0, replies.session.value.1))]
  }

  /** What the winner answers. */
  predicate WinnerIsAccepted(c: Config, r: Request, replies: CreateReplies) {
    replies.insert == Works && (Eager(c, r) ==> replies.session.Some? && replies.persist == Works)
  }

  predicate Acceptable(c: Config, r: Request) { ValidOrderId(r.order) && r.amount > 0 && Insertable(c, r) }

  /** The reconciler's moves for one stuck row. */
  function StuckTrace(c: Config, pid: Pid, x: Transaction, r: StuckReplies): seq<Entry> {
    if x.pi == "" || r.report.None? then [Quiet]
    else
      var (status, pi) := r.report.value;
      [IntentRead(pi, IntentNamed(status))] + ReportTrace(c, x, status, pi, ByReconciler(pid, pi), r)
  }

  /** ... once the intent's status is known. */
  function ReportTrace(c: Config, x: Transaction, status: string, pi: string, origin: Origin,
                       r: StuckReplies): seq<Entry> {
    if status == "succeeded" then PaidTrace(c, x, pi, origin, r.write, r.publish)
    else if status == "canceled" || status == "requires_payment_method"
    then [Effect(r.write, StatusWritten(IdOf(c, x), Failed, origin))]
    else []
  }

  /** A paid write and, if it is known to have worked, the event. */
  function PaidTrace(c: Config, x: Transaction, pi: string, origin: Origin, write: WriteReply,
                     publish: WriteReply): seq<Entry> {
    [Effect(write, StatusWritten(IdOf(c, x), Paid, origin))] +
    if write != Works then []
    else [Effect(publish, Published(IdOf(c, x), Event(x.merchant, x.order, Paid, pi, x.amount, x.currency), origin))]
  }

  /** The tracker's moves for one pending transfer; `x` is the order its lookup found. */
  function TransferTrace(c: Config, pid: Pid, p: ChainItem, latest: nat, r: TransferReplies, x: Option<Transaction>)
    : seq<Entry>
  {
    [ReceiptRead(p.hash, r.receipt)] + ReceiptTrace(c, pid, p, latest, r, x)
  }

  /** ... once the receipt has been read. */
  function ReceiptTrace(c: Config, pid: Pid, p: ChainItem, latest: nat, r: TransferReplies, x: Option<Transaction>)
    : seq<Entry>
  {
    match r.receipt
    case Missing => [Effect(r.mark, ChainMarked(p.hash, Reorged, 0, pid))]
    case Reverted => [Effect(r.mark, ChainMarked(p.hash, ChainFailed, 0, pid))]
    case Good => GoodTrace(c, pid, p, latest, r, x)
  }

  /** ... with a good receipt. */
  function GoodTrace(c: Config, pid: Pid, p: ChainItem, latest: nat, r: TransferReplies, x: Option<Transaction>)
    : seq<Entry>
  {
    if latest < p.row.block then []
    else if latest - p.row.block < p.row.required
    then [Effect(r.mark, ChainMarked(p.hash, ChainPending, latest - p.row.block, pid))]
    else [Quiet] + DeepTrace(c, pid, p, latest - p.row.block, r, x)
  }

  /** ... deep enough, once the order has been looked up. */
  function DeepTrace(c: Config, pid: Pid, p: ChainItem, depth: nat, r: TransferReplies, x: Option<Transaction>)
    : seq<Entry>
  {
    if x.None? then []
    else if !IsFinal(x.value.status) && Codec.WrapInt64(p.row.amount) != x.value.amount
    then [Effect(r.mark, ChainMarked(p.hash, ChainFailed, depth, pid))]
    else
      [Effect(r.mark, ChainMarked(p.hash, Confirmed, depth, pid))] +
      if IsFinal(x.value.status) || r.mark != Works then []
      else PaidTrace(c, x.value, "", ByTracker(pid, p, depth), r.pay, r.publish)
  }

  /** The chain reconciler's moves for one pending transfer. */
  function RecheckTrace(pid: Pid, p: ChainItem, receipt: Receipt, mark: WriteReply): seq<Entry> {
    [ReceiptRead(p.hash, receipt)] +
    match receipt
    case Missing => [Effect(mark, ChainMarked(p.hash, Reorged, p.row.confirmations, pid))]
    case Reverted => [Effect(mark, ChainMarked(p.hash, ChainFailed, p.row.confirmations, pid))]
    case Good => []
  }

  /** The moves for a page, item by item in its order. */
  function Pages(traces: seq<seq<Entry>>): seq<Entry> {
    if traces == [] then [] else Pages(traces[..|traces| - 1]) + traces[|traces| - 1]
  }

  lemma PagesAdd(traces: seq<seq<Entry>>, t: seq<Entry>)
    ensures Pages(traces + [t]) == Pages(traces) + t
  {
    assert (traces + [t])[..|traces + [t]| - 1] == traces;
  }

  // --- the gateway -----------------------------------------------------------

  class Gateway {
    const c: Config
    var store: Store
    ghost var procs: map<Pid, Local>
    ghost var log: seq<Entry>
    ghost const s0: State
    ghost var run: seq<Move>

    ghost predicate Valid()
      reads this
    {
      IsRun(c, s0, run) && At(s0, run, |run|) == State(store, log, procs)
    }

    constructor (c: Config, ghost starting: map<Pid, Local>)
      requires forall p | p in starting :: IsStart(starting[p])
      ensures Valid() && this.c == c && procs == starting && run == []
    {
      this.c, store := c, Store(map[], map[]);
      procs, log, run, s0 := starting, [], [], State(Store(map[], map[]), [], starting);
    }

    ghost predicate Here(pid: Pid, l: Local)
      reads this
    {
      pid in procs && procs[pid] == l
    }

    /** Since `before` was the run, `pid` has made exactly the moves that left `t`. */
    ghost predicate Made(before: seq<Move>, pid: Pid, t: seq<Entry>)
      reads this
    {
      before <= run && Own(run, pid) == Own(before, pid) + t
    }

    /** Whatever other processes do before the next call of `pid`. Callers know only that it
        is a continuation of the run in which `pid` makes no move. */
    method Others(pid: Pid)
      requires Valid() && pid in procs
      modifies this
      ensures Valid() && Made(old(run), pid, []) && Here(pid, old(procs[pid]))
    {
      assert Own(run, pid) == Own(run, pid) + [];
    }

    /** One move of `pid`. */
    method Do(pid: Pid, e: Entry, ghost next: Local)
      requires Valid() && pid in procs && Act(c, store, pid, procs[pid], e, next)
      modifies this
      ensures Valid() && Made(old(run), pid, [e]) && Here(pid, next)
      ensures store == Apply(old(store), e) && run == old(run) + [Move(pid, e, next)]
    {
      ghost var m := Move(pid, e, next);
      RunGrows(c, s0, run, m);
      OwnAdd(run, m, pid);
      store, log, procs, run := Apply(store, e), log + [e], procs[pid := next], run + [m];
    }

    /** A write whose reply decides how the process goes on. */
    method Attempt(pid: Pid, e: Entry, reply: WriteReply, ghost ok: Local, ghost failed: Local)
      requires Valid() && pid in procs && Act(c, store, pid, procs[pid], e, ok)
      requires Act(c, store, pid, procs[pid], e, failed) && Act(c, store, pid, procs[pid], Quiet, failed)
      modifies this
      ensures Valid() && Made(old(run), pid, [Effect(reply, e)]) && Here(pid, if reply == Works then ok else failed)
      ensures store == (if reply == Fails then old(store) else Apply(old(store), e))
    {
      if reply == Works {
        Do(pid, e, ok);
      } else if reply == Lost {
        Do(pid, e, failed);
      } else {
        Do(pid, Quiet, failed);
      }
    }

    lemma MadeMore(a: seq<Move>, b: seq<Move>, pid: Pid, t: seq<Entry>, u: seq<Entry>)
      requires a <= b && Own(b, pid) == Own(a, pid) + t && Made(b, pid, u)
      ensures Made(a, pid, t + u)
    {
      assert Own(a, pid) + (t + u) == (Own(a, pid) + t) + u;
    }

    lemma MadeAfter(a: seq<Move>, b: seq<Move>, pid: Pid, t: seq<Entry>)
      requires a <= b && Own(b, pid) == Own(a, pid) + [] && Made(b, pid, t)
      ensures Made(a, pid, t)
    {
      assert Own(a, pid) + [] == Own(a, pid);
    }

    /** A call that is allowed whatever the tables hold. */
    method Call(pid: Pid, e: Entry, ghost next: Local)
      requires Valid() && pid in procs && forall st: Store :: Act(c, st, pid, procs[pid], e, next)
      modifies this
      ensures Valid() && Here(pid, next) && Made(old(run), pid, [e])
    {
      Others(pid);
      ghost var before := run;
      Do(pid, e, next);
      MadeAfter(old(run), before, pid, [e]);
    }

    /** Rows and chain rows that were there when the run was `before` are still there. */
    lemma StillThere(before: seq<Move>)
      requires Valid() && before <= run
      ensures Stays(At(s0, before, |before|).store, store) && RowsNamed(c, store)
    {
      ContinuationStays(c, s0, before, run);
    }

    /** A listed chain row is still there. */
    lemma StillListed(before: seq<Move>, hash: string)
      requires Valid() && before <= run && hash in At(s0, before, |before|).store.chain
      ensures hash in store.chain
    {
      StillThere(before);
    }

    /** A row's transaction id is that of its merchant and order. */
    lemma RowNamed(id: TxnId)
      requires Valid() && id in store.rows
      ensures IdOf(c, store.rows[id]) == id
    {
      StillThere(run);
    }

    /** A row the lookup by order id could return, it still could. */
    lemma StillHits(before: seq<Move>, p: ChainItem, id: TxnId)
      requires Valid() && before <= run && Hits(At(s0, before, |before|).store, p, id)
      ensures Hits(store, p, id)
    {
      StillThere(before);
    }

    /** `m` and `o` still name a row. */
    lemma StillMatches(before: seq<Move>, m: string, o: string)
      requires Valid() && before <= run && Matches(c, At(s0, before, |before|).store, m, o)
      ensures Matches(c, store, m, o)
    {
      StillThere(before);
    }

    // --- the stuck-order reconciler ------------------------------------------

    /** One tick: the stuck rows the scan lists, one after the other, each to the end
        whatever became of those before it. */
    method ReconcileStuck(pid: Pid, page: Option<seq<Transaction>>, replies: nat -> StuckReplies)
      requires Valid() && Here(pid, RecIdle) && (page.Some? ==> StuckPage(c, store, page.value))
      modifies this
      ensures Valid() && Here(pid, RecIdle)
      ensures page.None? ==> Made(old(run), pid, [Quiet])
      ensures page.Some? ==> Made(old(run), pid,
                                  [Quiet] + Pages(StuckTraces(c, pid, page.value, replies, |page.value|)) + [Quiet])
    {
      if page.None? {
        Do(pid, Quiet, RecIdle);
        return;
      }
      Do(pid, Quiet, RecLoop(page.value));
      ghost var listed := run;
      ReconcileAll(pid, page.value, replies);
      ghost var t := Pages(StuckTraces(c, pid, page.value, replies, |page.value|));
      MadeMore(old(run), listed, pid, [Quiet], t + [Quiet]);
      assert [Quiet] + (t + [Quiet]) == [Quiet] + t + [Quiet];
    }

    method ReconcileAll(pid: Pid, stuck: seq<Transaction>, replies: nat -> StuckReplies)
      requires Valid() && Here(pid, RecLoop(stuck)) && AllMatch(c, store, stuck)
      modifies this
      ensures Valid() && Here(pid, RecIdle)
      ensures Made(old(run), pid, Pages(StuckTraces(c, pid, stuck, replies, |stuck|)) + [Quiet])
    {
      ReconcileRows(pid, stuck, replies);
      ghost var before := run;
      Do(pid, Quiet, RecIdle);
      MadeMore(old(run), before, pid, Pages(StuckTraces(c, pid, stuck, replies, |stuck|)), [Quiet]);
    }

    method ReconcileRows(pid: Pid, stuck: seq<Transaction>, replies: nat -> StuckReplies)
      requires Valid() && Here(pid, RecLoop(stuck)) && AllMatch(c, store, stuck)
      modifies this
      ensures Valid() && Here(pid, RecLoop([]))
      ensures Made(old(run), pid, Pages(StuckTraces(c, pid, stuck, replies, |stuck|)))
    {
      assert Own(run, pid) == Own(run, pid) + [];
      for i := 0 to |stuck|
        invariant Valid() && Here(pid, RecLoop(stuck[i..]))
        invariant Made(old(run), pid, Pages(StuckTraces(c, pid, stuck, replies, i)))
      {
        ghost var before := run;
        assert stuck[i..] == [stuck[i]] + stuck[i + 1..];
        StillMatches(old(run), stuck[i].merchant, stuck[i].order);
        ReconcileOne(pid, stuck[i], stuck[i + 1..], replies(i));
        MadeRow(old(run), before, pid, stuck, replies, i);
      }
    }

    lemma MadeRow(a: seq<Move>, b: seq<Move>, pid: Pid, stuck: seq<Transaction>, replies: nat -> StuckReplies, i: nat)
      requires i < |stuck| && a <= b && Own(b, pid) == Own(a, pid) + Pages(StuckTraces(c, pid, stuck, replies, i))
      requires Made(b, pid, StuckTrace(c, pid, stuck[i], replies(i)))
      ensures Made(a, pid, Pages(StuckTraces(c, pid, stuck, replies, i + 1)))
    {
      MadeMore(a, b, pid, Pages(StuckTraces(c, pid, stuck, replies, i)), StuckTrace(c, pid, stuck[i], replies(i)));
      StuckAdd(c, pid, stuck, replies, i);
    }

    /** Ask Stripe about the row's payment intent; force the outcome it reports. */
    method ReconcileOne(pid: Pid, x: Transaction, ghost rest: seq<Transaction>, r: StuckReplies)
      requires Valid() && Here(pid, RecLoop([x] + rest)) && Matches(c, store, x.merchant, x.order)
      modifies this
      ensures Valid() && Here(pid, RecLoop(rest)) && Made(old(run), pid, StuckTrace(c, pid, x, r))
    {
      assert ([x] + rest)[1..] == rest;
      if x.pi == "" || r.report.None? {
        Call(pid, Quiet, RecLoop(rest));
        return;
      }
      var (status, pi) := r.report.value;
      Call(pid, IntentRead(pi, IntentNamed(status)), AfterIntent(rest, x, IntentNamed(status), pi));
      StillMatches(old(run), x.merchant, x.order);
      ghost var before := run;
      ActOnReport(pid, x, rest, status, pi, r);
      MadeMore(old(run), before, pid, [IntentRead(pi, IntentNamed(status))],
               ReportTrace(c, x, status, pi, ByReconciler(pid, pi), r));
    }

    method ActOnReport(
      pid: Pid, x: Transaction, ghost rest: seq<Transaction>, status: string, pi: string, r: StuckReplies)
      requires Valid() && Here(pid, AfterIntent(rest, x, IntentNamed(status), pi))
               && Matches(c, store, x.merchant, x.order)
      modifies this
      ensures Valid() && Here(pid, RecLoop(rest))
      ensures Made(old(run), pid, ReportTrace(c, x, status, pi, ByReconciler(pid, pi), r))
    {
      if status == "succeeded" {
        ForcePaid(pid, x, pi, rest, r);
      } else if status == "canceled" || status == "requires_payment_method" {
        ForceStatus(pid, x, Failed, pi, rest, r.write);
      } else {
        assert Own(run, pid) == Own(run, pid) + [];
      }
    }

    method ForcePaid(pid: Pid, x: Transaction, pi: string, ghost rest: seq<Transaction>, r: StuckReplies)
      requires Valid() && Here(pid, RecWrite(rest, x, Paid, pi)) && Matches(c, store, x.merchant, x.order)
      modifies this
      ensures Valid() && Here(pid, RecLoop(rest))
      ensures Made(old(run), pid, PaidTrace(c, x, pi, ByReconciler(pid, pi), r.write, r.publish))
    {
      ForceStatus(pid, x, Paid, pi, rest, r.write);
      if r.write == Works {
        ghost var before := run;
        PublishForced(pid, x, pi, rest, r.publish);
        MadeMore(old(run), before, pid, PaidTrace(c, x, pi, ByReconciler(pid, pi), r.write, r.publish)[..1],
                 PaidTrace(c, x, pi, ByReconciler(pid, pi), r.write, r.publish)[1..]);
      }
    }

    method ForceStatus(pid: Pid, x: Transaction, status: Status, pi: string, ghost rest: seq<Transaction>,
                       reply: WriteReply)
      requires Valid() && Here(pid, RecWrite(rest, x, status, pi)) && Matches(c, store, x.merchant, x.order)
      modifies this
      ensures Valid() && Made(old(run), pid, [Effect(reply, StatusWritten(IdOf(c, x), status, ByReconciler(pid, pi)))])
      ensures Here(pid, if reply == Works && status == Paid then RecPublish(rest, x, pi) else RecLoop(rest))
    {
      Others(pid);
      ghost var before := run;
      StillMatches(old(run), x.merchant, x.order);
      var e := StatusWritten(IdOf(c, x), status, ByReconciler(pid, pi));
      Attempt(pid, e, reply, if status == Paid then RecPublish(rest, x, pi) else RecLoop(rest), RecLoop(rest));
      MadeAfter(old(run), before, pid, [Effect(reply, e)]);
    }

    method PublishForced(pid: Pid, x: Transaction, pi: string, ghost rest: seq<Transaction>, reply: WriteReply)
      requires Valid() && Here(pid, RecPublish(rest, x, pi))
      modifies this
      ensures Valid() && Here(pid, RecLoop(rest))
      ensures Made(old(run), pid, PaidTrace(c, x, pi, ByReconciler(pid, pi), Works, reply)[1..])
    {
      Others(pid);
      ghost var before := run;
      var e := Published(IdOf(c, x), Event(x.merchant, x.order, Paid, pi, x.amount, x.currency), ByReconciler(pid, pi));
      Attempt(pid, e, reply, RecLoop(rest), RecLoop(rest));
      MadeAfter(old(run), before, pid, [Effect(reply, e)]);
    }

    // --- the confirmation tracker --------------------------------------------

    /** `pid` made a move, no earlier than move `from`, when the tables were `st`. */
    ghost predicate Asked(from: nat, pid: Pid, st: Store)
      reads this
    {
      exists n: nat :: from <= n < |run| && run[n].pid == pid && At(s0, run, n).store == st
    }

    lemma AskedThen(before: seq<Move>, m: Move, st: Store)
      requires before + [m] <= run && At(s0, before, |before|).store == st
      ensures Asked(|before|, m.pid, st)
    {
      AtPrefix(s0, before, run[|before|..], |before|);
      assert before + run[|before|..] == run;
      assert run[|before|] == (before + [m])[|before|] == m;
    }

    /** One tick: the head, then a page of pending transfers, one after the other in its
        order. `list` is what the chain table answers, `tables` what it held when asked,
        `found` the orders the lookups hit. */
    method Track(pid: Pid, head: Option<nat>, list: Store -> Option<seq<ChainItem>>, replies: nat -> TransferReplies)
      returns (ghost tables: Store, ghost found: seq<Option<Transaction>>)
      requires Valid() && Here(pid, TrkIdle)
      requires forall st: Store :: list(st).Some? ==> PendingPage(st, list(st).value)
      modifies this
      ensures Valid() && Here(pid, TrkIdle)
      ensures head.None? ==> Made(old(run), pid, [Quiet])
      ensures head.Some? ==> Asked(|old(run)|, pid, tables)
      ensures head.Some? && list(tables).None? ==> Made(old(run), pid, [HeadRead(head.value)] + [Quiet])
      ensures head.Some? && list(tables).Some? ==>
        && |found| == |list(tables).value|
        && Made(old(run), pid,
                [HeadRead(head.value)] + PageTrace(c, pid, list(tables).value, head.value, replies, found))
    {
      tables, found := store, [];
      if head.None? {
        Do(pid, Quiet, TrkIdle);
        return;
      }
      Do(pid, HeadRead(head.value), TrkList(head.value));
      ghost var before := run;
      tables, found := TrackPage(pid, head.value, list, replies);
      MadeMore(old(run), before, pid, [HeadRead(head.value)],
               if list(tables).None? then [Quiet]
               else PageTrace(c, pid, list(tables).value, head.value, replies, found));
    }

    method TrackPage(pid: Pid, latest: nat, list: Store -> Option<seq<ChainItem>>, replies: nat -> TransferReplies)
      returns (ghost tables: Store, ghost found: seq<Option<Transaction>>)
      requires Valid() && Here(pid, TrkList(latest))
      requires forall st: Store :: list(st).Some? ==> PendingPage(st, list(st).value)
      modifies this
      ensures Valid() && Here(pid, TrkIdle) && Asked(|old(run)|, pid, tables)
      ensures list(tables).None? ==> Made(old(run), pid, [Quiet])
      ensures list(tables).Some? ==>
        && |found| == |list(tables).value|
        && Made(old(run), pid, PageTrace(c, pid, list(tables).value, latest, replies, found))
    {
      ghost var before;
      var page;
      page, tables, before := ListPending(pid, latest, list);
      found := [];
      ghost var listed := run;
      if page.Some? {
        found := TrackAll(pid, latest, page.value, replies);
        MadeMore(old(run), listed, pid, [Quiet],
                 Pages(TransferTraces(c, pid, page.value, latest, replies, found, |found|)) + [Quiet]);
      }
      AskedThen(before, listed[|before|], tables);
    }

    method ListPending(pid: Pid, latest: nat, list: Store -> Option<seq<ChainItem>>)
      returns (page: Option<seq<ChainItem>>, ghost tables: Store, ghost before: seq<Move>)
      requires Valid() && Here(pid, TrkList(latest))
      requires forall st: Store :: list(st).Some? ==> PendingPage(st, list(st).value)
      modifies this
      ensures Valid() && Made(old(run), pid, [Quiet]) && page == list(tables)
      ensures Here(pid, if page.Some? then TrkLoop(latest, page.value) else TrkIdle)
      ensures page.Some? ==> AllListed(store, page.value)
      ensures old(run) <= before && |before| < |run| && before + [run[|before|]] == run && run[|before|].pid == pid
      ensures At(s0, before, |before|).store == tables
    {
      Others(pid);
      before, tables := run, store;
      page := list(store);
      Do(pid, Quiet, if page.Some? then TrkLoop(latest, page.value) else TrkIdle);
      MadeAfter(old(run), before, pid, [Quiet]);
    }

    method TrackAll(pid: Pid, latest: nat, page: seq<ChainItem>, replies: nat -> TransferReplies)
      returns (ghost found: seq<Option<Transaction>>)
      requires Valid() && Here(pid, TrkLoop(latest, page)) && AllListed(store, page)
      modifies this
      ensures Valid() && Here(pid, TrkIdle) && |found| == |page|
      ensures Made(old(run), pid, Pages(TransferTraces(c, pid, page, latest, replies, found, |page|)) + [Quiet])
    {
      found := [];
      assert Own(run, pid) == Own(run, pid) + [];
      for i := 0 to |page|
        invariant Valid() && Here(pid, TrkLoop(latest, page[i..])) && |found| == i
        invariant Made(old(run), pid, Pages(TransferTraces(c, pid, page, latest, replies, found, i)))
      {
        ghost var before := run;
        assert page[i..] == [page[i]] + page[i + 1..];
        StillListed(old(run), page[i].hash);
        ghost var x := TrackOne(pid, page[i], latest, page[i + 1..], replies(i));
        MadeTransfer(old(run), before, pid, page, latest, replies, found, x);
        found := found + [x];
      }
      ghost var before := run;
      Do(pid, Quiet, TrkIdle);
      MadeMore(old(run), before, pid, Pages(TransferTraces(c, pid, page, latest, replies, found, |page|)), [Quiet]);
    }

    lemma MadeTransfer(a: seq<Move>, b: seq<Move>, pid: Pid, page: seq<ChainItem>, latest: nat,
                       replies: nat -> TransferReplies, found: seq<Option<Transaction>>, x: Option<Transaction>)
      requires |found| < |page| && a <= b
      requires Own(b, pid) == Own(a, pid) + Pages(TransferTraces(c, pid, page, latest, replies, found, |found|))
      requires Made(b, pid, TransferTrace(c, pid, page[|found|], latest, replies(|found|), x))
      ensures Made(a, pid, Pages(TransferTraces(c, pid, page, latest, replies, found + [x], |found| + 1)))
    {
      MadeMore(a, b, pid, Pages(TransferTraces(c, pid, page, latest, replies, found, |found|)),
               TransferTrace(c, pid, page[|found|], latest, replies(|found|), x));
      TracesAdd(c, pid, page, latest, replies, found, x);
    }

    /** Receipt, depth, order, amount; then mark, pay and publish in that order. */
    method TrackOne(pid: Pid, p: ChainItem, latest: nat, ghost rest: seq<ChainItem>, r: TransferReplies)
      returns (ghost x: Option<Transaction>)
      requires Valid() && Here(pid, TrkLoop(latest, [p] + rest)) && p.hash in store.chain
      modifies this
      ensures Valid() && Here(pid, TrkLoop(latest, rest)) && Made(old(run), pid, TransferTrace(c, pid, p, latest, r, x))
      ensures x.Some? ==> r.order == Some(IdOf(c, x.value)) && x.value.order == p.row.order
      ensures r.receipt == Good && latest >= p.row.block + p.row.required && r.order.Some?
              && Hits(old(store), p, r.order.value)
              ==> x.Some?
    {
      ReadReceipt(pid, p, latest, rest, r.receipt);
      StillListed(old(run), p.hash);
      if r.order.Some? && Hits(old(store), p, r.order.value) {
        StillHits(old(run), p, r.order.value);
      }
      ghost var before := run;
      x := ActOnReceipt(pid, p, latest, rest, r);
      MadeMore(old(run), before, pid, [ReceiptRead(p.hash, r.receipt)], ReceiptTrace(c, pid, p, latest, r, x));
    }

    method ActOnReceipt(pid: Pid, p: ChainItem, latest: nat, ghost rest: seq<ChainItem>, r: TransferReplies)
      returns (ghost x: Option<Transaction>)
      requires Valid() && Here(pid, AfterReceipt(latest, rest, p, r.receipt)) && p.hash in store.chain
      modifies this
      ensures Valid() && Here(pid, TrkLoop(latest, rest)) && Made(old(run), pid, ReceiptTrace(c, pid, p, latest, r, x))
      ensures x.Some? ==> r.order == Some(IdOf(c, x.value)) && x.value.order == p.row.order
      ensures r.receipt == Good && latest >= p.row.block + p.row.required && r.order.Some?
              && Hits(old(store), p, r.order.value)
              ==> x.Some?
    {
      x := None;
      match r.receipt
      case Missing => Mark(pid, p, latest, rest, Reorged, 0, None, r.mark);
      case Reverted => Mark(pid, p, latest, rest, ChainFailed, 0, None, r.mark);
      case Good => x := Settle(pid, p, latest, rest, r);
    }

    method ReadReceipt(pid: Pid, p: ChainItem, latest: nat, ghost rest: seq<ChainItem>, receipt: Receipt)
      requires Valid() && Here(pid, TrkLoop(latest, [p] + rest))
      modifies this
      ensures Valid() && Made(old(run), pid, [ReceiptRead(p.hash, receipt)])
      ensures Here(pid, AfterReceipt(latest, rest, p, receipt))
    {
      assert ([p] + rest)[1..] == rest;
      Call(pid, ReceiptRead(p.hash, receipt), AfterReceipt(latest, rest, p, receipt));
    }

    /** A good receipt. */
    method Settle(pid: Pid, p: ChainItem, latest: nat, ghost rest: seq<ChainItem>, r: TransferReplies)
      returns (ghost x: Option<Transaction>)
      requires Valid() && Here(pid, AfterReceipt(latest, rest, p, Good)) && p.hash in store.chain
      modifies this
      ensures Valid() && Here(pid, TrkLoop(latest, rest)) && Made(old(run), pid, GoodTrace(c, pid, p, latest, r, x))
      ensures x.Some? ==> r.order == Some(IdOf(c, x.value)) && x.value.order == p.row.order
      ensures latest >= p.row.block + p.row.required && r.order.Some? && Hits(old(store), p, r.order.value) ==> x.Some?
    {
      x := None;
      assert Own(run, pid) == Own(run, pid) + [];
      if latest < p.row.block {
        return;
      }
      if latest - p.row.block < p.row.required {
        Mark(pid, p, latest, rest, ChainPending, latest - p.row.block, None, r.mark);
        return;
      }
      x := FindAndDecide(pid, p, latest, rest, r);
    }

    /** The lookup by order id, under any merchant. */
    method FindAndDecide(pid: Pid, p: ChainItem, latest: nat, ghost rest: seq<ChainItem>, r: TransferReplies)
      returns (ghost x: Option<Transaction>)
      requires Valid() && Here(pid, TrkOrder(latest, rest, p)) && p.hash in store.chain && latest >= p.row.block
      modifies this
      ensures Valid() && Here(pid, TrkLoop(latest, rest))
      ensures Made(old(run), pid, [Quiet] + DeepTrace(c, pid, p, latest - p.row.block, r, x))
      ensures x.Some? ==> r.order == Some(IdOf(c, x.value)) && x.value.order == p.row.order
      ensures r.order.Some? && Hits(old(store), p, r.order.value) ==> x.Some?
    {
      var row := LookUp(pid, p, latest, rest, r.order);
      x := row;
      if row.Some? {
        ghost var before := run;
        StillListed(old(run), p.hash);
        Decide(pid, p, latest, rest, row.value, r);
        MadeMore(old(run), before, pid, [Quiet], DeepTrace(c, pid, p, latest - p.row.block, r, x));
      }
    }

    method LookUp(pid: Pid, p: ChainItem, latest: nat, ghost rest: seq<ChainItem>, order: Option<TxnId>)
      returns (row: Option<Transaction>)
      requires Valid() && Here(pid, TrkOrder(latest, rest, p)) && latest >= p.row.block
      modifies this
      ensures Valid() && Made(old(run), pid, [Quiet])
      ensures Here(pid, if row.Some? then AfterOrder(latest, rest, p, row.value) else TrkLoop(latest, rest))
      ensures row.Some? ==> order == Some(IdOf(c, row.value)) && row.value.order == p.row.order
      ensures row.Some? ==> Matches(c, store, row.value.merchant, row.value.order)
      ensures order.Some? && Hits(old(store), p, order.value) ==> row.Some?
    {
      Others(pid);
      if order.Some? && Hits(old(store), p, order.value) {
        StillHits(old(run), p, order.value);
      }
      ghost var before := run;
      if order.Some? && order.value in store.rows {
        RowNamed(order.value);
      }
      row := if order.Some? && Hits(store, p, order.value) then Some(store.rows[order.value]) else None;
      Do(pid, Quiet, if row.Some? then AfterOrder(latest, rest, p, row.value) else TrkLoop(latest, rest));
      MadeAfter(old(run), before, pid, [Quiet]);
    }

    /** The order has been found: already final, a different amount, or to be paid. */
    method Decide(pid: Pid, p: ChainItem, latest: nat, ghost rest: seq<ChainItem>, x: Transaction, r: TransferReplies)
      requires Valid() && latest >= p.row.block && Here(pid, AfterOrder(latest, rest, p, x)) && p.hash in store.chain
      requires Matches(c, store, x.merchant, x.order)
      modifies this
      ensures Valid() && Here(pid, TrkLoop(latest, rest))
      ensures Made(old(run), pid, DeepTrace(c, pid, p, latest - p.row.block, r, Some(x)))
    {
      var depth := latest - p.row.block;
      if IsFinal(x.status) {
        Mark(pid, p, latest, rest, Confirmed, depth, None, r.mark);
      } else if Codec.WrapInt64(p.row.amount) != x.amount {
        Mark(pid, p, latest, rest, ChainFailed, depth, None, r.mark);
      } else {
        Mark(pid, p, latest, rest, Confirmed, depth, Some(x), r.mark);
        if r.mark == Works {
          ghost var before := run;
          StillMatches(old(run), x.merchant, x.order);
          PayAndPublish(pid, p, latest, rest, depth, x, r);
          MadeMore(old(run), before, pid, [ChainMarked(p.hash, Confirmed, depth, pid)],
                   PaidTrace(c, x, "", ByTracker(pid, p, depth), r.pay, r.publish));
        }
      }
    }

    method Mark(pid: Pid, p: ChainItem, latest: nat, ghost rest: seq<ChainItem>, mark: ChainStatus, depth: nat,
                ghost pay: Option<Transaction>, reply: WriteReply)
      requires Valid() && Here(pid, TrkMark(latest, rest, p, mark, depth, pay)) && p.hash in store.chain
      modifies this
      ensures Valid() && Made(old(run), pid, [Effect(reply, ChainMarked(p.hash, mark, depth, pid))])
      ensures Here(pid, if reply == Works && pay.Some? then TrkPay(latest, rest, p, depth, pay.value)
                        else TrkLoop(latest, rest))
    {
      Others(pid);
      StillListed(old(run), p.hash);
      ghost var before := run;
      var e := ChainMarked(p.hash, mark, depth, pid);
      Attempt(pid, e, reply, if pay.Some? then TrkPay(latest, rest, p, depth, pay.value) else TrkLoop(latest, rest),
              TrkLoop(latest, rest));
      MadeAfter(old(run), before, pid, [Effect(reply, e)]);
    }

    method PayAndPublish(pid: Pid, p: ChainItem, latest: nat, ghost rest: seq<ChainItem>, depth: nat, x: Transaction,
                         r: TransferReplies)
      requires Valid() && Here(pid, TrkPay(latest, rest, p, depth, x)) && Matches(c, store, x.merchant, x.order)
      modifies this
      ensures Valid() && Here(pid, TrkLoop(latest, rest))
      ensures Made(old(run), pid, PaidTrace(c, x, "", ByTracker(pid, p, depth), r.pay, r.publish))
    {
      Others(pid);
      StillMatches(old(run), x.merchant, x.order);
      ghost var before := run;
      var e := StatusWritten(IdOf(c, x), Paid, ByTracker(pid, p, depth));
      Attempt(pid, e, r.pay, TrkPublish(latest, rest, p, depth, x), TrkLoop(latest, rest));
      MadeAfter(old(run), before, pid, [Effect(r.pay, e)]);
      if r.pay == Works {
        before := run;
        PublishPaid(pid, p, latest, rest, depth, x, r.publish);
        MadeMore(old(run), before, pid, [e], PaidTrace(c, x, "", ByTracker(pid, p, depth), Works, r.publish)[1..]);
      }
    }

    method PublishPaid(pid: Pid, p: ChainItem, latest: nat, ghost rest: seq<ChainItem>, depth: nat, x: Transaction,
                       reply: WriteReply)
      requires Valid() && Here(pid, TrkPublish(latest, rest, p, depth, x))
      modifies this
      ensures Valid() && Here(pid, TrkLoop(latest, rest))
      ensures Made(old(run), pid, PaidTrace(c, x, "", ByTracker(pid, p, depth), Works, reply)[1..])
    {
      Others(pid);
      ghost var before := run;
      var e := Published(IdOf(c, x), Event(x.merchant, x.order, Paid, "", x.amount, x.currency),
                         ByTracker(pid, p, depth));
      Attempt(pid, e, reply, TrkLoop(latest, rest), TrkLoop(latest, rest));
      MadeAfter(old(run), before, pid, [Effect(reply, e)]);
    }

    // --- the chain reconciler ------------------------------------------------

    /** One tick: re-check the receipts of the pending transfers listed, in their order, and
        mark the bad ones. */
    method Recheck(pid: Pid, page: Option<seq<ChainItem>>, receipts: nat -> Receipt, marks: nat -> WriteReply)
      requires Valid() && Here(pid, ChkIdle) && (page.Some? ==> PendingPage(store, page.value))
      modifies this
      ensures Valid() && Here(pid, ChkIdle)
      ensures page.None? ==> Made(old(run), pid, [Quiet])
      ensures page.Some? ==>
        Made(old(run), pid, [Quiet] + (Pages(RecheckTraces(pid, page.value, receipts, marks, |page.value|)) + [Quiet]))
    {
      if page.None? {
        Do(pid, Quiet, ChkIdle);
        return;
      }
      Do(pid, Quiet, ChkLoop(page.value));
      ghost var listed := run;
      RecheckAll(pid, page.value, receipts, marks);
      MadeMore(old(run), listed, pid, [Quiet],
               Pages(RecheckTraces(pid, page.value, receipts, marks, |page.value|)) + [Quiet]);
    }

    method RecheckAll(pid: Pid, page: seq<ChainItem>, receipts: nat -> Receipt, marks: nat -> WriteReply)
      requires Valid() && Here(pid, ChkLoop(page)) && AllListed(store, page)
      modifies this
      ensures Valid() && Here(pid, ChkIdle)
      ensures Made(old(run), pid, Pages(RecheckTraces(pid, page, receipts, marks, |page|)) + [Quiet])
    {
      RecheckRows(pid, page, receipts, marks);
      ghost var before := run;
      Do(pid, Quiet, ChkIdle);
      MadeMore(old(run), before, pid, Pages(RecheckTraces(pid, page, receipts, marks, |page|)), [Quiet]);
    }

    method RecheckRows(pid: Pid, page: seq<ChainItem>, receipts: nat -> Receipt, marks: nat -> WriteReply)
      requires Valid() && Here(pid, ChkLoop(page)) && AllListed(store, page)
      modifies this
      ensures Valid() && Here(pid, ChkLoop([]))
      ensures Made(old(run), pid, Pages(RecheckTraces(pid, page, receipts, marks, |page|)))
    {
      assert Own(run, pid) == Own(run, pid) + [];
      for i := 0 to |page|
        invariant Valid() && Here(pid, ChkLoop(page[i..]))
        invariant Made(old(run), pid, Pages(RecheckTraces(pid, page, receipts, marks, i)))
      {
        ghost var before := run;
        assert page[i..] == [page[i]] + page[i + 1..];
        StillListed(old(run), page[i].hash);
        RecheckOne(pid, page[i], page[i + 1..], receipts(i), marks(i));
        MadeRecheck(old(run), before, pid, page, receipts, marks, i);
      }
    }

    lemma MadeRecheck(a: seq<Move>, b: seq<Move>, pid: Pid, page: seq<ChainItem>, receipts: nat -> Receipt,
                      marks: nat -> WriteReply, i: nat)
      requires i < |page| && a <= b
      requires Own(b, pid) == Own(a, pid) + Pages(RecheckTraces(pid, page, receipts, marks, i))
      requires Made(b, pid, RecheckTrace(pid, page[i], receipts(i), marks(i)))
      ensures Made(a, pid, Pages(RecheckTraces(pid, page, receipts, marks, i + 1)))
    {
      MadeMore(a, b, pid, Pages(RecheckTraces(pid, page, receipts, marks, i)),
               RecheckTrace(pid, page[i], receipts(i), marks(i)));
      RecheckAdd(pid, page, receipts, marks, i);
    }

    method RecheckOne(pid: Pid, p: ChainItem, ghost rest: seq<ChainItem>, receipt: Receipt, mark: WriteReply)
      requires Valid() && Here(pid, ChkLoop([p] + rest)) && p.hash in store.chain
      modifies this
      ensures Valid() && Here(pid, ChkLoop(rest)) && Made(old(run), pid, RecheckTrace(pid, p, receipt, mark))
    {
      assert ([p] + rest)[1..] == rest;
      Call(pid, ReceiptRead(p.hash, receipt), AfterRecheck(rest, p, receipt));
      ghost var before := run;
      StillListed(old(run), p.hash);
      if receipt != Good {
        MarkBad(pid, p, rest, if receipt == Missing then Reorged else ChainFailed, mark);
        MadeMore(old(run), before, pid, [ReceiptRead(p.hash, receipt)], RecheckTrace(pid, p, receipt, mark)[1..]);
      }
    }

    method MarkBad(pid: Pid, p: ChainItem, ghost rest: seq<ChainItem>, mark: ChainStatus, reply: WriteReply)
      requires Valid() && Here(pid, ChkMark(rest, p, mark)) && p.hash in store.chain
      modifies this
      ensures Valid() && Here(pid, ChkLoop(rest))
      ensures Made(old(run), pid, [Effect(reply, ChainMarked(p.hash, mark, p.row.confirmations, pid))])
    {
      Others(pid);
      StillListed(old(run), p.hash);
      ghost var before := run;
      var e := ChainMarked(p.hash, mark, p.row.confirmations, pid);
      Attempt(pid, e, reply, ChkLoop(rest), ChkLoop(rest));
      MadeAfter(old(run), before, pid, [Effect(reply, e)]);
    }

    // --- webhook -------------------------------------------------------------

    /** A verified delivery whose event id was not seen before goes to the handler of its type;
        any other moves nothing. */
    method Process(pid: Pid, eventType: string, verified: bool, firstTime: Option<bool>, m: string, o: string,
                   pi: string, found: Option<(string, string)>, r: HookReplies)
      returns (ok: bool, ghost hit: bool, ghost x: Option<Transaction>, ghost who: Option<(string, string)>)
      requires Valid() && (found.Some? ==> found.value.0 != "" && found.value.1 != "")
      requires KindOf(eventType).Some? ==> Here(pid, HookStart(KindOf(eventType).value, m, o, pi))
      modifies this
      ensures Valid() && old(run) <= run
      ensures !verified || firstTime != Some(true) ==> !ok && run == old(run)
      ensures verified && firstTime == Some(true) ==>
        if eventType == "payment_intent.succeeded" || eventType == "checkout.session.completed" then
          Made(old(run), pid, SucceededTrace(c, pid, m, o, pi, hit, x, r))
          && (ok <==> m != "" && o != "" && Cleared(pi, r.report) && hit && WritesWell(r))
        else if eventType == "payment_intent.payment_failed" then
          Made(old(run), pid, FailedTrace(c, pid, m, o, pi, hit, r.write))
          && (ok <==> m != "" && o != "" && hit && r.write == Works)
        else if eventType == "charge.refunded" then
          Made(old(run), pid, RefundedTrace(c, pid, who, pi, hit, x, r)) && (ok <==> who.Some? && hit && WritesWell(r))
          && (m != "" && o != "" ==> who == Some((m, o)))
        else ok && run == old(run)
      ensures verified && firstTime == Some(true) && KindOf(eventType).Some? ==>
                (Named(old(store), m, o) && Cleared(pi, r.report) ==> hit)
    {
      hit, x, who := false, None, None;
      if !verified || firstTime != Some(true) {
        return false, hit, x, who;
      }
      match KindOf(eventType)
      case Some(Succeeded) => ok, hit, x := HandleSucceeded(pid, m, o, pi, r);
      case Some(PaymentFailed) => ok, hit := HandleFailed(pid, m, o, pi, r);
      case Some(ChargeRefunded) => ok, hit, x, who := HandleRefunded(pid, m, o, pi, found, r);
      case None => ok := true;
    }

    /** The event names a stored order. */
    ghost predicate Named(st: Store, m: string, o: string) {
      m != "" && o != "" && ValidOrderId(o) && Matches(c, st, m, o)
    }

    /** The intent confirmed if one is named, the paid write, the read back and the event, each
        only if those before it worked. Success is exactly that all of them did; `hit`
        says that a row matched the write and `x` is the row read back. */
    method HandleSucceeded(pid: Pid, m: string, o: string, pi: string, r: HookReplies)
      returns (ok: bool, ghost hit: bool, ghost x: Option<Transaction>)
      requires Valid() && Here(pid, HookStart(Succeeded, m, o, pi))
      modifies this
      ensures Valid() && Here(pid, HookDone) && Made(old(run), pid, SucceededTrace(c, pid, m, o, pi, hit, x, r))
      ensures ok <==> m != "" && o != "" && Cleared(pi, r.report) && hit && WritesWell(r)
      ensures x.Some? <==> m != "" && o != "" && Cleared(pi, r.report) && hit && r.write == Works && r.read
      ensures x.Some? ==> x.value.merchant == m && x.value.order == o
      ensures Named(old(store), m, o) && Cleared(pi, r.report) ==> hit
    {
      hit, x := false, None;
      if o == "" || m == "" {
        Do(pid, Quiet, HookDone);
        return false, hit, x;
      }
      var cleared := CrossCheck(pid, m, o, pi, r.report);
      if !cleared {
        return false, hit, x;
      }
      ghost var before := run;
      if Matches(c, old(store), m, o) {
        StillMatches(old(run), m, o);
      }
      ok, hit, x := WriteAndPublish(pid, m, o, Paid, pi, r);
      MadeMore(old(run), before, pid, [CheckEntry(pi, r.report)], PublishTrace(c, pid, m, o, Paid, pi, hit, x, r));
    }

    /** Ask Stripe about the intent the event names; without one there is nothing to ask. */
    method CrossCheck(pid: Pid, m: string, o: string, pi: string, report: Option<string>) returns (cleared: bool)
      requires Valid() && Here(pid, HookStart(Succeeded, m, o, pi)) && m != "" && o != ""
      modifies this
      ensures Valid() && Made(old(run), pid, [CheckEntry(pi, report)]) && cleared == Cleared(pi, report)
      ensures Here(pid, if cleared then HookWrite(m, o, Paid, pi) else HookDone)
    {
      cleared := true;
      if pi == "" {
        Call(pid, Quiet, HookWrite(m, o, Paid, pi));
      } else if report.None? {
        Call(pid, Quiet, HookDone);
        cleared := false;
      } else {
        Call(pid, IntentRead(pi, IntentNamed(report.value)), AfterCheck(m, o, pi, IntentNamed(report.value)));
        cleared := report.value == "succeeded";
      }
    }

    /** The failed write, and no event. */
    method HandleFailed(pid: Pid, m: string, o: string, pi: string, r: HookReplies) returns (ok: bool, ghost hit: bool)
      requires Valid() && Here(pid, HookStart(PaymentFailed, m, o, pi))
      modifies this
      ensures Valid() && Here(pid, HookDone) && Made(old(run), pid, FailedTrace(c, pid, m, o, pi, hit, r.write))
      ensures ok <==> m != "" && o != "" && hit && r.write == Works
      ensures Named(old(store), m, o) ==> hit
    {
      if o == "" || m == "" {
        Do(pid, Quiet, HookDone);
        return false, false;
      }
      Do(pid, Quiet, HookWrite(m, o, Failed, pi));
      ghost var before := run;
      if Matches(c, old(store), m, o) {
        StillMatches(old(run), m, o);
      }
      ok, hit := UpdateStatus(pid, m, o, Failed, pi, r.write);
      MadeMore(old(run), before, pid, [Quiet], [WriteEntry(c, pid, m, o, Failed, pi, hit, r.write)]);
    }

    /** A refund without our metadata is resolved through its payment intent: `found` is the
        merchant and order of the row that lookup returns, if the tables have it, and
        `who` those the refund is then about. */
    method HandleRefunded(pid: Pid, m: string, o: string, pi: string, found: Option<(string, string)>, r: HookReplies)
      returns (ok: bool, ghost hit: bool, ghost x: Option<Transaction>, ghost who: Option<(string, string)>)
      requires Valid() && Here(pid, HookStart(ChargeRefunded, m, o, pi))
      requires found.Some? ==> found.value.0 != "" && found.value.1 != ""
      modifies this
      ensures Valid() && Here(pid, HookDone) && Made(old(run), pid, RefundedTrace(c, pid, who, pi, hit, x, r))
      ensures ok <==> who.Some? && hit && WritesWell(r)
      ensures x.Some? ==> who == Some((x.value.merchant, x.value.order))
      ensures m != "" && o != "" ==> who == Some((m, o)) && (Named(old(store), m, o) ==> hit)
      ensures m == "" || o == "" ==> exists st :: Asked(|old(run)|, pid, st) && who == Unnamed(st, pi, found)
      ensures (m == "" || o == "") && who.Some? && ValidOrderId(who.value.1) ==> hit
    {
      hit, x := false, None;
      ghost var asked;
      var to;
      to, asked := Resolve(pid, m, o, pi, found);
      who := to;
      ghost var before := run;
      if to.Some? {
        var (m', o') := to.value;
        if Matches(c, old(store), m', o') {
          StillMatches(old(run), m', o');
        }
        ok, hit, x := WriteAndPublish(pid, m', o', Refunded, pi, r);
        MadeMore(old(run), before, pid, [Quiet], PublishTrace(c, pid, m', o', Refunded, pi, hit, x, r));
      } else {
        ok := false;
      }
      AskedThen(asked, before[|asked|], At(s0, asked, |asked|).store);
    }

    /** Whom the lookup by payment intent finds in these tables. */
    predicate HasIntent(st: Store, m: string, o: string, pi: string) {
      pi != "" && Matches(c, st, m, o) && st.rows[TxnIdOf(c, m, o)].pi == pi
    }

    function Unnamed(st: Store, pi: string, found: Option<(string, string)>): Option<(string, string)> {
      if found.Some? && HasIntent(st, found.value.0, found.value.1, pi) then found else None
    }

    /** The merchant and order a refund is about; `asked` is the run at that moment. */
    method Resolve(pid: Pid, m: string, o: string, pi: string, found: Option<(string, string)>)
      returns (who: Option<(string, string)>, ghost asked: seq<Move>)
      requires Valid() && Here(pid, HookStart(ChargeRefunded, m, o, pi))
      modifies this
      ensures Valid() && Made(old(run), pid, [Quiet])
      ensures Here(pid, if who.Some? then HookWrite(who.value.0, who.value.1, Refunded, pi) else HookDone)
      ensures old(run) <= asked && |asked| < |run| && asked + [run[|asked|]] == run && run[|asked|].pid == pid
      ensures who == if m != "" && o != "" then Some((m, o)) else Unnamed(At(s0, asked, |asked|).store, pi, found)
      ensures (m == "" || o == "") && who.Some? ==> Matches(c, store, who.value.0, who.value.1)
    {
      Others(pid);
      asked := run;
      who := if o != "" && m != "" then Some((m, o)) else Unnamed(store, pi, found);
      Do(pid, Quiet, if who.Some? then HookWrite(who.value.0, who.value.1, Refunded, pi) else HookDone);
      MadeAfter(old(run), asked, pid, [Quiet]);
    }

    /** The guarded part of every webhook write; `hit` says that a row matched it. */
    method UpdateStatus(pid: Pid, m: string, o: string, status: Status, pi: string, reply: WriteReply)
      returns (ok: bool, ghost hit: bool)
      requires Valid() && Here(pid, HookWrite(m, o, status, pi))
      modifies this
      ensures Valid() && Made(old(run), pid, [WriteEntry(c, pid, m, o, status, pi, hit, reply)])
      ensures Here(pid, if ok && status != Failed then HookRead(m, o, status, pi) else HookDone)
      ensures ok <==> hit && reply == Works
      ensures hit ==> Matches(c, store, m, o)
      ensures ValidOrderId(o) && Matches(c, old(store), m, o) ==> hit
    {
      var valid, badAt := ValidateOrderId(o);
      Others(pid);
      if Matches(c, old(store), m, o) {
        StillMatches(old(run), m, o);
      }
      ghost var before := run;
      if !valid || !Matches(c, store, m, o) {
        Do(pid, Quiet, HookDone);
        MadeAfter(old(run), before, pid, [Quiet]);
        return false, false;
      }
      var e := StatusWritten(TxnIdOf(c, m, o), status, ByWebhook(pid, pi));
      Attempt(pid, e, reply, if status == Failed then HookDone else HookRead(m, o, status, pi), HookDone);
      MadeAfter(old(run), before, pid, [Effect(reply, e)]);
      ok, hit := reply == Works, true;
    }

    /** Write the status, read the row back, publish what was read. */
    method WriteAndPublish(pid: Pid, m: string, o: string, status: Status, pi: string, r: HookReplies)
      returns (ok: bool, ghost hit: bool, ghost x: Option<Transaction>)
      requires Valid() && Here(pid, HookWrite(m, o, status, pi)) && status != Failed
      modifies this
      ensures Valid() && Here(pid, HookDone)
      ensures Made(old(run), pid, PublishTrace(c, pid, m, o, status, pi, hit, x, r))
      ensures (ok <==> hit && WritesWell(r)) && (x.Some? <==> hit && r.write == Works && r.read)
      ensures x.Some? ==> x.value.merchant == m && x.value.order == o
      ensures ValidOrderId(o) && Matches(c, old(store), m, o) ==> hit
    {
      x := None;
      ok, hit := UpdateStatus(pid, m, o, status, pi, r.write);
      if ok {
        ghost var before := run;
        ok, x := ReadAndPublish(pid, m, o, status, pi, r);
        MadeMore(old(run), before, pid, [WriteEntry(c, pid, m, o, status, pi, hit, r.write)],
                 ReadTrace(c, pid, status, pi, x, r.publish));
      }
    }

    method ReadAndPublish(pid: Pid, m: string, o: string, status: Status, pi: string, r: HookReplies)
      returns (ok: bool, ghost x: Option<Transaction>)
      requires Valid() && Here(pid, HookRead(m, o, status, pi)) && Matches(c, store, m, o)
      modifies this
      ensures Valid() && Here(pid, HookDone)
      ensures Made(old(run), pid, ReadTrace(c, pid, status, pi, x, r.publish))
      ensures (ok <==> r.read && r.publish == Works) && (x.Some? <==> r.read)
      ensures x.Some? ==> x.value.merchant == m && x.value.order == o
    {
      var row := ReadBack(pid, m, o, status, pi, r.read);
      x, ok := row, false;
      if row.Some? {
        ghost var before := run;
        Publish(pid, row.value, status, pi, r.publish);
        MadeMore(old(run), before, pid, [Quiet],
                 [Effect(r.publish, HookEvent(c, row.value, status, ByWebhook(pid, pi)))]);
        ok := r.publish == Works;
      }
    }

    method ReadBack(pid: Pid, m: string, o: string, status: Status, pi: string, answered: bool)
      returns (x: Option<Transaction>)
      requires Valid() && Here(pid, HookRead(m, o, status, pi)) && Matches(c, store, m, o)
      modifies this
      ensures Valid() && Made(old(run), pid, [Quiet])
      ensures Here(pid, if x.Some? then HookPublish(x.value, status, pi) else HookDone)
      ensures (x.Some? <==> answered) && (x.Some? ==> x.value.merchant == m && x.value.order == o)
    {
      Others(pid);
      StillMatches(old(run), m, o);
      ghost var before := run;
      x := if answered then Some(store.rows[TxnIdOf(c, m, o)]) else None;
      Do(pid, Quiet, if x.Some? then HookPublish(x.value, status, pi) else HookDone);
      MadeAfter(old(run), before, pid, [Quiet]);
    }

    method Publish(pid: Pid, x: Transaction, status: Status, pi: string, reply: WriteReply)
      requires Valid() && Here(pid, HookPublish(x, status, pi))
      modifies this
      ensures Valid() && Here(pid, HookDone)
      ensures Made(old(run), pid, [Effect(reply, HookEvent(c, x, status, ByWebhook(pid, pi)))])
    {
      Others(pid);
      ghost var before := run;
      var e := HookEvent(c, x, status, ByWebhook(pid, pi));
      Attempt(pid, e, reply, HookDone, HookDone);
      MadeAfter(old(run), before, pid, [Effect(reply, e)]);
    }

    // --- creation ------------------------------------------------------------

    /** Validate, insert, and either answer from the row that was there first or go on to
        the chosen flow. */
    method Create(pid: Pid, r: Request, createdAt: int, replies: CreateReplies)
      returns (reply: Reply, ghost won: bool)
      requires Valid() && Here(pid, CreateInsert(r))
      modifies this
      ensures Valid() && Here(pid, CreateDone(r, reply))
      ensures Made(old(run), pid, CreateTrace(c, pid, r, createdAt, replies, won))
      ensures Collisionless(c) && !reply.Rejected? ==> ReplyAgrees(c, store.rows, r, reply)
      ensures won ==> TxnIdOf(c, r.merchant, r.order) !in old(store).rows
      ensures reply.Accepted? <==> Acceptable(c, r) && won && WinnerIsAccepted(c, r, replies)
      ensures reply.Replayed? || reply.Conflict? <==>
                Acceptable(c, r) && !won && replies.insert == Works && replies.lookup && !TakenByOther(r)
    {
      reply, won := InsertOrAnswer(pid, r, createdAt, replies);
      if Collisionless(c) && !reply.Rejected? {
        RepliesAgree(c, s0, run, |run|, pid);
      }
    }

    /** Another merchant's order has the request's transaction id. */
    ghost predicate TakenByOther(r: Request)
      reads this
    {
      var id := TxnIdOf(c, r.merchant, r.order);
      id in store.rows && store.rows[id].merchant != r.merchant
    }

    method InsertOrAnswer(pid: Pid, r: Request, createdAt: int, replies: CreateReplies)
      returns (reply: Reply, ghost won: bool)
      requires Valid() && Here(pid, CreateInsert(r))
      modifies this
      ensures Valid() && Here(pid, CreateDone(r, reply))
      ensures Made(old(run), pid, CreateTrace(c, pid, r, createdAt, replies, won))
      ensures won ==> TxnIdOf(c, r.merchant, r.order) !in old(store).rows
      ensures reply.Accepted? <==> Acceptable(c, r) && won && WinnerIsAccepted(c, r, replies)
      ensures reply.Replayed? || reply.Conflict? <==>
                Acceptable(c, r) && !won && replies.insert == Works && replies.lookup && !TakenByOther(r)
    {
      var ok, badAt := ValidateOrderId(r.order);
      if !ok || r.amount <= 0 || !Insertable(c, r) {
        Do(pid, Quiet, CreateDone(r, Rejected));
        return Rejected, false;
      }
      reply, won := Insert(pid, r, createdAt, replies);
    }

    method Insert(pid: Pid, r: Request, createdAt: int, replies: CreateReplies)
      returns (reply: Reply, ghost won: bool)
      requires Valid() && Here(pid, CreateInsert(r)) && Acceptable(c, r)
      modifies this
      ensures Valid() && Here(pid, CreateDone(r, reply))
      ensures Made(old(run), pid, CreateTrace(c, pid, r, createdAt, replies, won))
      ensures won ==> TxnIdOf(c, r.merchant, r.order) !in old(store).rows
      ensures reply.Accepted? <==> won && WinnerIsAccepted(c, r, replies)
      ensures reply.Replayed? || reply.Conflict? <==>
                !won && replies.insert == Works && replies.lookup && !TakenByOther(r)
    {
      Others(pid);
      StillThere(old(run));
      ghost var before := run;
      if TxnIdOf(c, r.merchant, r.order) in store.rows {
        won := false;
        reply := Duplicate(pid, r, replies);
      } else {
        won := true;
        reply := InsertAndProceed(pid, r, createdAt, replies);
      }
      MadeAfter(old(run), before, pid, CreateTrace(c, pid, r, createdAt, replies, won));
    }

    /** The insert meets a row: the database reports the duplicate, or fails to. */
    method Duplicate(pid: Pid, r: Request, replies: CreateReplies) returns (reply: Reply)
      requires Valid() && Here(pid, CreateInsert(r)) && Acceptable(c, r)
      requires TxnIdOf(c, r.merchant, r.order) in store.rows
      modifies this
      ensures Valid() && Here(pid, CreateDone(r, reply)) && !reply.Accepted?
      ensures Made(old(run), pid, if replies.insert == Works then [Quiet] + [Quiet] else [Quiet])
      ensures reply.Rejected? <==> replies.insert != Works || !replies.lookup || TakenByOther(r)
    {
      if replies.insert != Works {
        Do(pid, Quiet, CreateDone(r, Rejected));
        return Rejected;
      }
      Do(pid, Quiet, CreateLookup(r));
      ghost var before := run;
      StillThere(old(run));
      reply := AnswerRetry(pid, r, replies.lookup);
      MadeMore(old(run), before, pid, [Quiet], [Quiet]);
    }

    /** The lookup by merchant and transaction id. */
    method AnswerRetry(pid: Pid, r: Request, answered: bool) returns (reply: Reply)
      requires Valid() && Here(pid, CreateLookup(r)) && TxnIdOf(c, r.merchant, r.order) in store.rows
      modifies this
      ensures Valid() && Here(pid, CreateDone(r, reply)) && Made(old(run), pid, [Quiet])
      ensures !reply.Accepted? && (reply.Rejected? <==> !answered || TakenByOther(r))
    {
      var id := TxnIdOf(c, r.merchant, r.order);
      Others(pid);
      StillThere(old(run));
      ghost var before := run;
      reply := if answered && store.rows[id].merchant == r.merchant then LookupReply(c, r, store.rows[id])
               else Rejected;
      Do(pid, Quiet, CreateDone(r, reply));
      MadeAfter(old(run), before, pid, [Quiet]);
    }

    /** The winner's path. */
    method InsertAndProceed(pid: Pid, r: Request, createdAt: int, replies: CreateReplies) returns (reply: Reply)
      requires Valid() && Here(pid, CreateInsert(r)) && TxnIdOf(c, r.merchant, r.order) !in store.rows
      requires Acceptable(c, r)
      modifies this
      ensures Valid() && Here(pid, CreateDone(r, reply)) && (reply.Accepted? || reply.Rejected?)
      ensures Made(old(run), pid, WinnerTrace(c, pid, r, createdAt, replies))
      ensures reply.Accepted? <==> WinnerIsAccepted(c, r, replies)
    {
      var id := TxnIdOf(c, r.merchant, r.order);
      var e := Inserted(id, NewRow(c, r, createdAt), pid);
      Attempt(pid, e, replies.insert, AfterInsert(c, r), CreateDone(r, Rejected));
      if replies.insert != Works {
        return Rejected;
      }
      if EqualFold(r.flow, "crypto") || c.lazyCheckout {
        return Accepted(id);
      }
      ghost var before := run;
      reply := OpenSession(pid, r, replies);
      MadeMore(old(run), before, pid, [e], SessionTrace(c, pid, r, replies));
    }

    /** The eager flow: a Stripe session, then its ids onto the row. */
    method OpenSession(pid: Pid, r: Request, replies: CreateReplies) returns (reply: Reply)
      requires Valid() && Here(pid, CreateSession(r)) && TxnIdOf(c, r.merchant, r.order) in store.rows
      modifies this
      ensures Valid() && Here(pid, CreateDone(r, reply)) && (reply.Accepted? || reply.Rejected?)
      ensures Made(old(run), pid, SessionTrace(c, pid, r, replies))
      ensures reply.Accepted? <==> replies.session.Some? && replies.persist == Works
    {
      var id := TxnIdOf(c, r.merchant, r.order);
      if replies.session.None? {
        Call(pid, SessionCalled(id, pid), CreateDone(r, Rejected));
        return Rejected;
      }
      var (session, pi) := replies.session.value;
      Call(pid, SessionCalled(id, pid), CreatePersist(r, session, pi));
      ghost var before := run;
      StillThere(old(run));
      PersistSession(pid, r, session, pi, replies.persist);
      MadeMore(old(run), before, pid, [SessionCalled(id, pid)],
               [Effect(replies.persist, CheckoutWritten(id, session, pi))]);
      reply := if replies.persist == Works then Accepted(id) else Rejected;
    }

    method PersistSession(pid: Pid, r: Request, session: string, pi: string, reply: WriteReply)
      requires Valid() && Here(pid, CreatePersist(r, session, pi)) && TxnIdOf(c, r.merchant, r.order) in store.rows
      modifies this
      ensures Valid()
      ensures Made(old(run), pid, [Effect(reply, CheckoutWritten(TxnIdOf(c, r.merchant, r.order), session, pi))])
      ensures Here(pid, CreateDone(r, if reply == Works then Accepted(TxnIdOf(c, r.merchant, r.order)) else Rejected))
    {
      var id := TxnIdOf(c, r.merchant, r.order);
      Others(pid);
      StillThere(old(run));
      ghost var before := run;
      Attempt(pid, CheckoutWritten(id, session, pi), reply, CreateDone(r, Accepted(id)), CreateDone(r, Rejected));
      MadeAfter(old(run), before, pid, [Effect(reply, CheckoutWritten(id, session, pi))]);
    }
  }

  /** The lookup by order id may return this row. */
  predicate Hits(st: Store, p: ChainItem, id: TxnId) { id in st.rows && st.rows[id].order == p.row.order }

  ghost predicate AllListed(st: Store, page: seq<ChainItem>) {
    forall p | p in page :: p.hash in st.chain
  }

  /** The traces of the first `n` transfers of a page. */
  function TransferTraces(c: Config, pid: Pid, page: seq<ChainItem>, latest: nat, replies: nat -> TransferReplies,
                          found: seq<Option<Transaction>>, n: nat)
    : seq<seq<Entry>>
    requires n <= |page| && n <= |found|
  {
    if n == 0 then []
    else TransferTraces(c, pid, page, latest, replies, found, n - 1)
         + [TransferTrace(c, pid, page[n - 1], latest, replies(n - 1), found[n - 1])]
  }

  /** The listing, the transfers in page order, the end of the tick. */
  function PageTrace(c: Config, pid: Pid, page: seq<ChainItem>, latest: nat, replies: nat -> TransferReplies,
                     found: seq<Option<Transaction>>)
    : seq<Entry>
    requires |found| == |page|
  {
    [Quiet] + (Pages(TransferTraces(c, pid, page, latest, replies, found, |page|)) + [Quiet])
  }

  lemma TracesAdd(c: Config, pid: Pid, page: seq<ChainItem>, latest: nat, replies: nat -> TransferReplies,
                  found: seq<Option<Transaction>>, x: Option<Transaction>)
    requires |found| < |page|
    ensures var n := |found|;
            Pages(TransferTraces(c, pid, page, latest, replies, found + [x], n + 1))
            == Pages(TransferTraces(c, pid, page, latest, replies, found, n))
               + TransferTrace(c, pid, page[n], latest, replies(n), x)
  {
    TracesSame(c, pid, page, latest, replies, found, found + [x], |found|);
    PagesAdd(TransferTraces(c, pid, page, latest, replies, found, |found|),
             TransferTrace(c, pid, page[|found|], latest, replies(|found|), x));
  }

  lemma {:induction false} TracesSame(c: Config, pid: Pid, page: seq<ChainItem>, latest: nat,
                                      replies: nat -> TransferReplies, a: seq<Option<Transaction>>,
                                      b: seq<Option<Transaction>>, n: nat)
    requires n <= |page| && n <= |a| && a <= b
    ensures TransferTraces(c, pid, page, latest, replies, a, n) == TransferTraces(c, pid, page, latest, replies, b, n)
  {
    if n > 0 {
      TracesSame(c, pid, page, latest, replies, a, b, n - 1);
    }
  }

  ghost predicate AllMatch(c: Config, st: Store, page: seq<Transaction>) {
    forall x | x in page :: Matches(c, st, x.merchant, x.order)
  }

  /** The traces of the first `n` rows of a page. */
  function StuckTraces(c: Config, pid: Pid, page: seq<Transaction>, replies: nat -> StuckReplies,
                       n: nat): seq<seq<Entry>>
    requires n <= |page|
  {
    if n == 0 then [] else StuckTraces(c, pid, page, replies, n - 1) + [StuckTrace(c, pid, page[n - 1], replies(n - 1))]
  }

  lemma StuckAdd(c: Config, pid: Pid, page: seq<Transaction>, replies: nat -> StuckReplies, n: nat)
    requires n < |page|
    ensures Pages(StuckTraces(c, pid, page, replies, n + 1))
            == Pages(StuckTraces(c, pid, page, replies, n)) + StuckTrace(c, pid, page[n], replies(n))
  {
    PagesAdd(StuckTraces(c, pid, page, replies, n), StuckTrace(c, pid, page[n], replies(n)));
  }

  function RecheckTraces(pid: Pid, page: seq<ChainItem>, receipts: nat -> Receipt, marks: nat -> WriteReply, n: nat)
    : seq<seq<Entry>>
    requires n <= |page|
  {
    if n == 0 then []
    else
      RecheckTraces(pid, page, receipts, marks, n - 1)
      + [RecheckTrace(pid, page[n - 1], receipts(n - 1), marks(n - 1))]
  }

  lemma RecheckAdd(pid: Pid, page: seq<ChainItem>, receipts: nat -> Receipt, marks: nat -> WriteReply, n: nat)
    requires n < |page|
    ensures Pages(RecheckTraces(pid, page, receipts, marks, n + 1))
            == Pages(RecheckTraces(pid, page, receipts, marks, n)) + RecheckTrace(pid, page[n], receipts(n), marks(n))
  {
    PagesAdd(RecheckTraces(pid, page, receipts, marks, n), RecheckTrace(pid, page[n], receipts(n), marks(n)));
  }
}
