/** Runs that show where the code does less than one might expect. */
module PaymentWitness {
  import opened Domain
  import opened PaymentModel
  import opened PaymentSafety
  import opened PaymentChain
  import Codec

  ghost predicate Reaches(c: Config, s0: State, run: seq<Move>, s: State) {
    IsRun(c, s0, run) && At(s0, run, |run|) == s
  }

  /** `run'` goes on from `run` by moves of `pid` alone. */
  ghost predicate GoesOn(run: seq<Move>, run': seq<Move>, pid: Pid) {
    run <= run' && forall k | |run| <= k < |run'| :: run'[k].pid == pid
  }

  lemma Step(c: Config, s0: State, run: seq<Move>, s: State, pid: Pid, e: Entry, next: Local)
    returns (run': seq<Move>, s': State)
    requires Reaches(c, s0, run, s) && pid in s.procs && Act(c, s.store, pid, s.procs[pid], e, next)
    ensures Reaches(c, s0, run', s') && s' == State(Apply(s.store, e), s.log + [e], s.procs[pid := next])
    ensures GoesOn(run, run', pid)
  {
    RunGrows(c, s0, run, Move(pid, e, next));
    run', s' := run + [Move(pid, e, next)], After(s, Move(pid, e, next));
  }

  // --- one tick that pays one order ------------------------------------------

  /** The transfer pays the order, and the order is not final yet. */
  ghost predicate Payable(c: Config, st: Store, item: ChainItem, x: Transaction) {
    && item.hash in st.chain && st.chain[item.hash] == item.row && item.row.status == ChainPending
    && Matches(c, st, x.merchant, x.order) && st.rows[IdOf(c, x)] == x
    && x.order == item.row.order && !IsFinal(x.status) && Codec.WrapInt64(item.row.amount) == x.amount
  }

  function Head(item: ChainItem): nat { item.row.block + item.row.required }

  function Confirm(item: ChainItem): ChainRow {
    item.row.(status := Confirmed, confirmations := item.row.required)
  }

  function TrackerOrigin(pid: Pid, item: ChainItem): Origin { ByTracker(pid, item, item.row.required) }

  function PaidEvent(x: Transaction): Event { Event(x.merchant, x.order, Paid, "", x.amount, x.currency) }

  /** What the tick leaves in the log. */
  function Trail(c: Config, pid: Pid, item: ChainItem, x: Transaction): seq<Entry> {
    [HeadRead(Head(item)), Quiet, ReceiptRead(item.hash, Good), Quiet,
     ChainMarked(item.hash, Confirmed, item.row.required, pid),
     StatusWritten(IdOf(c, x), Paid, TrackerOrigin(pid, item)),
     Published(IdOf(c, x), PaidEvent(x), TrackerOrigin(pid, item)), Quiet]
  }

  lemma TickFinds(c: Config, s0: State, run: seq<Move>, s: State, pid: Pid, item: ChainItem, x: Transaction)
    returns (run': seq<Move>, s': State)
    requires Reaches(c, s0, run, s) && Payable(c, s.store, item, x)
    requires pid in s.procs && s.procs[pid] == TrkOrder(Head(item), [], item)
    ensures GoesOn(run, run', pid)
    ensures Reaches(c, s0, run', s') && s'.store == s.store && s'.log == s.log + [Quiet]
    ensures s'.procs == s.procs[pid := TrkMark(Head(item), [], item, Confirmed, item.row.required, Some(x))]
  {
    assert IdOf(c, x) in s.store.rows && s.store.rows[IdOf(c, x)].order == item.row.order;
    run', s' := Step(c, s0, run, s, pid, Quiet, AfterOrder(Head(item), [], item, x));
  }

  lemma TickLists(c: Config, s0: State, run: seq<Move>, s: State, pid: Pid, item: ChainItem, x: Transaction)
    returns (run': seq<Move>, s': State)
    requires Reaches(c, s0, run, s) && pid in s.procs && s.procs[pid] == TrkIdle && Payable(c, s.store, item, x)
    ensures GoesOn(run, run', pid)
    ensures Reaches(c, s0, run', s') && s'.store == s.store && s'.log == s.log + [HeadRead(Head(item)), Quiet]
    ensures s'.procs == s.procs[pid := TrkLoop(Head(item), [item])]
  {
    var run1, s1 := Step(c, s0, run, s, pid, HeadRead(Head(item)), TrkList(Head(item)));
    run', s' := Step(c, s0, run1, s1, pid, Quiet, TrkLoop(Head(item), [item]));
  }

  lemma TickReads(c: Config, s0: State, run: seq<Move>, s: State, pid: Pid, item: ChainItem)
    returns (run': seq<Move>, s': State)
    requires Reaches(c, s0, run, s) && pid in s.procs && s.procs[pid] == TrkLoop(Head(item), [item])
    ensures GoesOn(run, run', pid)
    ensures Reaches(c, s0, run', s') && s'.store == s.store && s'.log == s.log + [ReceiptRead(item.hash, Good)]
    ensures s'.procs == s.procs[pid := TrkOrder(Head(item), [], item)]
  {
    assert [item][1..] == [];
    run', s' := Step(c, s0, run, s, pid, ReceiptRead(item.hash, Good), TrkOrder(Head(item), [], item));
  }

  /** The first half of a tick: head, listing, receipt, order. */
  lemma TickDecides(c: Config, s0: State, run: seq<Move>, s: State, pid: Pid, item: ChainItem, x: Transaction)
    returns (run': seq<Move>, s': State)
    requires Reaches(c, s0, run, s) && pid in s.procs && s.procs[pid] == TrkIdle && Payable(c, s.store, item, x)
    ensures GoesOn(run, run', pid)
    ensures Reaches(c, s0, run', s') && s'.store == s.store
            && s'.log == s.log + [HeadRead(Head(item)), Quiet, ReceiptRead(item.hash, Good), Quiet]
    ensures s'.procs == s.procs[pid := TrkMark(Head(item), [], item, Confirmed, item.row.required, Some(x))]
  {
    var run1, s1 := TickLists(c, s0, run, s, pid, item, x);
    var run2, s2 := TickReads(c, s0, run1, s1, pid, item);
    run', s' := TickFinds(c, s0, run2, s2, pid, item, x);
  }

  lemma TickMarks(c: Config, s0: State, run: seq<Move>, s: State, pid: Pid, item: ChainItem, x: Transaction)
    returns (run': seq<Move>, s': State)
    requires Reaches(c, s0, run, s) && Payable(c, s.store, item, x)
    requires pid in s.procs && s.procs[pid] == TrkMark(Head(item), [], item, Confirmed, item.row.required, Some(x))
    ensures GoesOn(run, run', pid)
    ensures Reaches(c, s0, run', s') && s'.log == s.log + [ChainMarked(item.hash, Confirmed, item.row.required, pid)]
    ensures s'.procs == s.procs[pid := TrkPay(Head(item), [], item, item.row.required, x)]
    ensures s'.store == Store(s.store.rows, s.store.chain[item.hash := Confirm(item)])
  {
    run', s' := Step(c, s0, run, s, pid, ChainMarked(item.hash, Confirmed, item.row.required, pid),
                     TrkPay(Head(item), [], item, item.row.required, x));
  }

  lemma TickPays(c: Config, s0: State, run: seq<Move>, s: State, pid: Pid, item: ChainItem, x: Transaction)
    returns (run': seq<Move>, s': State)
    requires Reaches(c, s0, run, s) && Matches(c, s.store, x.merchant, x.order) && s.store.rows[IdOf(c, x)] == x
    requires pid in s.procs && s.procs[pid] == TrkPay(Head(item), [], item, item.row.required, x)
    ensures GoesOn(run, run', pid)
    ensures Reaches(c, s0, run', s') && s'.log == s.log + [StatusWritten(IdOf(c, x), Paid, TrackerOrigin(pid, item))]
    ensures s'.procs == s.procs[pid := TrkPublish(Head(item), [], item, item.row.required, x)]
    ensures s'.store == Store(s.store.rows[IdOf(c, x) := WithStatus(x, Paid, "")], s.store.chain)
  {
    run', s' := Step(c, s0, run, s, pid, StatusWritten(IdOf(c, x), Paid, TrackerOrigin(pid, item)),
                     TrkPublish(Head(item), [], item, item.row.required, x));
  }

  lemma TickEnds(c: Config, s0: State, run: seq<Move>, s: State, pid: Pid, item: ChainItem, x: Transaction)
    returns (run': seq<Move>, s': State)
    requires Reaches(c, s0, run, s)
    requires pid in s.procs && s.procs[pid] == TrkPublish(Head(item), [], item, item.row.required, x)
    ensures GoesOn(run, run', pid)
    ensures Reaches(c, s0, run', s') && s'.store == s.store
    ensures s'.log == s.log + [Published(IdOf(c, x), PaidEvent(x), TrackerOrigin(pid, item)), Quiet]
    ensures s'.procs == s.procs[pid := TrkIdle]
  {
    var run1, s1 := Step(c, s0, run, s, pid, Published(IdOf(c, x), PaidEvent(x), TrackerOrigin(pid, item)),
                         TrkLoop(Head(item), []));
    run', s' := Step(c, s0, run1, s1, pid, Quiet, TrkIdle);
  }

  /** The second half: mark, pay, publish. */
  lemma TickSettles(c: Config, s0: State, run: seq<Move>, s: State, pid: Pid, item: ChainItem, x: Transaction)
    returns (run': seq<Move>, s': State)
    requires Reaches(c, s0, run, s) && Payable(c, s.store, item, x)
    requires pid in s.procs && s.procs[pid] == TrkMark(Head(item), [], item, Confirmed, item.row.required, Some(x))
    ensures GoesOn(run, run', pid)
    ensures Reaches(c, s0, run', s') && s'.log == s.log + Trail(c, pid, item, x)[4..]
            && s'.procs == s.procs[pid := TrkIdle]
    ensures s'.store == Store(s.store.rows[IdOf(c, x) := WithStatus(x, Paid, "")],
                              s.store.chain[item.hash := Confirm(item)])
  {
    var run1, s1 := TickMarks(c, s0, run, s, pid, item, x);
    var run2, s2 := TickPays(c, s0, run1, s1, pid, item, x);
    run', s' := TickEnds(c, s0, run2, s2, pid, item, x);
  }

  /** A whole tick over one payable transfer. */
  lemma TickPublishes(c: Config, s0: State, run: seq<Move>, s: State, pid: Pid, item: ChainItem, x: Transaction)
    returns (run': seq<Move>, s': State)
    requires Reaches(c, s0, run, s) && pid in s.procs && s.procs[pid] == TrkIdle && Payable(c, s.store, item, x)
    ensures GoesOn(run, run', pid)
    ensures Reaches(c, s0, run', s') && s'.log == s.log + Trail(c, pid, item, x) && s'.procs == s.procs
    ensures s'.store == Store(s.store.rows[IdOf(c, x) := WithStatus(x, Paid, "")],
                              s.store.chain[item.hash := Confirm(item)])
  {
    var run1, s1 := TickDecides(c, s0, run, s, pid, item, x);
    run', s' := TickSettles(c, s0, run1, s1, pid, item, x);
    assert Trail(c, pid, item, x)
        == [HeadRead(Head(item)), Quiet, ReceiptRead(item.hash, Good), Quiet] + Trail(c, pid, item, x)[4..];
  }

  // --- a tracker that publishes twice ----------------------------------------

  const SETTINGS := Config((x: string) => x, true, "USD")

  const REQUEST := Request("M1", 0, "ORD-1", 100, "USD", "crypto", [])

  const TRANSFER := ChainRow(7, "ORD-1", 100, 12, 0, ChainPending)

  function Starting(): State {
    State(Store(map[], map[]), [],
          map[0 := CreateInsert(REQUEST), 1 := Listener, 2 := CheckoutPersist, 3 := RecIdle, 4 := TrkIdle])
  }

  function CreatedRow(): Transaction { NewRow(SETTINGS, REQUEST, 0) }

  function WithIntent(): Transaction { WithCheckout(CreatedRow(), "cs_1", "pi_1") }

  lemma RequestIsGood()
    ensures ValidOrderId(REQUEST.order) && Insertable(SETTINGS, REQUEST) && EqualFold(REQUEST.flow, "crypto")
    ensures TxnIdOf(SETTINGS, "M1", "ORD-1") == "M1:ORD-1"
    ensures CreatedRow().amount == 100 && CreatedRow().pi == "" && CreatedRow().session == ""
            && CreatedRow().status == Created
    ensures CreatedRow().merchant == "M1" && CreatedRow().order == "ORD-1"
  {
    assert "M1" + ":" + "ORD-1" == "M1:ORD-1";
    assert ToUpper("USD") == "USD";
    assert ToUpper(ToUpper("USD")) == "USD";
    assert Codec.Currencies()[0].0 == "USD";
  }

  lemma OrderIsCreated() returns (run: seq<Move>, s: State)
    ensures Reaches(SETTINGS, Starting(), run, s)
    ensures s.store == Store(map["M1:ORD-1" := CreatedRow()], map[])
    ensures s.procs == Starting().procs[0 := CreateDone(REQUEST, Accepted("M1:ORD-1"))]
    ensures s.log == [Inserted("M1:ORD-1", CreatedRow(), 0)]
  {
    RequestIsGood();
    run, s := Step(SETTINGS, Starting(), [], Starting(), 0, Inserted("M1:ORD-1", CreatedRow(), 0),
                   CreateDone(REQUEST, Accepted("M1:ORD-1")));
  }

  lemma TransferArrives(run: seq<Move>, s: State, hash: string) returns (run': seq<Move>, s': State)
    requires Reaches(SETTINGS, Starting(), run, s) && hash !in s.store.chain && NoWebhook(s.log)
    requires 1 in s.procs && s.procs[1] == Listener
    ensures Reaches(SETTINGS, Starting(), run', s') && s'.store == Store(s.store.rows, s.store.chain[hash := TRANSFER])
    ensures s'.procs == s.procs && |s'.log| == |s.log| + 1 && NoWebhook(s'.log)
  {
    run', s' := Step(SETTINGS, Starting(), run, s, 1, ChainInserted(hash, TRANSFER), Listener);
  }

  lemma CheckoutVisited(run: seq<Move>, s: State) returns (run': seq<Move>, s': State)
    requires Reaches(SETTINGS, Starting(), run, s) && NoWebhook(s.log)
    requires s.store.rows == map["M1:ORD-1" := CreatedRow()] && 2 in s.procs && s.procs[2] == CheckoutPersist
    ensures Reaches(SETTINGS, Starting(), run', s') && s'.procs == s.procs
    ensures s'.store == Store(map["M1:ORD-1" := WithIntent()], s.store.chain)
    ensures |s'.log| == |s.log| + 1 && NoWebhook(s'.log)
  {
    run', s' := Step(SETTINGS, Starting(), run, s, 2, CheckoutWritten("M1:ORD-1", "cs_1", "pi_1"), CheckoutPersist);
  }

  /** Two transfers pay the order, and a visit to the checkout page gives it a payment
      intent. */
  lemma OrderIsSetUp() returns (run: seq<Move>, s: State)
    ensures Reaches(SETTINGS, Starting(), run, s)
    ensures s.store == Store(map["M1:ORD-1" := WithIntent()], map["0xA" := TRANSFER, "0xB" := TRANSFER])
    ensures s.procs == Starting().procs[0 := CreateDone(REQUEST, Accepted("M1:ORD-1"))]
    ensures |s.log| == 4 && NoWebhook(s.log)
  {
    var run1, s1 := OrderIsCreated();
    var run2, s2 := TransferArrives(run1, s1, "0xA");
    var run3, s3 := TransferArrives(run2, s2, "0xB");
    run, s := CheckoutVisited(run3, s3);
  }

  lemma ReconcilerReads(run: seq<Move>, s: State, x: Transaction) returns (run': seq<Move>, s': State)
    requires Reaches(SETTINGS, Starting(), run, s) && NoWebhook(s.log)
    requires x.pi != "" && 3 in s.procs && s.procs[3] == RecLoop([x])
    ensures Reaches(SETTINGS, Starting(), run', s') && s'.store == s.store
    ensures s'.procs == s.procs[3 := RecWrite([], x, Failed, "pi_1")]
    ensures |s'.log| == |s.log| + 1 && NoWebhook(s'.log)
  {
    assert [x][1..] == [];
    run', s' := Step(SETTINGS, Starting(), run, s, 3, IntentRead("pi_1", IntentClosed),
                     RecWrite([], x, Failed, "pi_1"));
  }

  lemma ReconcilerLists() returns (run: seq<Move>, s: State)
    ensures Reaches(SETTINGS, Starting(), run, s)
    ensures s.store == Store(map["M1:ORD-1" := WithIntent()], map["0xA" := TRANSFER, "0xB" := TRANSFER])
    ensures 4 in s.procs && s.procs[4] == TrkIdle && 3 in s.procs && s.procs[3] == RecLoop([WithIntent()])
    ensures |s.log| == 5 && NoWebhook(s.log)
  {
    RequestIsGood();
    var run1, s1 := OrderIsSetUp();
    run, s := Step(SETTINGS, Starting(), run1, s1, 3, Quiet, RecLoop([WithIntent()]));
  }

  /** The reconciler lists the order while it is stuck and hears that its intent was
      canceled, but has not written anything yet. */
  lemma ReconcilerIsLate() returns (run: seq<Move>, s: State)
    ensures Reaches(SETTINGS, Starting(), run, s)
    ensures s.store == Store(map["M1:ORD-1" := WithIntent()], map["0xA" := TRANSFER, "0xB" := TRANSFER])
    ensures 4 in s.procs && s.procs[4] == TrkIdle
    ensures 3 in s.procs && s.procs[3] == RecWrite([], WithIntent(), Failed, "pi_1")
    ensures |s.log| == 6 && NoWebhook(s.log)
  {
    var run1, s1 := ReconcilerLists();
    run, s := ReconcilerReads(run1, s1, WithIntent());
  }

  ghost predicate NoWebhook(log: seq<Entry>) {
    forall e | e in log :: (e.StatusWritten? || e.Published? ==> !e.origin.ByWebhook?)
  }

  function FailedAgain(): Transaction { WithStatus(WithStatus(WithIntent(), Paid, ""), Failed, "pi_1") }

  lemma FirstTransferPays() returns (run: seq<Move>, s: State)
    ensures Reaches(SETTINGS, Starting(), run, s) && NoWebhook(s.log) && |s.log| == 14
    ensures TrackerPublished(s.log, 12, 4, "M1:ORD-1")
    ensures s.store.rows == map["M1:ORD-1" := WithStatus(WithIntent(), Paid, "")]
    ensures "0xB" in s.store.chain && s.store.chain["0xB"] == TRANSFER
    ensures 4 in s.procs && s.procs[4] == TrkIdle
    ensures 3 in s.procs && s.procs[3] == RecWrite([], WithIntent(), Failed, "pi_1")
  {
    RequestIsGood();
    var x, item := WithIntent(), ChainItem("0xA", TRANSFER);
    var run1, s1 := ReconcilerIsLate();
    assert Payable(SETTINGS, s1.store, item, x);
    run, s := TickPublishes(SETTINGS, Starting(), run1, s1, 4, item, x);
    TrailPublishes(s1.log, 4, item, x);
  }

  /** A tick's trail is its own: it publishes at its seventh entry and no webhook writes. */
  lemma TrailPublishes(log: seq<Entry>, pid: Pid, item: ChainItem, x: Transaction)
    requires NoWebhook(log)
    ensures var more := log + Trail(SETTINGS, pid, item, x);
            NoWebhook(more) && TrackerPublished(more, |log| + 6, pid, IdOf(SETTINGS, x))
  {
    var more := log + Trail(SETTINGS, pid, item, x);
    assert more[|log| + 6] == Trail(SETTINGS, pid, item, x)[6];
  }

  lemma ThenItIsMarkedFailed() returns (run: seq<Move>, s: State)
    ensures Reaches(SETTINGS, Starting(), run, s) && NoWebhook(s.log) && |s.log| == 15
    ensures TrackerPublished(s.log, 12, 4, "M1:ORD-1")
    ensures s.store.rows == map["M1:ORD-1" := FailedAgain()]
    ensures "0xB" in s.store.chain && s.store.chain["0xB"] == TRANSFER
    ensures 4 in s.procs && s.procs[4] == TrkIdle
  {
    RequestIsGood();
    var run1, s1 := FirstTransferPays();
    run, s := Step(SETTINGS, Starting(), run1, s1, 3, StatusWritten("M1:ORD-1", Failed, ByReconciler(3, "pi_1")),
                   RecLoop([]));
  }

  /** An order no webhook touches, published twice by one tracker: the first transfer pays
      it, the late reconciler marks it failed, the second transfer pays it again. */
  lemma TrackerCanPublishTwice() returns (run: seq<Move>, s: State)
    ensures Reaches(SETTINGS, Starting(), run, s) && NoWebhook(s.log)
    ensures TrackerPublished(s.log, 12, 4, "M1:ORD-1") && TrackerPublished(s.log, 21, 4, "M1:ORD-1")
  {
    RequestIsGood();
    var item := ChainItem("0xB", TRANSFER);
    var run1, s1 := ThenItIsMarkedFailed();
    assert Payable(SETTINGS, s1.store, item, FailedAgain());
    run, s := TickPublishes(SETTINGS, Starting(), run1, s1, 4, item, FailedAgain());
    TrailPublishes(s1.log, 4, item, FailedAgain());
  }
}
