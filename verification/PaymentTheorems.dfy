/** The promises of payment creation and of payment events, for every run. */
module PaymentTheorems {
  import opened Domain
  import opened PaymentModel
  import opened PaymentSafety
  import Codec

  // --- creation --------------------------------------------------------------

  /** At most one insert ever takes effect for a transaction id. */
  lemma OneInsertPerId(c: Config, s0: State, run: seq<Move>, n: nat, i: nat, j: nat)
    requires Collisionless(c) && IsRun(c, s0, run) && n <= |run|
    requires var log := At(s0, run, n).log;
             i < |log| && j < |log| && log[i].Inserted? && log[j].Inserted? && log[i].id == log[j].id
    ensures i == j
  {
    RunKeepsInv(c, s0, run, n);
    var log := At(s0, run, n).log;
    InsertsAreUnique(c, log);
  }

  lemma InsertsAreUnique(c: Config, log: seq<Entry>)
    requires AllJustified(c, log)
    ensures forall i, j | 0 <= i < j < |log| && log[i].Inserted? && log[j].Inserted? :: log[i].id != log[j].id
  {
    forall i, j | 0 <= i < j < |log| && log[i].Inserted? && log[j].Inserted? ensures log[i].id != log[j].id {
      assert Justified(c, log[..j], log[j]);
      assert log[..j][i] == log[i];
    }
  }

  /** Only the process whose insert took effect reaches Stripe, and only once. */
  lemma OnlyTheWinnerReachesStripe(c: Config, s0: State, run: seq<Move>, n: nat, j: nat)
    requires Collisionless(c) && IsRun(c, s0, run) && n <= |run|
    requires j < |At(s0, run, n).log| && At(s0, run, n).log[j].SessionCalled?
    ensures var log := At(s0, run, n).log;
            && (exists i :: 0 <= i < j && log[i].Inserted? && log[i].id == log[j].id && log[i].pid == log[j].pid)
            && (forall k | 0 <= k < |log| && log[k].SessionCalled? && log[k].id == log[j].id :: k == j)
  {
    RunKeepsInv(c, s0, run, n);
    var log := At(s0, run, n).log;
    InsertsAreUnique(c, log);
    SessionsAreUnique(c, log);
    var i := WinnerOf(c, log, j);
    forall k | 0 <= k < |log| && log[k].SessionCalled? && log[k].id == log[j].id ensures k == j {
      var i' := WinnerOf(c, log, k);
      assert i == i' && log[j] == log[k];
    }
  }

  lemma WinnerOf(c: Config, log: seq<Entry>, j: nat) returns (i: nat)
    requires AllJustified(c, log) && j < |log| && log[j].SessionCalled?
    ensures i < j && log[i].Inserted? && log[i].id == log[j].id && log[i].pid == log[j].pid
  {
    assert Justified(c, log[..j], log[j]);
    i :| 0 <= i < |log[..j]| && log[..j][i].Inserted? && log[..j][i].id == log[j].id && log[..j][i].pid == log[j].pid;
  }

  lemma SessionsAreUnique(c: Config, log: seq<Entry>)
    requires AllJustified(c, log)
    ensures forall i, j | 0 <= i < j < |log| && log[i].SessionCalled? :: log[i] != log[j]
  {
    forall i, j | 0 <= i < j < |log| && log[i].SessionCalled? ensures log[i] != log[j] {
      assert Justified(c, log[..j], log[j]);
      assert log[..j][i] == log[i];
    }
  }

  /** Whether a request differs from a stored row in a way the code calls material. */
  ghost predicate Differs(c: Config, row: Transaction, r: Request) {
    || row.amount != r.amount
    || row.currency != CurrencyOf(c, r)
    || Codec.IsCrypto(row.payMethod) != Codec.IsCrypto(PrimaryMethod(r))
  }

  function ReplyId(reply: Reply): TxnId
    requires !reply.Rejected?
  {
    match reply
    case Accepted(id) => id
    case Replayed(x) => x.id
    case Conflict(x) => x.id
  }

  /** A reply other than a rejection names the one stored row of that merchant and
      order. The winner's row holds the winner's data; a loser conflicts iff it differs. */
  ghost predicate ReplyAgrees(c: Config, rows: map<TxnId, Transaction>, r: Request, reply: Reply)
    requires !reply.Rejected?
  {
    var id := TxnIdOf(c, r.merchant, r.order);
    && ReplyId(reply) == id && id in rows
    && rows[id].merchant == r.merchant && rows[id].order == r.order
    && (reply.Accepted? ==>
          && rows[id].amount == r.amount && rows[id].currency == CurrencyOf(c, r)
          && rows[id].payMethod == Codec.StoredMethod(PrimaryMethod(r)))
    && (!reply.Accepted? ==> (reply.Conflict? <==> Differs(c, rows[id], r)))
  }

  lemma DoneReplyAgrees(c: Config, log: seq<Entry>, st: Store, p: Pid, r: Request, reply: Reply)
    requires StoreOk(c, log, st) && AllJustified(c, log) && !reply.Rejected?
    requires LocalOk(c, log, p, CreateDone(r, reply))
    ensures ReplyAgrees(c, st.rows, r, reply)
  {
    if reply.Accepted? {
      var i :| InsertedForAt(c, log, i, r, p);
      assert log[i].Inserted?;
    } else {
      var x := reply.existing;
      var i :| InsertedAt(log, i, x.id, x);
      assert log[i].Inserted? && SameOrder(log[i].row, st.rows[x.id]);
      InsertedCurrencyIsUpper(c, log, i);
      UpperFold(x.currency, CurrencyOf(c, r));
    }
  }

  lemma InsertedCurrencyIsUpper(c: Config, log: seq<Entry>, i: nat)
    requires AllJustified(c, log) && i < |log| && log[i].Inserted?
    ensures ToUpper(log[i].row.currency) == log[i].row.currency
  {
    assert Justified(c, log[..i], log[i]);
  }

  /** In every run, every process that finished a Create got a reply that agrees. */
  lemma RepliesAgree(c: Config, s0: State, run: seq<Move>, n: nat, p: Pid)
    requires Collisionless(c) && IsRun(c, s0, run) && n <= |run|
    requires var s := At(s0, run, n); p in s.procs && s.procs[p].CreateDone? && !s.procs[p].reply.Rejected?
    ensures var s := At(s0, run, n); ReplyAgrees(c, s.store.rows, s.procs[p].req, s.procs[p].reply)
  {
    RunKeepsInv(c, s0, run, n);
    var s := At(s0, run, n);
    DoneReplyAgrees(c, s.log, s.store, p, s.procs[p].req, s.procs[p].reply);
  }

  lemma UpperFold(s: string, t: string)
    requires ToUpper(s) == s && ToUpper(t) == t
    ensures EqualFold(s, t) <==> s == t
  {
    if EqualFold(s, t) {
      assert |ToLower(s)| == |ToLower(t)|;
      forall i | 0 <= i < |s| ensures s[i] == t[i] {
        assert ToLower(s)[i] == ToLower(t)[i];
        assert ToUpper(s)[i] == s[i] && ToUpper(t)[i] == t[i];
      }
    }
  }

  /** A retry of the very request that was stored conflicts exactly when its method's
      crypto bucket does not survive the method codec. Checkable before the call. */
  predicate BucketStable(r: Request) {
    var m := PrimaryMethod(r);
    Codec.IsCrypto(m) == (ToLower(m) == "crypto_eth")
  }

  lemma IdenticalRetry(c: Config, r: Request, stored: Transaction)
    requires SameOrder(NewRow(c, r, stored.createdAt), stored)
    ensures LookupReply(c, r, stored) == (if BucketStable(r) then Replayed(stored) else Conflict(stored))
    ensures EqualFold(r.flow, "crypto") || r.types == [] ==> BucketStable(r)
  {
    Codec.BucketSurvives(PrimaryMethod(r));
    if EqualFold(r.flow, "crypto") {
      assert "crypto" <= "crypto_eth" && ToLower("crypto_eth") == "crypto_eth";
    } else if r.types == [] {
      assert |"card"| < |"crypto"| && |ToLower("card")| == 4;
    }
  }

  /** So an identical retry is refused by the code for, say, a first method type of
      "crypto_btc": it is stored as "unknown" and read back in the other bucket. */
  lemma IdenticalRetryCanConflict(c: Config)
    ensures var r := Request("M1", 0, "ORD-1", 100, "USD", "", ["crypto_btc"]);
            LookupReply(c, r, NewRow(c, r, 0)) == Conflict(NewRow(c, r, 0))
  {
    var r := Request("M1", 0, "ORD-1", 100, "USD", "", ["crypto_btc"]);
    assert ToLower("")[..] == "" && |ToLower("crypto")| == 6;
    assert PrimaryMethod(r) == "crypto_btc";
    assert "crypto_btc"[..6] == "crypto";
    assert ToLower("crypto_btc")[7] == 'b' && "crypto_eth"[7] == 'e';
    assert SameOrder(NewRow(c, r, 0), NewRow(c, r, 0));
    IdenticalRetry(c, r, NewRow(c, r, 0));
  }

  // --- transaction ids -------------------------------------------------------

  /** Two different orders share a transaction id exactly when one merchant id
      continues the other across a colon and the order ids make up the difference. */
  lemma CollisionsAreColons(c: Config, m1: string, o1: string, m2: string, o2: string)
    requires Collisionless(c) && |m1| <= |m2| && (m1, o1) != (m2, o2)
    ensures TxnIdOf(c, m1, o1) == TxnIdOf(c, m2, o2)
            <==> m1 + ":" <= m2 && o1 == m2[|m1| + 1..] + ":" + o2
  {
    var a, b := m1 + ":" + o1, m2 + ":" + o2;
    if a == b {
      assert m1 == a[..|m1|] == b[..|m1|] == m2[..|m1|];
      assert o1 == a[|m1| + 1..] && o2 == b[|m2| + 1..];
      assert |m1| == |m2| ==> m1 == m2 && o1 == o2;
      assert m2[|m1|] == b[|m1|] == a[|m1|] == ':';
      assert m1 + ":" == m2[..|m1| + 1];
      assert b[|m1| + 1..] == m2[|m1| + 1..] + ":" + o2;
    }
    if m1 + ":" <= m2 && o1 == m2[|m1| + 1..] + ":" + o2 {
      assert m2 == m1 + ":" + m2[|m1| + 1..];
      assert a == b;
    }
  }

  /** The part a longer merchant id adds after `m1:` fits in front of an order id. */
  predicate Bridges(m1: string, m2: string) {
    && m1 + ":" <= m2
    && |m2| - |m1| - 1 <= 62 && forall ch | ch in m2[|m1| + 1..] :: OrderChar(ch)
  }

  /** For two merchants: some valid orders of theirs collide iff one id bridges to the
      other. In particular merchant ids without a colon never collide. */
  lemma MerchantsCollideIff(c: Config, m1: string, m2: string)
    requires Collisionless(c) && m1 != m2 && |m1| <= |m2|
    ensures (exists o1, o2 :: ValidOrderId(o1) && ValidOrderId(o2) && TxnIdOf(c, m1, o1) == TxnIdOf(c, m2, o2))
            <==> Bridges(m1, m2)
  {
    if Bridges(m1, m2) {
      var o1, o2 := m2[|m1| + 1..] + ":" + "0", "0";
      CollisionsAreColons(c, m1, o1, m2, o2);
      assert ValidOrderId(o1) && ValidOrderId(o2);
    }
    forall o1, o2 | ValidOrderId(o1) && ValidOrderId(o2) && TxnIdOf(c, m1, o1) == TxnIdOf(c, m2, o2)
      ensures Bridges(m1, m2)
    {
      CollisionsAreColons(c, m1, o1, m2, o2);
      forall ch | ch in m2[|m1| + 1..] ensures OrderChar(ch) {
        assert ch in o1;
      }
    }
  }

  // --- events and evidence ---------------------------------------------------

  /** Entry `k` inserted the order that event `i` is about, `j` wrote the event's status. */
  ghost predicate Backs(log: seq<Entry>, k: int, j: int, i: int)
    requires 0 <= i < |log| && log[i].Published?
  {
    var ev := log[i].event;
    && 0 <= k < j < i
    && log[k].Inserted? && log[k].id == log[i].id
    && log[k].row.merchant == ev.merchant && log[k].row.order == ev.order
    && log[k].row.amount == ev.amount && log[k].row.currency == ev.currency
    && log[j] == StatusWritten(log[i].id, ev.status, log[i].origin)
  }

  lemma BackedEvent(c: Config, log: seq<Entry>, i: nat) returns (k: nat, j: nat)
    requires AllJustified(c, log) && i < |log| && log[i].Published?
    ensures Backs(log, k, j, i)
  {
    var pre, ev := log[..i], log[i].event;
    assert Justified(c, pre, log[i]);
    var x: Transaction :| Born(pre, log[i].id, x) && ev.merchant == x.merchant && ev.order == x.order
                          && ev.amount == x.amount && ev.currency == x.currency;
    k :| InsertedAt(pre, k, log[i].id, x);
    j :| 0 <= j < |pre| && pre[j] == StatusWritten(log[i].id, ev.status, log[i].origin);
    var k' := WriteFollowsInsert(c, log, j);
    InsertsAreUnique(c, log);
  }

  lemma WriteFollowsInsert(c: Config, log: seq<Entry>, j: nat) returns (k: nat)
    requires AllJustified(c, log) && j < |log| && log[j].StatusWritten?
    ensures k < j && log[k].Inserted? && log[k].id == log[j].id
  {
    assert Justified(c, log[..j], log[j]);
    k :| 0 <= k < |log[..j]| && log[..j][k].Inserted? && log[..j][k].id == log[j].id;
  }

  /** Every published event carries the merchant, order, amount and currency some
      Create inserted, and follows a successful write of its status to that row. */
  lemma EventsAreBacked(c: Config, s0: State, run: seq<Move>, n: nat, i: nat)
    requires Collisionless(c) && IsRun(c, s0, run) && n <= |run|
    requires i < |At(s0, run, n).log| && At(s0, run, n).log[i].Published?
    ensures exists k, j :: Backs(At(s0, run, n).log, k, j, i)
  {
    RunIsJustified(c, s0, run, n);
    var k, j := BackedEvent(c, At(s0, run, n).log, i);
  }

  /** No status write goes back to created or pending, and every write of `paid`, and the
      reconciler's `failed`, names what it rests on: the provider's word on a payment intent, heard
      earlier, or, from a webhook without an intent, nothing; the tracker's evidence is below. */
  ghost predicate WriteIsEarned(log: seq<Entry>, j: int)
    requires 0 <= j < |log| && log[j].StatusWritten?
  {
    var w := log[j];
    && !IsStuck(w.status)
    && (w.status == Paid && w.origin.ByWebhook? && w.origin.pi != "" ==>
        IntentRead(w.origin.pi, IntentSucceeded) in log[..j])
    && (w.status == Paid && w.origin.ByReconciler? ==> IntentRead(w.origin.pi, IntentSucceeded) in log[..j])
    && (w.status == Failed && w.origin.ByReconciler? ==> IntentRead(w.origin.pi, IntentClosed) in log[..j])
  }

  lemma EarnedWrite(c: Config, log: seq<Entry>, j: nat)
    requires AllJustified(c, log) && j < |log| && log[j].StatusWritten?
    ensures WriteIsEarned(log, j)
  {
    assert Justified(c, log[..j], log[j]);
  }

  lemma StatusWritesAreEarned(c: Config, s0: State, run: seq<Move>, n: nat, j: nat)
    requires Collisionless(c) && IsRun(c, s0, run) && n <= |run|
    requires j < |At(s0, run, n).log| && At(s0, run, n).log[j].StatusWritten?
    ensures WriteIsEarned(At(s0, run, n).log, j)
  {
    RunIsJustified(c, s0, run, n);
    EarnedWrite(c, At(s0, run, n).log, j);
  }

  /** The tracker's chain of evidence, oldest first: the transfer, its good receipt and a head
      at least the required number of blocks above it, the confirmed mark with that depth,
      the paid write, the event. */
  ghost predicate Earns(log: seq<Entry>, h: int, g: int, m: int, w: int, i: int)
    requires 0 <= i < |log| && log[i].Published? && log[i].origin.ByTracker?
  {
    var ByTracker(pid, tx, depth) := log[i].origin;
    && 0 <= h < m && 0 <= g < m < w < i
    && OnChain(log[..m], tx) && log[g] == ReceiptRead(tx.hash, Good)
    && log[h] == HeadRead(tx.row.block + depth) && depth >= tx.row.required
    && log[m] == ChainMarked(tx.hash, Confirmed, depth, pid)
    && log[w] == StatusWritten(log[i].id, Paid, log[i].origin)
    && TransferMatches(tx.row, log[i].event)
  }

  predicate TransferMatches(transfer: ChainRow, event: Event) {
    && transfer.order == event.order
    && transfer.amount % TWO_64 == event.amount && (transfer.amount == event.amount <==> transfer.amount < TWO_63)
  }

  lemma EarnedEvent(c: Config, log: seq<Entry>, i: nat) returns (h: nat, g: nat, m: nat, w: nat)
    requires AllJustified(c, log) && i < |log| && log[i].Published? && log[i].origin.ByTracker?
    ensures Earns(log, h, g, m, w, i)
  {
    w := EarnedAmount(c, log, i);
    m := PaidFollowsMark(c, log, w);
    h, g := MarkFollowsReceipt(c, log, m, w, log[w].origin.tx);
  }

  lemma EarnedAmount(c: Config, log: seq<Entry>, i: nat) returns (w: nat)
    requires AllJustified(c, log) && i < |log| && log[i].Published? && log[i].origin.ByTracker?
    ensures w < i && log[w] == StatusWritten(log[i].id, Paid, log[i].origin)
    ensures var tx := log[i].origin.tx;
            && OnChain(log[..w], tx) && log[i].origin.depth >= tx.row.required
            && TransferMatches(tx.row, log[i].event)
  {
    var k;
    k, w := BackedEvent(c, log, i);
    var m := PaidFollowsMark(c, log, w);
    var k' := PaidMatchesOrder(c, log, w);
    SameInsert(c, log, k, k');
    InsertedAmountsArePositive(c, log, k);
    AmountExactness(log[w].origin.tx.row.amount, log[i].event.amount);
  }

  lemma SameInsert(c: Config, log: seq<Entry>, i: nat, j: nat)
    requires AllJustified(c, log) && i < |log| && j < |log| && log[i].Inserted? && log[j].Inserted?
             && log[i].id == log[j].id
    ensures i == j
  {
    InsertsAreUnique(c, log);
  }

  lemma InsertedAmountsArePositive(c: Config, log: seq<Entry>, k: nat)
    requires AllJustified(c, log) && k < |log| && log[k].Inserted?
    ensures log[k].row.amount > 0
  {
    assert Justified(c, log[..k], log[k]);
  }

  lemma TrackerEventsAreEarned(c: Config, s0: State, run: seq<Move>, n: nat, i: nat)
    requires Collisionless(c) && IsRun(c, s0, run) && n <= |run|
    requires var log := At(s0, run, n).log; i < |log| && log[i].Published? && log[i].origin.ByTracker?
    ensures exists h, g, m, w :: Earns(At(s0, run, n).log, h, g, m, w, i)
  {
    RunIsJustified(c, s0, run, n);
    var h, g, m, w := EarnedEvent(c, At(s0, run, n).log, i);
  }

  lemma PaidFollowsMark(c: Config, log: seq<Entry>, w: nat) returns (m: nat)
    requires AllJustified(c, log) && w < |log| && log[w].StatusWritten? && log[w].origin.ByTracker?
    ensures log[w].status == Paid
    ensures m < w && log[m] == ChainMarked(log[w].origin.tx.hash, Confirmed, log[w].origin.depth, log[w].origin.pid)
  {
    assert Justified(c, log[..w], log[w]);
    m :| 0 <= m < |log[..w]|
        && log[..w][m] == ChainMarked(log[w].origin.tx.hash, Confirmed, log[w].origin.depth, log[w].origin.pid);
  }

  lemma PaidMatchesOrder(c: Config, log: seq<Entry>, w: nat) returns (k: nat)
    requires AllJustified(c, log) && w < |log| && log[w].StatusWritten? && log[w].origin.ByTracker?
    ensures k < w && log[k].Inserted? && log[k].id == log[w].id
    ensures log[w].origin.tx.row.order == log[k].row.order
    ensures Codec.WrapInt64(log[w].origin.tx.row.amount) == log[k].row.amount
    ensures OnChain(log[..w], log[w].origin.tx) && log[w].origin.depth >= log[w].origin.tx.row.required
  {
    var pre := log[..w];
    assert Justified(c, pre, log[w]);
    var x: Transaction :| Born(pre, log[w].id, x) && Pays(pre, log[w].origin.tx, log[w].origin.depth, x);
    k :| InsertedAt(pre, k, log[w].id, x);
  }

  lemma MarkIsDeep(c: Config, log: seq<Entry>, m: nat) returns (tx: ChainItem, h: nat, g: nat)
    requires AllJustified(c, log) && m < |log| && log[m].ChainMarked? && log[m].chainStatus == Confirmed
    ensures tx.hash == log[m].hash && OnChain(log[..m], tx)
    ensures h < m && log[h] == HeadRead(tx.row.block + log[m].confirmations)
    ensures g < m && log[g] == ReceiptRead(tx.hash, Good)
  {
    var pre := log[..m];
    assert Justified(c, pre, log[m]);
    tx :| tx.hash == log[m].hash && MarkEvidence(pre, tx, Confirmed, log[m].confirmations);
    assert Deep(pre, tx, log[m].confirmations);
    h :| 0 <= h < |pre| && pre[h] == HeadRead(tx.row.block + log[m].confirmations);
    g :| 0 <= g < |pre| && pre[g] == ReceiptRead(tx.hash, Good);
  }

  lemma MarkFollowsReceipt(c: Config, log: seq<Entry>, m: nat, w: nat, tx: ChainItem) returns (h: nat, g: nat)
    requires AllJustified(c, log) && m < w < |log| && OnChain(log[..w], tx)
    requires log[m].ChainMarked? && log[m].chainStatus == Confirmed && log[m].hash == tx.hash
    ensures OnChain(log[..m], tx) && g < m && log[g] == ReceiptRead(tx.hash, Good)
    ensures h < m && log[h] == HeadRead(tx.row.block + log[m].confirmations)
  {
    var tx';
    tx', h, g := MarkIsDeep(c, log, m);
    OneTransferPerHash(c, log, m, w, tx', tx);
  }

  lemma OneTransferPerHash(c: Config, log: seq<Entry>, m: nat, w: nat, a: ChainItem, b: ChainItem)
    requires AllJustified(c, log) && m < w < |log| && a.hash == b.hash && OnChain(log[..m], a) && OnChain(log[..w], b)
    ensures SameTransfer(a.row, b.row) && OnChain(log[..m], b)
  {
    var i :| ChainInsertedAt(log[..m], i, a);
    var j :| ChainInsertedAt(log[..w], j, b);
    TransfersAreUnique(c, log);
    assert i == j;
    assert ChainInsertedAt(log[..m], i, b);
  }

  lemma TransfersAreUnique(c: Config, log: seq<Entry>)
    requires AllJustified(c, log)
    ensures forall i, j | 0 <= i < j < |log| && log[i].ChainInserted? && log[j].ChainInserted? ::
              log[i].hash != log[j].hash
  {
    forall i, j | 0 <= i < j < |log| && log[i].ChainInserted? && log[j].ChainInserted?
      ensures log[i].hash != log[j].hash {
      assert Justified(c, log[..j], log[j]);
      assert log[..j][i] == log[i];
    }
  }

  /** Every mark on a chain row follows its reason: a missing receipt for reorged, a reverted
      one or an order of another amount for failed, a good receipt and a reported head exactly
      `confirmations` blocks above for pending and confirmed, short of the required depth
      and reaching it. */
  lemma MarksAreEarned(c: Config, s0: State, run: seq<Move>, n: nat, j: nat)
    requires Collisionless(c) && IsRun(c, s0, run) && n <= |run|
    requires j < |At(s0, run, n).log| && At(s0, run, n).log[j].ChainMarked?
    ensures var log := At(s0, run, n).log;
      exists tx: ChainItem :: tx.hash == log[j].hash
          && MarkEvidence(log[..j], tx, log[j].chainStatus, log[j].confirmations)
  {
    RunIsJustified(c, s0, run, n);
    var log := At(s0, run, n).log;
    assert Justified(c, log[..j], log[j]);
  }

  /** Int64 truncation: an on-chain amount passes the tracker's check against an order
      when they agree modulo 2^64, and is then the same number iff it is below 2^63. */
  lemma AmountExactness(onchain: nat, order: int64)
    requires Codec.WrapInt64(onchain) == order && order > 0
    ensures onchain % TWO_64 == order
    ensures onchain == order <==> onchain < TWO_63
  {
  }

  /** ... so a transfer of 2^64 + 100 units passes for an order of 100. */
  lemma WrappedAmountPasses(latest: nat, todo: seq<ChainItem>, tx: ChainItem, x: Transaction)
    requires latest >= tx.row.block && tx.row.amount == TWO_64 + 100 && x.amount == 100 && x.status == Created
    ensures AfterOrder(latest, todo, tx, x) == TrkMark(latest, todo, tx, Confirmed, latest - tx.row.block, Some(x))
  {
  }
}
