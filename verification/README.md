# easypay: a verified model of the payment gateway's protocols

easypay takes payment orders, opens Stripe checkout sessions or waits for on-chain transfers, and tells
merchants the outcome. Its hard parts are protocols over shared state: `transactions` rows spread over
shards, Redis keys, a block cursor and Kafka offsets. This project models them in Dafny and proves what
holds in every interleaving. `dafny verify dfyconfig.toml` checks the whole of it. Nothing was executed.

How the model is built:

- **Payment rows** (`PaymentModel.dfy`, then `PaymentSafety`, `PaymentTheorems`, `PaymentProgress`,
  `PaymentContents`, `PaymentChain`, `PaymentFreeze`, `PaymentWitness`, `PaymentRepublish`). Payment creation, the webhook, the stuck-order
  reconciler, the chain listener, the confirmation tracker, the chain reconciler and the checkout persist
  step share two tables. Every external call is one atomic move; any number of processes interleave; a
  write may succeed, fail without effect, or take effect and still report an error. Each move appends one
  entry to a log, and the invariant says every entry is justified by the log before it.
- **Lazy checkout** (`Checkout.dfy`, `CheckoutTheorems.dfy`). The lease lock with expiry, the re-check, the
  Stripe call, the persist and the per-pod cache, with a clock, crashes, lost replies and cache eviction. The
  machine's lock steps are the functions that the lock's own history theorem (`LiveIffHeld`) is about.
- **Handlers** (`PaymentHandlers.dfy`, `CheckoutHandlers.dfy`). The same code once more as sequential
  methods over mutable tables, with other processes free to move before each external call. Each external
  call must be an allowed move of the machine, so these methods only ever extend runs of it. They take every
  external reply as an input. The payment handlers' contracts give the handler's own moves for those replies, in
  order; the resolver's says which tier answers and with what.
- **Stores and scripts.** `Codec`, `Sharding`, `PendingScan`, `Placement` (merchants onto shards),
  `TokenBucket`, `SlidingWindow`, `Backfill`, `Parser`, `Consumer`, `Caches`: imperative where the source
  is, each method proved against a specification that does not mention its body. `Backfill` and `Consumer`
  take a script: the answer to every outside call, given beforehand. Their results are stated over the log
  of calls made against it.

Assumptions stated in the contracts: the digest behind transaction ids is collision-free (`Collisionless`);
replies of external services are arbitrary; the chain is fixed while it is scanned.

Where the code and its comments differ, the code and the schema are modelled:

- `internal/service/payment_service.go:230` speaks of a unique key on merchant and transaction id; the schema
  (`migrations/001_init_schema.up.sql:51`) makes the transaction id alone unique.
- `lruCache` in `internal/repository/merchant_repo.go` is not least-recently-used: it evicts by expiry.
- `internal/provider/blockchain/subscriber.go:134` relies on the backfill scanner to catch up, but a cursor
  write past what was scanned makes the scanner skip blocks (`Backfill.SubscriberSkipsBlocks`).

Properties one might expect that the code does not have, each with its exact condition:

- An identical retry of a payment can conflict (`IdenticalRetryCanConflict`); it does so exactly when the
  method's crypto bucket does not survive the method codec (`IdenticalRetry`).
- Orders of two merchants can share a transaction id exactly when one merchant id continues the other across
  a colon (`MerchantsCollideIff`).
- The on-chain amount is compared modulo 2^64 (`WrappedAmountPasses`); equality is exact exactly below 2^63
  (`AmountExactness`).
- The tracker can publish an order twice although no webhook touched it (`TrackerCanPublishTwice`). From any
  reachable state an idle tracker can publish an order, again or not, exactly when the order is not final and
  a pending transfer with its order id and wrapped amount exists (`TrackerCanPublishIff`); a published order
  gets there only through a `failed` write by someone else (`RepublishNeedsFailure`).
- Calls in one nanosecond are undercounted by the sliding window (`SameInstantIsUndercounted`); the count is
  the reference's exactly when no two admitted calls in the window share a member (`DecisionIsReference`).
- A fetch that breaks mid-batch can lose messages below the committed offset (`LosesAMessage`); a session
  loses none exactly when its committed offset is at most the first offset so dropped (`CoverageIff`).
- The subscriber can move the block cursor past blocks nobody fetched (`SubscriberSkipsBlocks`); the cursor's
  claim survives its write exactly when that block lies within what was fetched (`HandleLog`, `SetCursor`).

## Model

| member | source | states |
|---|---|---|
| `PaymentSafety.RunKeepsInv` | internal/service/payment_service.go:125-226 | in every run of all processes, each logged effect is justified by the log before it and each process only believes what the tables support |
| `PaymentSafety.MoveSafe` | internal/service/webhook_service.go:127-266 | every single move, whatever process makes it and however its write turns out, is justified and leaves its process with supported beliefs |
| `PaymentTheorems.OneInsertPerId` | migrations/001_init_schema.up.sql:51 | in every run at most one insert takes effect per transaction id |
| `PaymentTheorems.OnlyTheWinnerReachesStripe` | internal/service/payment_service.go:188-215 | a session call by `Create` is made only by the process whose insert won, and only once per order |
| `PaymentTheorems.RepliesAgree` | internal/service/payment_service.go:158-186 | every successful reply names the one stored row of that merchant and order; the winner's row holds its data; a loser conflicts if and only if amount, currency or crypto bucket differs from the stored row |
| `PaymentTheorems.IdenticalRetry` | internal/service/payment_service.go:297-319 | an identical retry is replayed if the method's crypto bucket survives the codec and conflicts otherwise; default and crypto-flow methods always survive |
| `PaymentTheorems.IdenticalRetryCanConflict` | internal/repository/codec.go:105-117 | a concrete request whose identical retry is refused |
| `PaymentTheorems.CollisionsAreColons` | internal/service/payment_service.go:237-243 | two different (merchant, order) pairs share a transaction id exactly when one merchant id continues the other across a colon and the order ids make up the difference |
| `PaymentTheorems.MerchantsCollideIff` | internal/domain/transaction.go:62-79 | some valid orders of two merchants collide if and only if one id bridges to the other; ids without a colon never do |
| `PaymentTheorems.EventsAreBacked` | internal/service/webhook_service.go:157-177 | each published event carries merchant, order, amount and currency of an inserted row and follows a write of its status to that row |
| `PaymentTheorems.StatusWritesAreEarned` | internal/service/reconciliation.go:90-121 | no status write goes back to created or pending; a paid write follows Stripe's report that the intent succeeded (unless a webhook named none), and a reconciler's failed write follows a report that it was canceled or needs a new method |
| `PaymentTheorems.MarksAreEarned` | internal/provider/blockchain/confirmation.go:69-119 | every mark follows its reason in the log and names a transfer that was inserted: a missing receipt for reorged, a reverted one or an order of another amount for failed, and for pending and confirmed a head the node reported, that many blocks above the transfer; confirmed also needs a good receipt and the required depth |
| `PaymentTheorems.TrackerEventsAreEarned` | internal/provider/blockchain/confirmation.go:69-136 | every tracker event follows a paid write, which follows a confirmed mark, which follows a good receipt and a reported head at least the required number of blocks above the transfer; the transfer has the order id and, modulo 2^64, the amount |
| `PaymentTheorems.AmountExactness` | internal/provider/blockchain/confirmation.go:111-115 | a transfer that passes the amount check equals the order's amount if and only if it is below 2^63 |
| `PaymentTheorems.WrappedAmountPasses` | internal/provider/blockchain/confirmation.go:111-115 | a transfer of 2^64 + 100 is accepted for an order of 100 |
| `PaymentProgress.RowsMoveForward` | internal/repository/transaction_repo.go:247-301 | over any stretch of any run a row keeps its identity and amount, never loses a session or payment intent id, and never returns to created or pending once it left (what each field holds is `RowsAreLogged`) |
| `PaymentContents.RowsAreLogged` | internal/repository/transaction_repo.go:247-301 | at every point of every run a row has the fields it was inserted with, the status last written to it or created if none was, and the last non-empty payment intent and session written to it; an id without a row was never written |
| `PaymentContents.TransfersAreLogged` | internal/repository/onchain_tx_repo.go:37-75 | at every point of every run a transfer has the block, order, amount and required depth it was inserted with, and the status and depth of its last mark |
| `PaymentProgress.ReconcilerPublishesOnce` | internal/service/reconciliation.go:78-121 | a reconciler publishes each order at most once, whatever everyone else does |
| `PaymentChain.RepublishNeedsFailure` | internal/provider/blockchain/confirmation.go:106-133 | two events of one tracker for one order have a `failed` write by a webhook or reconciler between the first paid write and the second event (the necessary half; the exact condition is `TrackerCanPublishIff`) |
| `PaymentChain.TrackerPublishesOnce` | internal/provider/blockchain/confirmation.go:54-136 | a tracker publishes at most once an order nobody marks failed (a sufficient condition) |
| `PaymentRepublish.TrackerCanPublishIff` | internal/provider/blockchain/confirmation.go:54-136 | in every reachable state with the tracker idle, whatever it published before, its own moves can publish an order if and only if the order is not final and some pending transfer has its order id and, modulo 2^64, its amount |
| `PaymentWitness.TrackerCanPublishTwice` | internal/service/reconciliation.go:117-119 | a run without webhook writes in which one tracker publishes one order twice, around a late reconciler's `failed` write |
| `PaymentFreeze.SettledTransfersNeverChange` | internal/provider/blockchain/reconciliation.go:54-74 | with serialised ticks a chain row that left pending is never written again |
| `PaymentHandlers.Gateway.Create` | internal/service/payment_service.go:125-226 | with others moving before every call, its own moves are given for every combination of replies: none but a quiet one for a bad request, the refused insert and the lookup for a loser, and for the winner the insert and, only in the eager flow and only if the insert worked, the session call and the persist; it accepts exactly a winner all of whose calls worked, and answers from the stored row exactly as a loser whose lookup finds a row of its merchant; the answer agrees with that row |
| `PaymentHandlers.Gateway.Process` | internal/service/webhook_service.go:69-102 | an unverified or repeated delivery moves nothing; otherwise each literal event type makes exactly the moves of its handler and succeeds exactly when that does; any other type moves nothing and succeeds |
| `PaymentHandlers.NamesAreThese` | internal/service/webhook_service.go:88-96 | which literal event types go to which handler, and which literal intent statuses count as succeeded and as closed |
| `PaymentHandlers.Gateway.HandleSucceeded` | internal/service/webhook_service.go:127-178 | its own moves for every reply: what Stripe reports on a named intent, then only if that is succeeded the paid write, only if that worked the read back, only if that worked the event; with any other report, or none, it writes and publishes nothing; it succeeds exactly when all of these worked, and the write meets a row if the order is stored |
| `PaymentHandlers.Gateway.HandleFailed` | internal/service/webhook_service.go:180-205 | its own moves are exactly the failed write to that order and no event; it succeeds exactly when the write met a row and worked, and it meets one if the order is stored |
| `PaymentHandlers.Gateway.HandleRefunded` | internal/service/webhook_service.go:207-266 | its own moves are the refunded write, the read back and the event, each only if those before it worked; they are about the named order, or without a name about the row that has the payment intent when it is looked up, if there is one; it succeeds exactly when there is such an order and all of them worked |
| `PaymentHandlers.Gateway.ReconcileStuck` | internal/service/reconciliation.go:78-121 | a tick makes, row by row in the order of the scan, exactly the moves that Stripe's reports and the write replies call for, none skipped because of an earlier failure |
| `PaymentHandlers.Gateway.ReconcileOne` | internal/service/reconciliation.go:90-121 | the moves for one row: none but a quiet one without an intent or a report; else the intent read, then nothing if open, a failed write if closed, a paid write and (only if it worked) the event if succeeded |
| `PaymentHandlers.Gateway.Track` | internal/provider/blockchain/confirmation.go:54-67 | a tick reads the head, lists the pending transfers the table holds at that moment, and makes for each in turn exactly the moves its replies call for at that head; without a head or a list it writes nothing |
| `PaymentHandlers.Gateway.TrackOne` | internal/provider/blockchain/confirmation.go:69-136 | the moves for one transfer, reply by reply: receipt, then the mark it calls for, or below the required depth the pending mark with the depth, or the order lookup, then the mark, and only if that worked the paid write, and only if that worked the event |
| `PaymentHandlers.Gateway.Recheck` | internal/provider/blockchain/reconciliation.go:54-74 | a tick re-reads the receipt of every listed transfer in its order and marks exactly the missing and the reverted ones |
| `PaymentHandlers.Gateway.RecheckOne` | internal/provider/blockchain/reconciliation.go:60-72 | the receipt read, then the reorged mark if it is missing, the failed mark if reverted, nothing if good |
| `LeaseLock.LiveIffHeld` | internal/cache/lock.go:36-69 | after any sequence of acquires and releases the key is live if and only if some acquire took it, was not released with its token since and is within its time |
| `LeaseLock.LockKey.Acquire` | internal/cache/lock.go:36-52 | an acquire is refused if and only if an earlier acquire that took the key is unreleased and within its time |
| `LeaseLock.LockKey.Release` | internal/cache/lock.go:54-69 | after a release no lease with the caller's token is held, and every other holder goes on holding |
| `Checkout.RunKeepsInv` | internal/service/checkout_resolver.go:86-205 | in every run tokens are distinct, every URL handed out or cached names a session that was created, and every request sent is the one the row asks for |
| `CheckoutTheorems.SameRequestSameSession` | internal/service/checkout_resolver.go:207-232 | however leases expire and reads or writes fail, all session requests of an order carry one key and one request; with replay by key they share one session and every URL names it (what the request asks for is `RequestsAreTheOrders`) |
| `CheckoutTheorems.RequestsAreTheOrders` | internal/service/checkout_resolver.go:207-232 | every request in every run asks for the amount of the order's row, in its currency in lower case, by card, names the order and its merchant, and leads back to the configured success and cancel addresses with the order id as last parameter |
| `CheckoutTheorems.KeysTellOrdersApart` | internal/service/checkout_resolver.go:229-231 | rows of merchants whose ids have no colon share an idempotency key if and only if they are of one merchant and one order |
| `CheckoutTheorems.UrlsTellSessionsApart` | internal/service/checkout_resolver.go:80-82 | two rebuilt checkout addresses are equal if and only if their session ids are |
| `CheckoutTheorems.KeyNeverMismatches` | internal/service/checkout_resolver.go:229-231 | no idempotency key is ever reused with a different request |
| `CheckoutTheorems.ReleaseKeepsLaterLease` | internal/cache/lock.go:54-69 | in any reachable state a release changes the key only if the key still is the releaser's own lease; a later lease stays, whether its taker lives, crashed or never got the reply |
| `CheckoutTheorems.RecheckIsDecisive` | internal/service/checkout_resolver.go:144-149 | in every run that meets the assumptions of `AtMostOneSession`, a lock holder whose re-check finds no session knows that none was ever created |
| `CheckoutTheorems.AtMostOneSession` | internal/service/checkout_resolver.go:86-205 | if time does not pass a held lease, re-checks and persists succeed, no Stripe answer is lost and no pod dies between the Stripe call and the persist, at most one session is created and every returned URL names it, replay or not |
| `CheckoutHandlers.Resolver.Resolve` | internal/service/checkout_resolver.go:86-189 | `Resolve` only extends a run of the resolver machine; its reply is the pod's cached URL, the address of the session it saw in the row (at first, after the lock was refused, or at the re-check), or the URL of Stripe's answer to the requests it had so far; none only if the read failed or saw no row, the lock was refused or its reply lost and the row then had no session, the bucket refused, or Stripe's answer failed or was lost; with a replaying provider every URL names the order's one session |
| `CheckoutHandlers.Resolver.UnderLock` | internal/service/checkout_resolver.go:143-189 | under the lock the reply is the session the re-check saw, or Stripe's answer if the re-check failed or saw none and the bucket allows; it always ends with the lease still to be released |
| `Sharding.OpenShards` | internal/repository/shard_router.go:60-119 | opening succeeds exactly when the logical count is positive, divisible by the pool count and no pool fails, and then routing gives each pool one contiguous block |
| `Sharding.BuildTable` | internal/repository/shard_router.go:105-112 | the routing formula assigns shard i to pool i / (logical / pools) |
| `Sharding.BlocksAreContiguous` | internal/repository/shard_router.go:105-112 | pool p owns exactly the shards from p * per up to (p + 1) * per |
| `Sharding.SingleShardRouter` | internal/repository/shard_router.go:153-166 | the one-pool router is range partitioned too, with at least one logical shard |
| `Sharding.PhysicalToFirstLogical` | internal/repository/transaction_repo.go:236-245 | the stamped index is the least shard that routes to its pool |
| `Sharding.ShardRoutesHome` | internal/repository/shard_router.go:121-126 | routing a pool's stamped index gives that pool back |
| `Sharding.ScatterFirst` | internal/repository/transaction_repo.go:189-230 | for any arrival order a hit is some pool's row stamped with an index that routes to it; not-found is reported exactly when every pool answered so |
| `PendingScan.SortByCreatedAt` | internal/repository/transaction_repo.go:382-399 | the in-place insertion sort orders by (created_at, transaction_id) and permutes |
| `PendingScan.GatherPages` | internal/repository/transaction_repo.go:340-366 | the gathered rows are the pools' stamped pages in arrival order; it fails exactly when some pool did |
| `PendingScan.GetPendingBefore` | internal/repository/transaction_repo.go:308-380 | for any arrival order and any choice among ties: min(limit, total) stuck rows, sorted, drawn from the pools, and no stuck row left out is strictly older than one returned; an error exactly when a pool fails |
| `PendingScan.CutIsOldest` | internal/repository/transaction_repo.go:366-380 | cutting the sorted union of per-pool pages is as good as cutting the sorted union of all stuck rows |
| `PendingScan.NothingOlderIsLeftOut` | internal/repository/transaction_repo.go:308-380 | whatever was left out, by a pool's limit or by the cut, is no older than anything returned |
| `PendingScan.ScannedRowsRouteHome` | internal/repository/transaction_repo.go:247-276 | a status update with the index stamped by the scan reaches the pool that holds the row |
| `Placement.PickLeastLoaded` | internal/repository/merchant_repo.go:112-145 | for any order of the query's rows the result is the first shard with the smallest count |
| `Placement.Merchants.Insert` | internal/repository/merchant_repo.go:77-106 | a successful insert adds one merchant on the least loaded shard; a failed one changes nothing |
| `Placement.InsertKeepsGap` | internal/repository/merchant_repo.go:77-145 | an insert never raises the gap between fullest and emptiest shard above the larger of its old value and 1 |
| `Placement.InsertsTakeTurns` | internal/repository/merchant_repo.go:108-145 | from an empty table the j-th insert lands on shard j mod L |
| `Placement.InsertAll` | internal/repository/merchant_repo.go:77-145 | n successful inserts place merchant j on shard j mod L and keep every two shards within 1 of each other |
| `TokenBucket.BucketKey.Eval` | internal/cache/token_bucket.go:39-59 | the script's new fields, decision and wait are those of the bucket specification and tokens stay in bounds |
| `TokenBucket.TokensStayInBounds` | internal/cache/token_bucket.go:45-46 | tokens stay between 0 and capacity in every run |
| `TokenBucket.TokensAreAccountedFor` | internal/cache/token_bucket.go:39-59 | tokens left plus calls admitted never exceed capacity + refill * T / 1000 over an interval of T milliseconds |
| `TokenBucket.RateIsBounded` | internal/cache/token_bucket.go:39-59 | with a nondecreasing clock at most capacity + refill * T / 1000 calls are admitted in any T milliseconds |
| `TokenBucket.AdmittedIff` | internal/cache/token_bucket.go:39-59 | from an absent key and with a nondecreasing clock a call is admitted if and only if, counted from every earlier call on, the calls admitted and this one stay within capacity + refill * T / 1000 |
| `TokenBucket.WaitIsLeast` | internal/cache/token_bucket.go:54 | after a refusal, a lone call w milliseconds later is admitted if and only if w is at least the reported wait |
| `TokenBucket.WaitIsRightIff` | internal/cache/token_bucket.go:54 | the reported wait is right if and only if the capacity is at least 1 |
| `TokenBucket.RefusalIsInvisible` | internal/cache/token_bucket.go:45-58 | a refused call leaves a bucket that decides every later call as before |
| `TokenBucket.RefusedCallsDoNotMatter` | internal/cache/token_bucket.go:39-59 | removing any set of refused calls from a run changes no other decision |
| `TokenBucket.ExpiryIsInvisible` | internal/cache/token_bucket.go:57-58 | the expiring key decides every call as one that never expires, with up to 5 seconds of skew between caller and Redis |
| `SlidingWindow.RateKey.Allow` | internal/cache/ratelimiter.go:27-67 | the script's new set, decision and remaining count are those of the specification; non-positive limits never reach it |
| `SlidingWindow.TrimmedAgrees` | internal/cache/ratelimiter.go:34 | early trimming loses nothing a later window would count |
| `SlidingWindow.CardIsCountIff` | internal/cache/ratelimiter.go:35 | the set's size is the number of calls in the window if and only if no two of them share a member |
| `SlidingWindow.DecisionIsReference` | internal/cache/ratelimiter.go:34-41 | with nondecreasing times and distinct members a call is admitted if and only if fewer than limit admitted calls of the full history lie in (now - window, now] |
| `SlidingWindow.SameInstantIsUndercounted` | internal/cache/ratelimiter.go:48-49 | three calls in one nanosecond pass a limit of two |
| `SlidingWindow.NoWindowOverflows` | internal/cache/ratelimiter.go:27-42 | with distinct members and a fixed limit no half-open window, wherever it starts, holds more than limit admitted calls |
| `SlidingWindow.ExpiryIsInvisible` | internal/cache/ratelimiter.go:40 | key expiry in whole milliseconds never changes a decision |
| `Backfill.WindowAdvancesIff` | internal/provider/blockchain/backfill.go:73-77 | the walk moves on if and only if the batch is at least 1 and the block number does not wrap |
| `Backfill.PlanCoversExactly` | internal/provider/blockchain/backfill.go:73-98 | the windows of a walk ask for every block from its start to the head and for no other |
| `Backfill.DoneCoversExactly` | internal/provider/blockchain/backfill.go:56-98 | a tick all of whose reads worked asked for every block from its start to the reported head and for no other |
| `Backfill.Listener.Persist` | internal/provider/blockchain/backfill.go:100-136 | a log whose order was known has a row afterwards unless its own order lookup or insert failed; alone, it adds no other row |
| `Backfill.Listener.ScanWindow` | internal/provider/blockchain/backfill.go:78-90 | a fetch that works is followed by the handling of every log of the window with the orders known at its start; one that fails changes nothing of what was fetched |
| `Backfill.Listener.Tick` | internal/provider/blockchain/backfill.go:56-98 | a tick starts at the stored block, or the configured one if none is stored; it fetches the planned windows in turn up to the first read that fails, and all of them exactly if none fails; its cursor writes are the ends of the fetched windows; if the last write works the cursor is where the walk ended; the cursor never claims an unfetched block |
| `Backfill.Listener.Run` | internal/provider/blockchain/backfill.go:40-54 | any number of ticks follow one another in the call log, each as `Tick` says; a block counts as fetched only if one of them fetched it; the cursor's claim holds and no stored row changes |
| `Backfill.CatchUp` | internal/provider/blockchain/backfill.go:56-136 | from an empty listener, after n ticks on any script, every block from the start block to the cursor was fetched by one of them, and every transaction in a fetched block that pays an order known when that tick began has its row, unless its lookup or insert failed |
| `Backfill.Listener.SetCursor` | internal/provider/blockchain/cursor.go:40-47 | an unguarded cursor write keeps the claim if and only if it failed, wrote 0, or stays within what was fetched |
| `Backfill.Listener.HandleLog` | internal/provider/blockchain/subscriber.go:92-138 | the subscriber moves the cursor only after inserting a row that was not there, and always does when every call works; the claim survives if and only if it did not move it or the block lies within what the scanner fetched |
| `Backfill.NextTickSkips` | internal/provider/blockchain/subscriber.go:134-137 | a tick that finds the cursor past a log starts there, takes the cursor to the head, asks for no window that holds the log and stores no row for it |
| `Backfill.SubscriberSkipsBlocks` | internal/provider/blockchain/subscriber.go:125-138 | a concrete chain on which, with every call working, the subscriber and one tick leave a payment of a known order without a row although the cursor is past its block; the tick did not ask for that block |
| `Parser.ScanTrimZero` | internal/provider/blockchain/parser.go:43-50 | the scan returns everything from the first non-zero byte on |
| `Parser.TrimUndoesPadIff` | internal/provider/blockchain/parser.go:43-50 | trimming a word gives o if and only if the word is o left-padded and o does not begin with a zero byte |
| `Parser.ParseUndoesEmitIff` | internal/provider/blockchain/parser.go:27-41 | parsing an emitted log gives back payer, token and every amount below 2^256, and the order id if and only if it does not begin with a zero byte |
| `Parser.ValidOrderIdsSurvive` | internal/provider/blockchain/parser.go:35 | every valid order id of at most 32 bytes comes back and no two are confused |
| `Parser.ParseIsFaithful` | internal/provider/blockchain/parser.go:27-41 | a log is refused exactly for too few topics or too little data; a parsed event determines the order and amount words and the address bytes of the payer and token words |
| `Consumer.Session.HandleOne` | internal/consumer/settlement_consumer.go:73-106 | success is exactly that the message decodes and its merchant has no callback, or has a secret and answers 2xx to one of maxAttempts requests before a cancellation; it settles exactly this message and takes exactly the calls that says; a message that decoded and failed has nothing to sign with, was refused maxAttempts times in a row, or was canceled after a refusal |
| `Consumer.AnsweredIff` | internal/consumer/settlement_consumer.go:92-105 | the attempts end with a 2xx answer if and only if one of the first n calls is the first to be answered so, with no cancellation before it |
| `Consumer.AllAreMade` | internal/consumer/settlement_consumer.go:92-105 | without a cancellation, attempts that end without a 2xx answer number exactly maxAttempts |
| `Consumer.Session.Handle` | internal/consumer/settlement_consumer.go:62-71 | the pass handles the messages in order up to the first that is not accepted and takes exactly those calls; it succeeds exactly when all are accepted, which settles them; each is sent at most maxAttempts times |
| `Consumer.Session.FetchBatch` | internal/kafka/consumer.go:120-144 | a batch is as many consecutive offsets as the script lets arrive; the error is that of the fetch that ended it, except a deadline after the first message; what arrived before a broken fetch is dropped and nothing else is |
| `Consumer.Session.Process` | internal/kafka/consumer.go:94-116 | one pass over the batch and, only if that fails, each message on its own with a hand-over for every one not accepted, then one commit; it takes exactly those calls; every message is settled before the commit after at most 2 * maxAttempts requests |
| `Consumer.Session.Turn` | internal/kafka/consumer.go:74-118 | one turn fetches a batch; unless a fetch ends the session it settles all of it as `Process` says and passes it to commit, or after a broken fetch drops all of it and commits nothing; the session stops exactly on cancellation or another fetch error |
| `Consumer.Session.Run` | internal/kafka/consumer.go:74-118 | every offset up to the last finished batch is settled or dropped, never both, after at most 2 * maxAttempts requests, and nothing else is; if every call works each turn commits a full batch |
| `Consumer.Session.CoverageIff` | internal/kafka/consumer.go:133-140 | a session's commits cover every offset below them if and only if the committed offset is at most the first offset that was fetched when a fetch broke |
| `Consumer.Session.CoverageWithoutDrop` | internal/kafka/consumer.go:94-144 | a session that dropped nothing below its committed offset settled every offset below it |
| `Consumer.LosesAMessage` | internal/kafka/consumer.go:133-140 | a concrete script, a message and then a broken fetch, after which the consumer resumes from offset 2 and offset 0, which it had fetched, was dropped and never settled |
| `Consumer.Sessions` | internal/kafka/consumer.go:74-155 | over sessions in turn on one log that carries the script's answers: every committed message was fetched and settled before its commit; a request follows a lookup or a refusal while attempts are left; only a message that did not decode, has nothing to sign with, was refused maxAttempts times in a row or was canceled after a refusal is handed to the dead-letter writer; each session sends a message at most 2 * maxAttempts times; if no fetch broke a batch, every offset below the committed one was answered 2xx, had no callback or was handed over; if every call works, every turn commits a full batch |
| `Caches.MerchantCache.Get` | internal/repository/merchant_repo.go:179-190 | a hit is the latest value put under the key and is within its lifetime |
| `Caches.MerchantCache.Put` | internal/repository/merchant_repo.go:192-208 | the cache stays within capacity and a full one gives up an entry with the earliest expiry |
| `Caches.MerchantCache.FindOldest` | internal/repository/merchant_repo.go:197-205 | for any iteration order the scan with its zero-time marker finds an entry of earliest expiry |
| `Caches.UrlCache.Get` | internal/cache/url_cache.go:35-43 | a hit is the latest URL put for the order, not invalidated since, within its lifetime |
| `Caches.UrlCache.Put` | internal/cache/url_cache.go:45-65 | the cache stays within capacity, loses at most one other entry, and an expired one if there is any |
| `Caches.UrlCache.Invalidate` | internal/cache/url_cache.go:67-71 | the order has no entry until it is put again |
| `Domain.ValidateOrderId` | internal/domain/transaction.go:62-79 | the loop accepts exactly the valid order ids and reports the first bad position |
| `Codec.BucketSurvives` | internal/repository/codec.go:105-117 | a stored method reads back lower-cased or as unknown, and its crypto bucket survives exactly for crypto_eth and non-crypto names |
| `Codec.CurrencyRoundTrip` | internal/repository/codec.go:153-167 | every known currency reads back upper-cased |
| `Codec.InvertTable` | internal/repository/codec.go:145-151 | the start-up loop gives an inverse if and only if the table is injective |
| `Codec.HexLower` | internal/repository/transaction_repo.go:466-474 | the lower-case text decodes back to the bytes |
| `Codec.DecodeHexKeepsText` | internal/repository/codec.go:171-180 | hex text is determined by its bytes up to letter case |
| `Codec.ScanRow` | internal/repository/transaction_repo.go:405-446 | a scan fails exactly for unknown codes and otherwise returns the row's fields decoded |
| `Codec.InsertThenScan` | internal/repository/transaction_repo.go:72-121 | insert then scan succeeds exactly for valid transactions and gives back the same merchant, order, amount and status, the upper-cased currency and the lower-cased id |

## Left out

- HTTP handlers, middleware, pages, metrics, logging, configuration, migrations and deployment: no hard property there.
- SHA-256, HMAC, checkout tokens and Stripe signature checks: the digest is a parameter assumed collision-free.
- The circuit breaker: its state machine is in a library.
- Floating-point rounding in the token bucket script: tokens are reals.
- Rounding of sliding-window scores: times are exact integers, while nanosecond scores above 2^53 lose their low digits in Lua and Redis.
- Unicode case mapping: upper and lower case are ASCII, which covers currencies, methods and hex.
- Database collation: SQL string equality is exact.
- The pools of the payment machine are one table keyed by transaction id; that updates reach the right pool is proved in `Sharding` and `PendingScan`.
- The webhook dedupe key's lifetime: the machine lets any event be delivered again, so its theorems do not rest on it; eventual delivery is not claimed.
- `CreateRefund`, the reconstructed URLs in `Create` replies and the truncation of timestamps to seconds: they would add only easy members.
- An eager session racing a lazy one on one order: the two paths use different idempotency keys, so the session theorems are for lazy orders.
- The request of the eager flow's session call: the payment machine has only that it is made, and by whom; the request of the lazy flow is modelled.
- The lifetime of idempotency keys at Stripe: a replaying provider replays for ever.
- JSON decoding: whether a message decodes is a parameter.
- Kafka rebalancing and several partitions: offsets are those of one partition, without gaps.
- Context cancellation inside handlers other than the consumer: a canceled call is a failed call.
- PaymentHandlers.Gateway.Others: does nothing itself; its contract, which is all its callers see, allows any moves of other processes.
- CheckoutHandlers.Resolver.Others: does nothing itself; its contract allows any actions of other calls, the clock and other writers.
- PaymentHandlers.Gateway.Process: a failed event publishes nothing, as in the code; a delivery whose handler fails is not retried by this model.
- TokenBucket.ExpiryIsInvisible: the skew bound is on how far Redis's clock gains on the callers' between consecutive calls.
- Backfill.Listener.Tick: the batch size is at least 1 and no reported head comes within a batch of 2^64; `WindowAdvancesIff` says exactly when a window moves on in general.
- Backfill.CatchUp: other processes may add orders and rows before every call but move the cursor only within what was fetched; what a move past it does is `SubscriberSkipsBlocks`.
