/** The chain listener's catch-up: the backfill scanner walks block windows from the stored
    cursor to the head and stores a row per transaction, while the subscriber stores rows
    of its own and moves the same cursor without comparing. What the outside world
    answers, and what other processes do meanwhile, is a script given beforehand. */
module Backfill {
  import opened Domain

  /** What a log says once parsed. */
  datatype Event = Event(order: string, payer: string, token: string, amount: nat)

  /** A log of the contract; `event` is `None` when it does not parse. */
  datatype Log = Log(block: nat, tx: string, event: Option<Event>)

  /** A stored row, apart from the confirmation fields the tracker owns. */
  datatype Row = Row(block: nat, merchant: string, event: Event)

  /** An inclusive block range asked of the node. */
  datatype Window = Window(first: nat, last: nat)

  // --- windows ---------------------------------------------------------------

  /** The end of the window that starts at `from`, in unsigned 64-bit arithmetic. */
  function WindowEnd(from: nat, batch: nat, head: nat): nat {
    var to := (from + batch) % TWO_64;
    if to > head then head else to
  }

  /** The walk moves on exactly when the batch is not empty and the sum does not wrap. */
  lemma WindowAdvancesIff(from: nat, batch: nat, head: nat)
    requires from < head < TWO_64 && batch < TWO_64
    ensures WindowEnd(from, batch, head) > from <==> batch >= 1 && from + batch < TWO_64
  {
    if from + batch >= TWO_64 {
      assert (from + batch) % TWO_64 == from + batch - TWO_64;
    }
  }

  /** The windows of an undisturbed walk. */
  function Plan(from: nat, batch: nat, head: nat): seq<Window>
    requires batch >= 1 && head + batch <= TWO_64
    decreases head - from
  {
    if from >= head then []
    else
      WindowAdvancesIff(from, batch, head);
      var to := WindowEnd(from, batch, head);
      [Window(from, to)] + Plan(to, batch, head)
  }

  ghost predicate Asked(windows: seq<Window>, block: nat) {
    exists i :: 0 <= i < |windows| && windows[i].first <= block <= windows[i].last
  }

  /** The windows of a walk ask for every block from its start to the head and no other. */
  lemma {:induction false} PlanCoversExactly(from: nat, batch: nat, head: nat, block: nat)
    requires batch >= 1 && head + batch <= TWO_64 && from < head
    ensures Asked(Plan(from, batch, head), block) <==> from <= block <= head
    decreases head - from
  {
    WindowAdvancesIff(from, batch, head);
    var to := WindowEnd(from, batch, head);
    var rest := Plan(to, batch, head);
    AskedFirst(Window(from, to), rest, block);
    if to < head {
      PlanCoversExactly(to, batch, head, block);
    }
  }

  lemma AskedFirst(w: Window, rest: seq<Window>, block: nat)
    ensures Asked([w] + rest, block) <==> w.first <= block <= w.last || Asked(rest, block)
  {
    var all := [w] + rest;
    assert all[0] == w;
    assert forall i | 0 <= i < |rest| :: all[i + 1] == rest[i];
    assert forall i | 1 <= i < |all| :: all[i] == rest[i - 1];
  }

  function Max(a: nat, b: nat): nat { if a < b then b else a }

  /** Where the first `n` windows of the plan leave the walk. */
  function Reached(from: nat, windows: seq<Window>): nat {
    if windows == [] then from else windows[|windows| - 1].last
  }

  lemma {:induction false} PlanStep(from: nat, batch: nat, head: nat, windows: seq<Window>)
    requires batch >= 1 && head + batch <= TWO_64 && windows <= Plan(from, batch, head)
    ensures from <= Reached(from, windows) && (Reached(from, windows) >= head <==> windows == Plan(from, batch, head))
    ensures from <= head ==> Reached(from, windows) <= head
    ensures windows < Plan(from, batch, head) ==>
              windows + [Window(Reached(from, windows), WindowEnd(Reached(from, windows), batch, head))]
              <= Plan(from, batch, head)
    decreases head - from
  {
    if windows != [] {
      WindowAdvancesIff(from, batch, head);
      var to := WindowEnd(from, batch, head);
      assert windows[0] == Window(from, to);
      PlanStep(to, batch, head, windows[1..]);
      assert windows == [windows[0]] + windows[1..];
      assert Reached(to, windows[1..]) == Reached(from, windows);
    }
  }

  // --- what the node returns -------------------------------------------------

  function LogsIn(chain: seq<Log>, w: Window): seq<Log> {
    if chain == [] then []
    else
      var rest := LogsIn(chain[..|chain| - 1], w);
      var lg := chain[|chain| - 1];
      if w.first <= lg.block <= w.last then rest + [lg] else rest
  }

  lemma {:induction false} LogsInHolds(chain: seq<Log>, w: Window, lg: Log)
    ensures lg in LogsIn(chain, w) <==> lg in chain && w.first <= lg.block <= w.last
  {
    if chain != [] {
      LogsInHolds(chain[..|chain| - 1], w, lg);
      assert chain == chain[..|chain| - 1] + [chain[|chain| - 1]];
    }
  }

  // --- the outside world -----------------------------------------------------

  datatype Call =
    | GetCursor | GetHead | Fetch(window: Window)
    | GetRow(tx: string) | GetOrder(tx: string) | CreateRow(tx: string)
    | PutCursor(block: nat)

  /** What another process does between two calls. */
  datatype Aside =
    | NewOrder(order: string, merchant: string)
    | NewRow(lg: Log, merchant: string)
    | MoveCursor(block: nat)

  /** The answer to one call: what others did before it, whether it worked, and the head the
      node reports if that was asked. */
  datatype Answer = Answer(asides: seq<Aside>, ok: bool, head: nat)

  /** The answer to each call, in order. */
  type Script = nat -> Answer

  /** The windows fetched by the calls from `lo` up to `hi`. */
  function FetchedIn(script: Script, calls: seq<Call>, lo: nat, hi: nat): seq<Window>
    requires lo <= hi <= |calls|
    decreases hi
  {
    if lo == hi then []
    else FetchedIn(script, calls, lo, hi - 1)
         + if calls[hi - 1].Fetch? && script(hi - 1).ok then [calls[hi - 1].window] else []
  }

  /** The blocks those calls tried to store as the cursor. */
  function PutIn(calls: seq<Call>, lo: nat, hi: nat): seq<nat>
    requires lo <= hi <= |calls|
    decreases hi
  {
    if lo == hi then [] else PutIn(calls, lo, hi - 1) + if calls[hi - 1].PutCursor? then [calls[hi - 1].block] else []
  }

  /** None of the reads a walk depends on failed. */
  ghost predicate ReadsWorked(script: Script, calls: seq<Call>, lo: nat, hi: nat)
    requires hi <= |calls|
  {
    forall n | lo <= n < hi && (calls[n].GetCursor? || calls[n].GetHead? || calls[n].Fetch?) :: script(n).ok
  }

  /** The order lookup or the insert for a transaction failed. */
  ghost predicate Lost(script: Script, calls: seq<Call>, tx: string) {
    exists n :: 0 <= n < |calls| && (calls[n] == GetOrder(tx) || calls[n] == CreateRow(tx)) && !script(n).ok
  }

  lemma LostGrows(script: Script, before: seq<Call>, after: seq<Call>)
    requires before <= after
    ensures forall tx | Lost(script, before, tx) :: Lost(script, after, tx)
  {
    forall tx | Lost(script, before, tx) ensures Lost(script, after, tx) {
      var n :| 0 <= n < |before| && (before[n] == GetOrder(tx) || before[n] == CreateRow(tx)) && !script(n).ok;
      assert after[n] == before[n];
    }
  }

  ghost predicate RowCallsOnly(calls: seq<Call>, lo: nat) {
    forall n | lo <= n < |calls| :: calls[n].GetRow? || calls[n].GetOrder? || calls[n].CreateRow?
  }

  lemma {:induction false} RowCallsFetchNothing(script: Script, calls: seq<Call>, lo: nat, mid: nat, hi: nat)
    requires lo <= mid <= hi <= |calls| && RowCallsOnly(calls, mid)
    ensures FetchedIn(script, calls, lo, hi) == FetchedIn(script, calls, lo, mid)
    ensures PutIn(calls, lo, hi) == PutIn(calls, lo, mid)
    ensures ReadsWorked(script, calls, lo, hi) <==> ReadsWorked(script, calls, lo, mid)
  {
    if mid < hi {
      RowCallsFetchNothing(script, calls, lo, mid, hi - 1);
    }
  }

  /** The calls of one turn of the window loop. */
  ghost predicate Turn(script: Script, calls: seq<Call>, lo: nat, hi: nat, w: Window, fetched: bool) {
    && lo < hi == |calls| && calls[lo] == Fetch(w) && fetched == script(lo).ok
    && if fetched
       then lo + 1 < hi && calls[hi - 1] == PutCursor(w.last) && RowCallsOnly(calls[..hi - 1], lo + 1)
       else hi == lo + 1
  }

  /** The last call is a cursor write, and row calls come before it down to `mid`. */
  lemma PutAdds(script: Script, calls: seq<Call>, base: nat, mid: nat, hi: nat)
    requires base <= mid < hi == |calls| && calls[hi - 1].PutCursor? && RowCallsOnly(calls[..hi - 1], mid)
    ensures FetchedIn(script, calls, base, hi) == FetchedIn(script, calls, base, mid)
    ensures PutIn(calls, base, hi) == PutIn(calls, base, mid) + [calls[hi - 1].block]
    ensures ReadsWorked(script, calls, base, hi) <==> ReadsWorked(script, calls, base, mid)
  {
    RowCallsBetween(script, calls, base, mid, hi - 1);
    LastPut(script, calls, base, hi);
  }

  lemma RowCallsBetween(script: Script, calls: seq<Call>, base: nat, mid: nat, hi: nat)
    requires base <= mid <= hi <= |calls| && RowCallsOnly(calls[..hi], mid)
    ensures FetchedIn(script, calls, base, hi) == FetchedIn(script, calls, base, mid)
    ensures PutIn(calls, base, hi) == PutIn(calls, base, mid)
    ensures ReadsWorked(script, calls, base, hi) <==> ReadsWorked(script, calls, base, mid)
  {
    RowCallsFetchNothing(script, calls[..hi], base, mid, hi);
    HistoryIsFixed(script, calls[..hi], calls, base, mid);
    HistoryIsFixed(script, calls[..hi], calls, base, hi);
  }

  lemma LastPut(script: Script, calls: seq<Call>, base: nat, hi: nat)
    requires base < hi <= |calls| && calls[hi - 1].PutCursor?
    ensures FetchedIn(script, calls, base, hi) == FetchedIn(script, calls, base, hi - 1)
    ensures PutIn(calls, base, hi) == PutIn(calls, base, hi - 1) + [calls[hi - 1].block]
    ensures ReadsWorked(script, calls, base, hi) <==> ReadsWorked(script, calls, base, hi - 1)
  {
  }

  lemma TurnAdds(script: Script, calls: seq<Call>, base: nat, lo: nat, hi: nat, w: Window, fetched: bool)
    requires base <= lo && Turn(script, calls, lo, hi, w, fetched)
    ensures FetchedIn(script, calls, base, hi) == FetchedIn(script, calls, base, lo) + if fetched then [w] else []
    ensures PutIn(calls, base, hi) == PutIn(calls, base, lo) + if fetched then [w.last] else []
    ensures ReadsWorked(script, calls, base, hi) <==> ReadsWorked(script, calls, base, lo) && fetched
  {
    FetchAdds(script, calls, base, lo);
    if fetched {
      PutAdds(script, calls, base, lo + 1, hi);
    }
  }

  lemma FetchAdds(script: Script, calls: seq<Call>, base: nat, lo: nat)
    requires base <= lo < |calls| && calls[lo].Fetch?
    ensures FetchedIn(script, calls, base, lo + 1)
            == FetchedIn(script, calls, base, lo) + if script(lo).ok then [calls[lo].window] else []
    ensures PutIn(calls, base, lo + 1) == PutIn(calls, base, lo)
    ensures ReadsWorked(script, calls, base, lo + 1) <==> ReadsWorked(script, calls, base, lo) && script(lo).ok
  {
  }

  lemma {:induction false} HistoryIsFixed(script: Script, calls: seq<Call>, later: seq<Call>, lo: nat, hi: nat)
    requires lo <= hi <= |calls| && calls <= later
    ensures FetchedIn(script, later, lo, hi) == FetchedIn(script, calls, lo, hi)
    ensures PutIn(later, lo, hi) == PutIn(calls, lo, hi)
    ensures ReadsWorked(script, later, lo, hi) <==> ReadsWorked(script, calls, lo, hi)
  {
    if lo < hi {
      HistoryIsFixed(script, calls, later, lo, hi - 1);
    }
  }

  // --- the listener's tables -------------------------------------------------

  /** An order id, which several merchants may use. */
  type Orders = map<string, set<string>>

  ghost predicate Grows(before: Orders, after: Orders) {
    forall o | o in before :: o in after && before[o] <= after[o]
  }

  /** Rows are only ever added. */
  ghost predicate Keeps(before: map<string, Row>, after: map<string, Row>) {
    forall tx | tx in before :: tx in after && after[tx] == before[tx]
  }

  /** The log parses and pays one of these orders. */
  predicate Pays(lg: Log, orders: set<string>) {
    lg.event.Some? && lg.event.value.order in orders
  }

  ghost predicate Sourced(chain: seq<Log>, orders: Orders, tx: string, row: Row) {
    && Log(row.block, tx, Some(row.event)) in chain
    && row.event.order in orders && row.merchant in orders[row.event.order]
  }

  /** Every transaction in `after` and not in `before` has a log in these blocks. */
  ghost predicate RowsFrom(chain: seq<Log>, before: set<string>, after: set<string>, first: nat, last: nat) {
    forall tx | tx in after && tx !in before :: exists lg :: lg in chain && lg.tx == tx && first <= lg.block <= last
  }

  lemma RowsFromOn(chain: seq<Log>, a: set<string>, b: set<string>, c: set<string>, first: nat, at: nat, to: nat,
                   last: nat)
    requires RowsFrom(chain, a, b, first, last) && RowsFrom(chain, b, c, at, to) && first <= at && to <= last
    ensures RowsFrom(chain, a, c, first, last)
  {
    forall tx | tx in c && tx !in a ensures exists lg :: lg in chain && lg.tx == tx && first <= lg.block <= last {
      if tx !in b {
        var lg :| lg in chain && lg.tx == tx && at <= lg.block <= to;
      }
    }
  }

  lemma RowsFromAdd(chain: seq<Log>, before: set<string>, mid: set<string>, after: set<string>, lg: Log, first: nat,
                    last: nat)
    requires RowsFrom(chain, before, mid, first, last) && after <= mid + {lg.tx}
    requires lg in chain && first <= lg.block <= last
    ensures RowsFrom(chain, before, after, first, last)
  {
  }

  /** The log has its row if it pays one of these orders, unless a call for it failed. */
  ghost predicate Kept(script: Script, calls: seq<Call>, rows: set<string>, lg: Log, known: set<string>) {
    Pays(lg, known) ==> lg.tx in rows || Lost(script, calls, lg.tx)
  }

  ghost predicate AllKept(script: Script, calls: seq<Call>, rows: set<string>, logs: seq<Log>, known: set<string>) {
    forall lg | lg in logs :: Kept(script, calls, rows, lg, known)
  }

  lemma KeptGrows(script: Script, calls: seq<Call>, later: seq<Call>, rows: set<string>, more: set<string>,
                  logs: seq<Log>, lg: Log, known: set<string>)
    requires AllKept(script, calls, rows, logs, known) && calls <= later && rows <= more
    requires Kept(script, later, more, lg, known)
    ensures AllKept(script, later, more, logs + [lg], known)
  {
    LostGrows(script, calls, later);
  }

  /** For each block, the order ids known when it was last fetched; `None` if it never was. */
  type Fetches = nat -> Option<set<string>>

  /** Every block of the range was fetched while `known` were known. */
  ghost predicate FetchedWith(seen: Fetches, first: nat, last: nat, known: set<string>) {
    forall b: nat | first <= b <= last :: seen(b).Some? && known <= seen(b).value
  }

  /** Each block is as it was, or lies in the range and was fetched with `known` known. */
  ghost predicate Refetched(before: Fetches, after: Fetches, first: nat, last: nat, known: set<string>) {
    forall b: nat :: after(b) == before(b) || (first <= b <= last && after(b).Some? && known <= after(b).value)
  }

  lemma FetchedOn(a: Fetches, b: Fetches, c: Fetches, first: nat, mid: nat, last: nat, known: set<string>,
                  later: set<string>)
    requires Refetched(a, b, first, mid, known) && (first < mid ==> FetchedWith(b, first, mid, known))
    requires Refetched(b, c, mid, last, later) && FetchedWith(c, mid, last, later)
    requires known <= later && first <= mid <= last
    ensures Refetched(a, c, first, last, known) && FetchedWith(c, first, last, known)
  {
  }

  function Ends(windows: seq<Window>): (ends: seq<nat>)
    ensures |ends| == |windows|
  {
    seq(|windows|, i requires 0 <= i < |windows| => windows[i].last)
  }

  lemma EndsAdd(windows: seq<Window>, w: Window)
    ensures Ends(windows + [w]) == Ends(windows) + [w.last]
  {
  }

  /** Where the asides leave the cursor: within `frontier`, if they move it at all. */
  function MovedBy(asides: seq<Aside>, cursor: nat, frontier: int): (moved: nat)
    ensures moved == cursor || moved <= frontier
  {
    if asides == [] then cursor
    else
      var last := asides[|asides| - 1];
      if last.MoveCursor? && last.block <= frontier then last.block
      else MovedBy(asides[..|asides| - 1], cursor, frontier)
  }

  /** The calls from `lo` on read the cursor and, if that worked, the head. */
  ghost predicate BoundsRead(script: Script, calls: seq<Call>, lo: nat, head: Option<nat>) {
    && lo < |calls| && calls[lo] == GetCursor
    && if !script(lo).ok then |calls| == lo + 1 && head == None
       else |calls| == lo + 2 && calls[lo + 1] == GetHead
            && head == if script(lo + 1).ok then Some(script(lo + 1).head) else None
  }

  /** One tick: its calls, where it started, whether every read worked, the windows it fetched
      and the order ids known when it began. */
  datatype Round = Round(lo: nat, hi: nat, from: nat, done: bool, windows: seq<Window>, known: set<string>)

  /** The tick read the cursor, then the head, then fetched the planned windows and stored
      their ends in turn, up to the first read that failed. */
  ghost predicate Ticked(script: Script, batch: nat, calls: seq<Call>, r: Round) {
    && r.lo < r.hi <= |calls| && calls[r.lo] == GetCursor
    && r.windows == FetchedIn(script, calls, r.lo, r.hi) && PutIn(calls, r.lo, r.hi) == Ends(r.windows)
    && (r.done <==> ReadsWorked(script, calls, r.lo, r.hi))
    && (if !script(r.lo).ok then r.windows == []
        else
          && r.lo + 1 < r.hi && calls[r.lo + 1] == GetHead
          && if !script(r.lo + 1).ok then r.windows == [] else FollowsPlan(r, batch, script(r.lo + 1).head))
  }

  ghost predicate FollowsPlan(r: Round, batch: nat, head: nat) {
    && batch >= 1 && head + batch <= TWO_64
    && r.windows <= Plan(r.from, batch, head) && (r.done <==> r.windows == Plan(r.from, batch, head))
  }

  /** A tick whose reads all worked asked for every block from its start to the head the node
      reported, and no other; if there were any to ask for. */
  lemma DoneCoversExactly(script: Script, batch: nat, calls: seq<Call>, r: Round, block: nat)
    requires Ticked(script, batch, calls, r) && r.done && r.from < script(r.lo + 1).head
    ensures Asked(r.windows, block) <==> r.from <= block <= script(r.lo + 1).head
  {
    PlanCoversExactly(r.from, batch, script(r.lo + 1).head, block);
  }

  lemma TickedStays(script: Script, batch: nat, calls: seq<Call>, later: seq<Call>, r: Round)
    requires Ticked(script, batch, calls, r) && calls <= later
    ensures Ticked(script, batch, later, r)
  {
    HistoryIsFixed(script, calls, later, r.lo, r.hi);
  }

  datatype Snapshot = Snapshot(seen: Fetches, rows: set<string>, orders: Orders, frontier: int, sound: bool)

  class Listener {
    /** The chain, fixed; the node may report any head. */
    const chain: seq<Log>
    const startBlock: nat
    const batch: nat
    const script: Script

    var rows: map<string, Row>
    var orders: Orders
    /** The stored block number; 0 when none is stored. */
    var cursor: nat
    /** Calls made so far. */
    var calls: seq<Call>
    /** Every block from `startBlock` to here has been fetched. */
    var frontier: int
    ghost var seen: Fetches

    constructor (chain: seq<Log>, startBlock: nat, batch: nat, script: Script, orders: Orders)
      requires batch >= 1 && (forall n :: script(n).head + batch <= TWO_64) && forall o | o in orders :: orders[o] != {}
      ensures Valid() && Sound() && calls == [] && rows == map[] && cursor == 0 && frontier == startBlock - 1
      ensures forall b: nat :: seen(b).None?
      ensures this.chain == chain && this.startBlock == startBlock && this.batch == batch
      ensures this.script == script && this.orders == orders
    {
      this.chain, this.startBlock, this.batch, this.script := chain, startBlock, batch, script;
      this.orders, rows, cursor, calls := orders, map[], 0, [];
      frontier, seen := startBlock - 1, (b: nat) => None;
    }

    /** A log whose block was fetched when its order was known has a row, unless a call for
        it failed. */
    ghost predicate Stored(lg: Log)
      reads this
    {
      seen(lg.block).Some? && Pays(lg, seen(lg.block).value) ==> lg.tx in rows || Lost(script, calls, lg.tx)
    }

    ghost predicate Valid()
      reads this
    {
      && batch >= 1 && (forall n :: script(n).head + batch <= TWO_64) && (forall o | o in orders :: orders[o] != {})
      && startBlock - 1 <= frontier
      && (forall b: nat | startBlock <= b <= frontier :: seen(b).Some?)
      && (forall b: nat | seen(b).Some? :: seen(b).value <= orders.Keys)
      && (forall lg | lg in chain :: Stored(lg))
      && (forall tx | tx in rows :: Sourced(chain, orders, tx, rows[tx]))
    }

    /** The cursor claims no block that has not been fetched. */
    ghost predicate Covered()
      reads this
    {
      cursor != 0 ==> forall b: nat | startBlock <= b <= cursor :: seen(b).Some?
    }

    /** Nothing past the frontier was fetched, and the cursor is within it. */
    ghost predicate Sound()
      reads this
    {
      (forall b: nat | seen(b).Some? :: b <= frontier) && (cursor == 0 || cursor <= frontier)
    }

    /** What every call keeps. */
    twostate predicate Onward()
      reads this
    {
      old(calls) <= calls && Grows(old(orders), orders) && Keeps(old(rows), rows)
    }

    /** No other process did anything since call `lo`. */
    ghost predicate Undisturbed(lo: nat)
      reads this
    {
      forall n | lo <= n < |calls| :: script(n).asides == []
    }

    /** One aside of another process: a new order, a row stored from a log of the chain, or
        the cursor moved within what has been fetched. */
    method OneAside(a: Aside)
      requires Valid()
      modifies this`rows, this`orders, this`cursor
      ensures Valid() && Onward() && (old(Sound()) ==> Sound()) && cursor == MovedBy([a], old(cursor), frontier)
    {
      match a
      case NewOrder(order, merchant) =>
        orders := orders[order := {merchant} + if order in orders then orders[order] else {}];
      case NewRow(lg, merchant) =>
        if lg in chain && lg.tx !in rows && Pays(lg, orders.Keys) && merchant in orders[lg.event.value.order] {
          rows := rows[lg.tx := Row(lg.block, merchant, lg.event.value)];
        }
      case MoveCursor(block) =>
        if block <= frontier {
          cursor := block;
        }
    }

    method Asides(asides: seq<Aside>)
      requires Valid()
      modifies this`rows, this`orders, this`cursor
      ensures Valid() && Onward() && (old(Sound()) ==> Sound()) && cursor == MovedBy(asides, old(cursor), frontier)
      ensures asides == [] ==> rows == old(rows) && orders == old(orders)
    {
      for i := 0 to |asides|
        invariant Valid() && Onward() && (old(Sound()) ==> Sound())
                  && cursor == MovedBy(asides[..i], old(cursor), frontier)
        invariant i == 0 ==> rows == old(rows) && orders == old(orders)
      {
        assert asides[..i + 1][..i] == asides[..i];
        OneAside(asides[i]);
      }
      assert asides[..|asides|] == asides;
    }

    /** One call: what others did first, then the answer. */
    method Invoke(k: Call) returns (a: Answer)
      requires Valid()
      modifies this`rows, this`orders, this`cursor, this`calls
      ensures Valid() && Onward() && (old(Sound()) ==> Sound()) && a == script(|old(calls)|)
              && calls == old(calls) + [k]
      ensures cursor == MovedBy(a.asides, old(cursor), frontier)
      ensures a.asides == [] ==> rows == old(rows) && orders == old(orders)
    {
      a := script(|calls|);
      Asides(a.asides);
      LostGrows(script, calls, calls + [k]);
      calls := calls + [k];
    }

    // --- one log -------------------------------------------------------------

    /** Insert under the unique transaction hash. `taken` says the row was stored now. */
    method Store(lg: Log, merchant: string) returns (taken: bool)
      requires Valid() && lg in chain && Pays(lg, orders.Keys) && merchant in orders[lg.event.value.order]
      modifies this`rows, this`orders, this`cursor, this`calls
      ensures Valid() && Onward() && (old(Sound()) ==> Sound()) && calls == old(calls) + [CreateRow(lg.tx)]
      ensures taken ==> lg.tx !in old(rows) && lg.tx in rows && rows[lg.tx] == Row(lg.block, merchant, lg.event.value)
      ensures lg.tx in rows || !script(|old(calls)|).ok
      ensures script(|old(calls)|).asides == [] ==>
                taken == (script(|old(calls)|).ok && lg.tx !in old(rows)) && orders == old(orders)
                && rows.Keys == old(rows.Keys) + (if taken then {lg.tx} else {})
    {
      var a := Invoke(CreateRow(lg.tx));
      taken := a.ok && lg.tx !in rows;
      if taken {
        rows := rows[lg.tx := Row(lg.block, merchant, lg.event.value)];
      }
    }

    /** The lookup of an order id under any merchant. */
    method FindMerchant(lg: Log) returns (answered: bool, merchant: Option<string>)
      requires Valid() && lg.event.Some?
      modifies this`rows, this`orders, this`cursor, this`calls
      ensures Valid() && Onward() && (old(Sound()) ==> Sound()) && calls == old(calls) + [GetOrder(lg.tx)]
      ensures answered == script(|old(calls)|).ok
      ensures merchant.Some? <==> Pays(lg, orders.Keys)
      ensures merchant.Some? ==> merchant.value in orders[lg.event.value.order]
      ensures script(|old(calls)|).asides == [] ==> rows == old(rows) && orders == old(orders)
    {
      var a := Invoke(GetOrder(lg.tx));
      answered, merchant := a.ok, None;
      if lg.event.value.order in orders {
        var m :| m in orders[lg.event.value.order];
        merchant := Some(m);
      }
    }

    lemma FailedIsLost(n: nat, tx: string)
      requires n < |calls| && (calls[n] == GetOrder(tx) || calls[n] == CreateRow(tx)) && !script(n).ok
      ensures Lost(script, calls, tx)
    {
    }

    /** One log of a window: dedupe, parse, find the order, insert. A failed dedupe lookup
        does no harm; a failed order lookup or insert loses the log. */
    method Persist(lg: Log)
      requires Valid() && lg in chain
      modifies this`rows, this`orders, this`cursor, this`calls
      ensures Valid() && Onward() && (old(Sound()) ==> Sound()) && RowCallsOnly(calls, |old(calls)|)
      ensures Pays(lg, old(orders.Keys)) ==> lg.tx in rows || Lost(script, calls, lg.tx)
      ensures Undisturbed(|old(calls)|) ==> orders == old(orders) && rows.Keys <= old(rows.Keys) + {lg.tx}
    {
      var a := Invoke(GetRow(lg.tx));
      assert calls[|old(calls)|] == GetRow(lg.tx);
      if a.ok && lg.tx in rows {
        return;
      }
      if lg.event.None? {
        return;
      }
      FindAndStore(lg);
    }

    method FindAndStore(lg: Log)
      requires Valid() && lg in chain && lg.event.Some?
      modifies this`rows, this`orders, this`cursor, this`calls
      ensures Valid() && Onward() && (old(Sound()) ==> Sound()) && RowCallsOnly(calls, |old(calls)|)
      ensures Pays(lg, old(orders.Keys)) ==> lg.tx in rows || Lost(script, calls, lg.tx)
      ensures Undisturbed(|old(calls)|) ==> orders == old(orders) && rows.Keys <= old(rows.Keys) + {lg.tx}
    {
      var at := |calls|;
      var answered, merchant := FindMerchant(lg);
      if answered && merchant.Some? {
        at := |calls|;
        var taken := Store(lg, merchant.value);
      }
      if !script(at).ok {
        FailedIsLost(at, lg.tx);
      }
    }

    // --- windows -------------------------------------------------------------

    /** Record a fetched window once each of its logs has been dealt with. */
    method MarkFetched(w: Window, ghost known: set<string>)
      requires Valid() && w.first <= w.last && known <= orders.Keys
      requires forall lg | lg in chain && w.first <= lg.block <= w.last && Pays(lg, known) ::
                 lg.tx in rows || Lost(script, calls, lg.tx)
      modifies this`frontier, this`seen
      ensures Valid() && old(frontier) <= frontier
      ensures w.first <= old(frontier) + 1 ==> w.last <= frontier && (old(Sound()) ==> Sound())
      ensures FetchedWith(seen, w.first, w.last, known)
      ensures Refetched(old(seen), seen, w.first, w.last, known)
    {
      ghost var before := seen;
      seen := (b: nat) => if w.first <= b <= w.last then Some(known) else before(b);
      frontier := if w.first <= frontier + 1 && w.last > frontier then w.last else frontier;
    }

    /** Fetch one window and store its logs. */
    method ScanWindow(w: Window) returns (fetched: bool)
      requires Valid() && w.first <= w.last
      modifies this
      ensures Valid() && Onward() && old(frontier) <= frontier
      ensures old(calls) + [Fetch(w)] <= calls && RowCallsOnly(calls, |old(calls)| + 1)
      ensures fetched == script(|old(calls)|).ok
      ensures !fetched ==> calls == old(calls) + [Fetch(w)] && seen == old(seen) && (old(Sound()) ==> Sound())
      ensures fetched ==> FetchedWith(seen, w.first, w.last, old(orders.Keys))
      ensures fetched ==> Refetched(old(seen), seen, w.first, w.last, old(orders.Keys))
      ensures fetched && w.first <= old(frontier) + 1 ==> w.last <= frontier && (old(Sound()) ==> Sound())
      ensures Undisturbed(|old(calls)|) ==>
                orders == old(orders) && RowsFrom(chain, old(rows.Keys), rows.Keys, w.first, w.last)
    {
      var a := Invoke(Fetch(w));
      fetched := a.ok;
      if fetched {
        ghost var known := orders.Keys;
        PersistAll(w);
        MarkFetched(w, known);
      }
    }

    method PersistAll(w: Window)
      requires Valid()
      modifies this`rows, this`orders, this`cursor, this`calls
      ensures Valid() && Onward() && (old(Sound()) ==> Sound()) && RowCallsOnly(calls, |old(calls)|)
      ensures forall lg | lg in chain && w.first <= lg.block <= w.last && Pays(lg, old(orders.Keys)) ::
                lg.tx in rows || Lost(script, calls, lg.tx)
      ensures Undisturbed(|old(calls)|) ==>
                orders == old(orders) && RowsFrom(chain, old(rows.Keys), rows.Keys, w.first, w.last)
    {
      var logs := LogsIn(chain, w);
      forall lg ensures lg in logs <==> lg in chain && w.first <= lg.block <= w.last {
        LogsInHolds(chain, w, lg);
      }
      for k := 0 to |logs|
        invariant Valid() && Onward() && (old(Sound()) ==> Sound()) && RowCallsOnly(calls, |old(calls)|)
        invariant AllKept(script, calls, rows.Keys, logs[..k], old(orders.Keys))
        invariant Undisturbed(|old(calls)|) ==>
                    orders == old(orders) && RowsFrom(chain, old(rows.Keys), rows.Keys, w.first, w.last)
      {
        ghost var before, had := calls, rows.Keys;
        assert logs[k] in logs && logs[..k + 1] == logs[..k] + [logs[k]];
        Persist(logs[k]);
        KeptGrows(script, before, calls, had, rows.Keys, logs[..k], logs[k], old(orders.Keys));
        if Undisturbed(|old(calls)|) {
          RowsFromAdd(chain, old(rows.Keys), had, rows.Keys, logs[k], w.first, w.last);
        }
      }
      assert logs[..|logs|] == logs;
      assert forall lg | lg in chain && w.first <= lg.block <= w.last ::
               Kept(script, calls, rows.Keys, lg, old(orders.Keys));
    }

    // --- the walk ------------------------------------------------------------

    /** In a sound state the cursor's claim is that it stays within the frontier. */
    lemma CoveredIff()
      requires Valid() && forall b: nat | seen(b).Some? :: b <= frontier
      ensures Covered() <==> cursor == 0 || cursor <= frontier
    {
      if cursor > frontier {
        var b: nat := frontier + 1;
        assert seen(b).None?;
      }
    }

    /** The stored block is replaced without a comparison; the write may fail. From a sound
        state, the claim survives exactly when the write failed or stays within what
        was fetched. */
    method SetCursor(block: nat) returns (stored: bool)
      requires Valid()
      modifies this`rows, this`orders, this`cursor, this`calls
      ensures Valid() && Onward() && calls == old(calls) + [PutCursor(block)] && stored == script(|old(calls)|).ok
      ensures stored ==> cursor == block
      ensures script(|old(calls)|).asides == [] ==> rows == old(rows) && orders == old(orders)
      ensures old(Sound()) ==> (Covered() <==> !stored || block == 0 || block <= frontier)
      ensures old(Sound()) && (!stored || block == 0 || block <= frontier) ==> Sound()
    {
      var a := Invoke(PutCursor(block));
      stored := a.ok;
      if stored {
        cursor := block;
      }
      if old(Sound()) {
        CoveredIff();
      }
    }

    /** One turn of the window loop: scan from `at`, then store the window's end. */
    method Advance(at: nat, head: nat) returns (fetched: bool, to: nat)
      requires Valid() && at < head && head + batch <= TWO_64
      modifies this
      ensures Valid() && Onward() && old(frontier) <= frontier
      ensures to == WindowEnd(at, batch, head) && at < to
      ensures Turn(script, calls, |old(calls)|, |calls|, Window(at, to), fetched)
      ensures !fetched ==> seen == old(seen)
      ensures fetched ==> FetchedWith(seen, at, to, old(orders.Keys))
      ensures fetched ==> Refetched(old(seen), seen, at, to, old(orders.Keys))
      ensures at <= old(frontier) + 1 && old(Sound()) ==> Sound() && (fetched ==> to <= frontier)
      ensures fetched && script(|calls| - 1).ok ==> cursor == to
      ensures Undisturbed(|old(calls)|) ==> orders == old(orders) && RowsFrom(chain, old(rows.Keys), rows.Keys, at, to)
    {
      WindowAdvancesIff(at, batch, head);
      to := WindowEnd(at, batch, head);
      fetched := ScanWindow(Window(at, to));
      if fetched {
        ghost var scanned := calls;
        var stored := SetCursor(to);
        assert calls[..|calls| - 1] == scanned;
      }
    }

    /** What the calls since `lo` amount to: these windows fetched, their ends stored. */
    ghost predicate WalkedBy(lo: nat, windows: seq<Window>)
      reads this
    {
      lo <= |calls| && FetchedIn(script, calls, lo, |calls|) == windows && PutIn(calls, lo, |calls|) == Ends(windows)
    }

    lemma WalkedOn(lo: nat, before: seq<Call>, windows: seq<Window>, w: Window, fetched: bool)
      requires lo <= |before| && before <= calls && Turn(script, calls, |before|, |calls|, w, fetched)
      requires FetchedIn(script, before, lo, |before|) == windows && PutIn(before, lo, |before|) == Ends(windows)
      requires ReadsWorked(script, before, lo, |before|)
      ensures WalkedBy(lo, if fetched then windows + [w] else windows)
      ensures ReadsWorked(script, calls, lo, |calls|) <==> fetched
    {
      HistoryIsFixed(script, before, calls, lo, |before|);
      TurnAdds(script, calls, lo, |before|, |calls|, w, fetched);
      EndsAdd(windows, w);
    }

    /** The tables as they are now. */
    ghost function Now(): Snapshot
      reads this
    {
      Snapshot(seen, rows.Keys, orders, frontier, Sound())
    }

    /** A walk that began at call `lo` with the tables at `s` has fetched these windows. */
    ghost predicate Walking(s: Snapshot, lo: nat, from: nat, windows: seq<Window>)
      reads this
    {
      var at := Reached(from, windows);
      && WalkedBy(lo, windows) && from <= at && (windows != [] ==> from < at)
      && s.orders.Keys <= orders.Keys
      && (if windows == [] then seen == s.seen else FetchedWith(seen, from, at, s.orders.Keys))
      && Refetched(s.seen, seen, from, at, s.orders.Keys)
      && (s.sound && from <= s.frontier + 1 ==> Sound() && at <= frontier + 1)
      && (windows != [] && script(|calls| - 1).ok ==> cursor == at)
      && (Undisturbed(lo) ==> orders == s.orders)
    }

    lemma StartWalking(from: nat)
      ensures Walking(Now(), |calls|, from, []) && ReadsWorked(script, calls, |calls|, |calls|)
    {
      assert Ends([]) == [];
    }

    method TakeTurn(ghost s: Snapshot, ghost lo: nat, ghost from: nat, ghost windows: seq<Window>, at: nat, head: nat)
      returns (fetched: bool, to: nat)
      requires Valid() && at < head && head + batch <= TWO_64 && at == Reached(from, windows)
      requires Walking(s, lo, from, windows) && ReadsWorked(script, calls, lo, |calls|)
      requires Undisturbed(lo) ==> RowsFrom(chain, s.rows, rows.Keys, from, head)
      modifies this
      ensures Valid() && Onward() && to == WindowEnd(at, batch, head)
      ensures Walking(s, lo, from, if fetched then windows + [Window(at, to)] else windows)
      ensures ReadsWorked(script, calls, lo, |calls|) <==> fetched
      ensures Undisturbed(lo) ==> RowsFrom(chain, s.rows, rows.Keys, from, head)
    {
      ghost var before, mid := calls, Now();
      fetched, to := Advance(at, head);
      if Undisturbed(lo) {
        RowsFromOn(chain, s.rows, mid.rows, rows.Keys, from, at, to, head);
      }
      WalkingOn(s, lo, from, windows, before, mid, to, fetched);
    }

    lemma WalkingOn(s: Snapshot, lo: nat, from: nat, windows: seq<Window>, before: seq<Call>, mid: Snapshot,
                    to: nat, fetched: bool)
      requires lo <= |before| && before <= calls && ReadsWorked(script, before, lo, |before|)
      requires FetchedIn(script, before, lo, |before|) == windows && PutIn(before, lo, |before|) == Ends(windows)
      requires Turn(script, calls, |before|, |calls|, Window(Reached(from, windows), to), fetched)
      requires FetchesWent(s, mid, from, windows, to, fetched)
      requires s.sound && from <= s.frontier + 1 ==>
                 Sound() && if fetched then to <= frontier + 1 else Reached(from, windows) <= frontier + 1
      requires fetched && script(|calls| - 1).ok ==> cursor == to
      requires Undisturbed(lo) ==> orders == s.orders
      ensures Walking(s, lo, from, if fetched then windows + [Window(Reached(from, windows), to)] else windows)
      ensures ReadsWorked(script, calls, lo, |calls|) <==> fetched
    {
      var at := Reached(from, windows);
      WalkedOn(lo, before, windows, Window(at, to), fetched);
      if fetched {
        FetchedOn(s.seen, mid.seen, seen, from, at, to, s.orders.Keys, mid.orders.Keys);
      }
    }

    /** What the turn did to the record of fetches. */
    ghost predicate FetchesWent(s: Snapshot, mid: Snapshot, from: nat, windows: seq<Window>, to: nat, fetched: bool)
      reads this
    {
      var at := Reached(from, windows);
      && from <= at < to && (windows != [] ==> from < at) && s.orders.Keys <= mid.orders.Keys <= orders.Keys
      && (if windows == [] then mid.seen == s.seen else FetchedWith(mid.seen, from, at, s.orders.Keys))
      && Refetched(s.seen, mid.seen, from, at, s.orders.Keys)
      && if fetched then
           FetchedWith(seen, at, to, mid.orders.Keys) && Refetched(mid.seen, seen, at, to, mid.orders.Keys)
         else seen == mid.seen
    }

    /** The window loop from block `from` to `head`. It gets as far as the fetches let it,
        and to the head exactly when they all work. */
    method Walk(from: nat, head: nat) returns (done: bool, windows: seq<Window>)
      requires Valid() && from < head && head + batch <= TWO_64
      modifies this
      ensures Valid() && Onward() && Walking(old(Now()), |old(calls)|, from, windows)
      ensures windows <= Plan(from, batch, head)
      ensures done <==> ReadsWorked(script, calls, |old(calls)|, |calls|)
      ensures done <==> windows == Plan(from, batch, head)
      ensures Undisturbed(|old(calls)|) ==> RowsFrom(chain, old(rows.Keys), rows.Keys, from, head)
    {
      windows, done := [], true;
      StartWalking(from);
      while done && Reached(from, windows) < head
        invariant Valid() && Onward() && Walking(old(Now()), |old(calls)|, from, windows)
        invariant windows <= Plan(from, batch, head) && (!done ==> windows != Plan(from, batch, head))
        invariant done <==> ReadsWorked(script, calls, |old(calls)|, |calls|)
        invariant Undisturbed(|old(calls)|) ==> RowsFrom(chain, old(rows.Keys), rows.Keys, from, head)
        decreases done, |Plan(from, batch, head)| - |windows|
      {
        PlanStep(from, batch, head, windows);
        var at := Reached(from, windows);
        var to;
        done, to := TakeTurn(old(Now()), |old(calls)|, from, windows, at, head);
        if done {
          windows := windows + [Window(at, to)];
        }
      }
      PlanStep(from, batch, head, windows);
    }

    /** The block a tick starts from, once the cursor has been read. */
    function StartFrom(c: nat): nat { if c == 0 then startBlock else c }

    /** What round `r`, ending now, did to tables that were at `s`: it is `Ticked`; its windows
        are handled with every order of `s` known; nothing outside them is fetched; from a
        sound state the cursor's claim holds; with the last write working the cursor is
        where the walk ended; and alone it stores only rows of the blocks it fetched. */
    ghost predicate TickDid(s: Snapshot, r: Round)
      reads this
    {
      && r.hi == |calls| && Ticked(script, batch, calls, r) && r.known == s.orders.Keys
      && (if r.windows == [] then seen == s.seen else FetchedWith(seen, r.from, Reached(r.from, r.windows), r.known))
      && Refetched(s.seen, seen, r.from, Reached(r.from, r.windows), r.known)
      && (s.sound ==> Sound())
      && (r.windows != [] && script(|calls| - 1).ok ==> cursor == Reached(r.from, r.windows))
      && (Undisturbed(r.lo) ==>
          orders == s.orders && RowsFrom(chain, s.rows, rows.Keys, r.from, Max(r.from, script(r.lo + 1).head)))
    }

    /** One tick, from the stored block or the configured one. */
    method Tick() returns (r: Round)
      requires Valid()
      modifies this
      ensures Valid() && Onward() && r.lo == |old(calls)| && TickDid(old(Now()), r)
      ensures r.from == StartFrom(MovedBy(script(r.lo).asides, old(cursor), old(frontier)))
    {
      var lo, known := |calls|, orders.Keys;
      var from, head := ReadBounds();
      if head.None? || head.value <= from {
        r := Round(lo, |calls|, from, head.Some?, [], known);
        IdleTick(old(Now()), r, head);
      } else {
        ghost var begun, mid := calls, Now();
        var done, windows := Walk(from, head.value);
        r := Round(lo, |calls|, from, done, windows, known);
        TickIsWalk(old(Now()), mid, begun, r);
      }
    }

    /** The cursor, and if that worked the head. */
    method ReadBounds() returns (from: nat, head: Option<nat>)
      requires Valid()
      modifies this`rows, this`orders, this`cursor, this`calls
      ensures Valid() && Onward() && (old(Sound()) ==> Sound() && from <= frontier + 1)
      ensures from == StartFrom(MovedBy(script(|old(calls)|).asides, old(cursor), frontier))
      ensures Undisturbed(|old(calls)|) ==> orders == old(orders) && rows == old(rows)
      ensures BoundsRead(script, calls, |old(calls)|, head) && calls[..|old(calls)|] == old(calls)
    {
      var a := Invoke(GetCursor);
      from, head := StartFrom(cursor), None;
      if a.ok {
        a := Invoke(GetHead);
        if a.ok {
          head := Some(a.head);
        }
      }
    }

    lemma IdleTick(s: Snapshot, r: Round, head: Option<nat>)
      requires Valid() && r.hi == |calls| && r.windows == [] && r.known == s.orders.Keys && seen == s.seen
      requires BoundsRead(script, calls, r.lo, head) && r.done == head.Some? && (head.Some? ==> head.value <= r.from)
      requires (s.sound ==> Sound()) && (Undisturbed(r.lo) ==> orders == s.orders && rows.Keys == s.rows)
      ensures TickDid(s, r)
    {
      FetchedFrom(script, calls, r.lo, r.hi, r.hi);
      assert Ends([]) == [];
    }

    lemma TickIsWalk(s: Snapshot, mid: Snapshot, begun: seq<Call>, r: Round)
      requires begun <= calls && BoundsRead(script, begun, r.lo, Some(script(r.lo + 1).head))
      requires r.hi == |calls| && r.known == s.orders.Keys <= mid.orders.Keys && mid.seen == s.seen
      requires Walking(mid, |begun|, r.from, r.windows)
      requires r.done <==> ReadsWorked(script, calls, |begun|, r.hi)
      requires FollowsPlan(r, batch, script(r.lo + 1).head) && r.from < script(r.lo + 1).head
      requires s.sound ==> mid.sound && r.from <= mid.frontier + 1
      requires Undisturbed(r.lo) ==> mid.orders == s.orders && mid.rows == s.rows
      requires Undisturbed(r.lo) ==> RowsFrom(chain, mid.rows, rows.Keys, r.from, script(r.lo + 1).head)
      ensures TickDid(s, r)
    {
      FetchedFrom(script, calls, r.lo, r.lo + 2, r.hi);
      assert Undisturbed(r.lo) ==> Undisturbed(|begun|);
    }

    // --- many ticks ----------------------------------------------------------

    /** Ticks, one after another. */
    method Run(n: nat) returns (rounds: seq<Round>)
      requires Valid()
      modifies this
      ensures Valid() && Onward() && (old(Sound()) ==> Sound())
      ensures |rounds| == n && Went(script, batch, calls, seen, rounds, |old(calls)|, old(orders.Keys))
      ensures forall b: nat | seen(b).Some? :: old(seen)(b).Some? || InRounds(rounds, b)
    {
      rounds := [];
      for i := 0 to n
        invariant Valid() && Onward() && (old(Sound()) ==> Sound())
        invariant |rounds| == i && Went(script, batch, calls, seen, rounds, |old(calls)|, old(orders.Keys))
        invariant AllKnown(rounds, orders.Keys)
        invariant forall b: nat | seen(b).Some? :: old(seen)(b).Some? || InRounds(rounds, b)
      {
        ghost var before, mid := calls, Now();
        var r := Tick();
        RunOn(before, mid, old(seen), rounds, r, |old(calls)|, old(orders.Keys));
        rounds := rounds + [r];
      }
    }

    lemma RunOn(before: seq<Call>, mid: Snapshot, first: Fetches, rounds: seq<Round>, r: Round, lo: nat,
                known: set<string>)
      requires before <= calls && r.lo == |before| && TickDid(mid, r)
      requires Went(script, batch, before, mid.seen, rounds, lo, known) && AllKnown(rounds, mid.orders.Keys)
      requires known <= mid.orders.Keys && forall b: nat | mid.seen(b).Some? :: first(b).Some? || InRounds(rounds, b)
      ensures Went(script, batch, calls, seen, rounds + [r], lo, known) && AllKnown(rounds + [r], mid.orders.Keys)
      ensures forall b: nat | seen(b).Some? :: first(b).Some? || InRounds(rounds + [r], b)
    {
      WentOn(script, batch, before, calls, mid.seen, seen, rounds, r, lo, known);
      RoundsAdd(first, mid.seen, seen, rounds, r);
    }

    // --- the subscriber ------------------------------------------------------

    /** The subscriber's handler. It dedupes, parses, finds the order and inserts as the
        scanner does, then moves the cursor to the log's block, which keeps the cursor's
        claim exactly when that block lies within what the scanner has fetched. */
    method HandleLog(lg: Log) returns (ok: bool, moved: bool)
      requires Valid() && lg in chain
      modifies this`rows, this`orders, this`cursor, this`calls
      ensures Valid() && Onward()
      ensures old(Sound()) ==> (Covered() <==> (moved ==> lg.block == 0 || lg.block <= frontier))
      ensures moved ==> ok && cursor == lg.block && lg.tx in rows && lg.tx !in old(rows)
      ensures Undisturbed(|old(calls)|) ==> orders == old(orders) && rows.Keys <= old(rows.Keys) + {lg.tx}
      ensures AllWorked(|old(calls)|) && Undisturbed(|old(calls)|) && Pays(lg, old(orders.Keys)) && lg.tx !in old(rows)
              ==> moved
    {
      ok, moved := false, false;
      var a := Invoke(GetRow(lg.tx));
      if old(Sound()) {
        CoveredIff();
      }
      if !a.ok {
        return;
      }
      if lg.tx in rows {
        return true, false;
      }
      if lg.event.None? {
        return;
      }
      ok, moved := FindAndMove(lg);
    }

    method FindAndMove(lg: Log) returns (ok: bool, moved: bool)
      requires Valid() && lg in chain && lg.event.Some?
      modifies this`rows, this`orders, this`cursor, this`calls
      ensures Valid() && Onward() && |calls| > |old(calls)|
      ensures old(Sound()) ==> (Covered() <==> (moved ==> lg.block == 0 || lg.block <= frontier))
      ensures moved ==> ok && cursor == lg.block && lg.tx in rows && lg.tx !in old(rows)
      ensures Undisturbed(|old(calls)|) ==> orders == old(orders) && rows.Keys <= old(rows.Keys) + {lg.tx}
      ensures AllWorked(|old(calls)|) && Undisturbed(|old(calls)|) && Pays(lg, old(orders.Keys)) && lg.tx !in old(rows)
              ==> moved
    {
      moved := false;
      var answered, merchant := FindMerchant(lg);
      if old(Sound()) {
        CoveredIff();
      }
      if !answered || merchant.None? {
        return answered, false;
      }
      ok, moved := InsertAndMove(lg, merchant.value);
    }

    /** The subscriber moves the cursor only after an insert of its own. */
    method InsertAndMove(lg: Log, merchant: string) returns (ok: bool, moved: bool)
      requires Valid() && lg in chain && Pays(lg, orders.Keys) && merchant in orders[lg.event.value.order]
      modifies this`rows, this`orders, this`cursor, this`calls
      ensures Valid() && Onward() && |calls| > |old(calls)|
      ensures old(Sound()) ==> (Covered() <==> (moved ==> lg.block == 0 || lg.block <= frontier))
      ensures moved ==> ok && cursor == lg.block && lg.tx in rows && lg.tx !in old(rows)
      ensures Undisturbed(|old(calls)|) ==> orders == old(orders) && rows.Keys <= old(rows.Keys) + {lg.tx}
      ensures AllWorked(|old(calls)|) && Undisturbed(|old(calls)|) && lg.tx !in old(rows) ==> moved
    {
      moved := false;
      ok := Store(lg, merchant);
      if old(Sound()) {
        CoveredIff();
      }
      if ok {
        moved := SetCursor(lg.block);
      }
    }

    ghost predicate AllWorked(lo: nat)
      reads this
    {
      forall n | lo <= n < |calls| :: script(n).ok
    }
  }

  /** The rounds' calls follow one another from `lo` to `hi`. */
  ghost predicate InTurn(rounds: seq<Round>, lo: nat, hi: nat) {
    if rounds == [] then lo == hi
    else
      && rounds[0].lo == lo && rounds[|rounds| - 1].hi == hi
      && forall i | 0 < i < |rounds| :: rounds[i].lo == rounds[i - 1].hi
  }

  /** The block is one some round fetched. */
  ghost predicate InRounds(rounds: seq<Round>, b: nat) {
    exists i :: 0 <= i < |rounds| && InRound(rounds[i], b)
  }

  predicate InRound(r: Round, b: nat) { r.windows != [] && r.from <= b <= Reached(r.from, r.windows) }

  /** The round's blocks were last fetched when at least its orders were known. */
  ghost predicate Handled(seen: Fetches, r: Round) {
    forall b: nat | InRound(r, b) :: seen(b).Some? && r.known <= seen(b).value
  }

  /** The rounds did what `Ticked` says, one after the other from call `lo` to the last; their
      blocks are handled, with at least `known` known. */
  ghost predicate Went(script: Script, batch: nat, calls: seq<Call>, seen: Fetches, rounds: seq<Round>, lo: nat,
                       known: set<string>)
  {
    && InTurn(rounds, lo, |calls|)
    && forall i | 0 <= i < |rounds| :: WentRound(script, batch, calls, seen, rounds[i], known)
  }

  ghost predicate WentRound(script: Script, batch: nat, calls: seq<Call>, seen: Fetches, r: Round, known: set<string>) {
    Ticked(script, batch, calls, r) && known <= r.known && Handled(seen, r)
  }

  ghost predicate AllKnown(rounds: seq<Round>, known: set<string>) {
    forall i | 0 <= i < |rounds| :: rounds[i].known <= known
  }

  lemma WentOn(script: Script, batch: nat, before: seq<Call>, calls: seq<Call>, was: Fetches, seen: Fetches,
               rounds: seq<Round>, r: Round, lo: nat, known: set<string>)
    requires Went(script, batch, before, was, rounds, lo, known) && AllKnown(rounds, r.known)
    requires before <= calls && Ticked(script, batch, calls, r) && known <= r.known && Handled(seen, r)
    requires r.lo == |before| && r.hi == |calls|
    requires Refetched(was, seen, r.from, Reached(r.from, r.windows), r.known)
    ensures Went(script, batch, calls, seen, rounds + [r], lo, known)
  {
    var more := rounds + [r];
    InTurnAdd(rounds, r, lo, |before|);
    forall i | 0 <= i < |more| ensures WentRound(script, batch, calls, seen, more[i], known) {
      if i < |rounds| {
        assert WentRound(script, batch, before, was, rounds[i], known);
        TickedStays(script, batch, before, calls, rounds[i]);
        HandledStays(was, seen, r, rounds[i]);
      }
    }
  }

  lemma InTurnAdd(rounds: seq<Round>, r: Round, lo: nat, mid: nat)
    requires InTurn(rounds, lo, mid) && r.lo == mid
    ensures InTurn(rounds + [r], lo, r.hi)
  {
  }

  lemma HandledStays(was: Fetches, seen: Fetches, latest: Round, r: Round)
    requires Handled(was, r) && r.known <= latest.known
    requires Refetched(was, seen, latest.from, Reached(latest.from, latest.windows), latest.known)
    ensures Handled(seen, r)
  {
  }

  lemma RoundsAdd(first: Fetches, was: Fetches, seen: Fetches, rounds: seq<Round>, r: Round)
    requires forall b: nat | was(b).Some? :: first(b).Some? || InRounds(rounds, b)
    requires r.windows == [] ==> seen == was
    requires Refetched(was, seen, r.from, Reached(r.from, r.windows), r.known)
    ensures forall b: nat | seen(b).Some? :: first(b).Some? || InRounds(rounds + [r], b)
  {
    var more := rounds + [r];
    forall b: nat | seen(b).Some? ensures first(b).Some? || InRounds(more, b) {
      if seen(b) == was(b) && InRounds(rounds, b) {
        var i :| 0 <= i < |rounds| && InRound(rounds[i], b);
        assert InRound(more[i], b);
      } else if seen(b) != was(b) {
        assert InRound(more[|rounds|], b);
      }
    }
  }

  /** From an empty listener, `n` ticks: every block from the start block to the stored cursor
      was fetched by one of them, and every transaction in the blocks a tick fetched that
      pays an order known when it began has its row, unless a call for it failed. */
  method CatchUp(chain: seq<Log>, startBlock: nat, batch: nat, script: Script, orders: Orders, n: nat)
    returns (l: Listener, rounds: seq<Round>)
    requires batch >= 1 && (forall k :: script(k).head + batch <= TWO_64) && forall o | o in orders :: orders[o] != {}
    ensures l.Valid() && l.Covered() && l.chain == chain
    ensures |rounds| == n && Went(script, batch, l.calls, l.seen, rounds, 0, orders.Keys)
    ensures l.cursor != 0 ==> forall b: nat | startBlock <= b <= l.cursor :: InRounds(rounds, b)
    ensures forall i, lg | 0 <= i < n && lg in chain && InRound(rounds[i], lg.block) && Pays(lg, rounds[i].known) ::
              lg.tx in l.rows || Lost(script, l.calls, lg.tx)
  {
    l := new Listener(chain, startBlock, batch, script, orders);
    rounds := l.Run(n);
    l.CoveredIff();
    assert forall lg | lg in chain :: l.Stored(lg);
  }

  /** The subscriber runs ahead and the scanner then passes over what lies between: with no
      call failing and no one else at work, a transaction in the start block that pays a
      known order is still without a row after a tick that took the cursor to the head, and
      that tick did not ask for its block. */
  method SubscriberSkipsBlocks() returns (l: Listener, skipped: Log, r: Round)
    ensures l.Valid() && skipped in l.chain && Pays(skipped, l.orders.Keys) && skipped.tx !in l.rows
    ensures l.startBlock <= skipped.block < l.cursor && l.Undisturbed(0) && l.AllWorked(0)
    ensures Ticked(l.script, l.batch, l.calls, r) && r.done && !Asked(r.windows, skipped.block)
  {
    var e := Event("ORD-1", "0xP", "0xT", 100);
    skipped := Log(1, "0x1", Some(e));
    var chain := [skipped, Log(5, "0x5", Some(e))];
    l := new Listener(chain, 1, 5000, _ => Answer([], true, 9), map["ORD-1" := {"M1"}]);
    var ok, moved := l.HandleLog(chain[1]);
    assert moved && "0x1" != "0x5";
    r := NextTickSkips(l, skipped, 9);
  }

  /** A tick that finds the cursor past a log does not ask for its block and stores no row for
      it, on its way to the head. */
  method NextTickSkips(l: Listener, skipped: Log, head: nat) returns (r: Round)
    requires l.Valid() && skipped.tx !in l.rows && skipped.block < l.cursor < head
    requires forall lg | lg in l.chain && lg.tx == skipped.tx :: lg == skipped
    requires forall n :: l.script(n) == Answer([], true, head)
    modifies l
    ensures l.Valid() && l.orders == old(l.orders) && skipped.tx !in l.rows && l.cursor == head
    ensures Ticked(l.script, l.batch, l.calls, r) && r.done && r.from == old(l.cursor)
    ensures !Asked(r.windows, skipped.block)
  {
    r := l.Tick();
    assert ReadsWorked(l.script, l.calls, r.lo, r.hi);
    PlanStep(r.from, l.batch, head, r.windows);
    DoneCoversExactly(l.script, l.batch, l.calls, r, skipped.block);
  }

  /** Two calls that fetch and put nothing do not show. */
  lemma {:induction false} FetchedFrom(script: Script, calls: seq<Call>, lo: nat, mid: nat, hi: nat)
    requires lo <= mid <= hi <= |calls| && forall n | lo <= n < mid :: !calls[n].Fetch? && !calls[n].PutCursor?
    ensures FetchedIn(script, calls, lo, hi) == FetchedIn(script, calls, mid, hi)
    ensures PutIn(calls, lo, hi) == PutIn(calls, mid, hi)
    decreases hi
  {
    if mid < hi {
      FetchedFrom(script, calls, lo, mid, hi - 1);
    } else if lo < mid {
      FetchedFrom(script, calls, lo, mid - 1, hi - 1);
    }
  }
}
