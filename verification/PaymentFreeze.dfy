/** When an on-chain row that has left `pending` stays as it is. */
module PaymentFreeze {
  import opened Domain
  import opened PaymentModel

  /** The rows a tick has listed and has not finished with. */
  function Held(l: Local): seq<ChainItem> {
    match l
    case TrkLoop(_, todo) => todo
    case TrkOrder(_, todo, tx) => [tx] + todo
    case TrkMark(_, todo, tx, _, _, _) => [tx] + todo
    case TrkPay(_, todo, _, _, _) => todo
    case TrkPublish(_, todo, _, _, _) => todo
    case ChkLoop(todo) => todo
    case ChkMark(todo, tx, _) => [tx] + todo
    case _ => []
  }

  /** Serialised ticks: at most one process is working through a listing. */
  ghost predicate Serial(s: State) {
    forall p, q | p in s.procs && q in s.procs && Held(s.procs[p]) != [] && Held(s.procs[q]) != [] :: p == q
  }

  /** Listed rows are still pending, and no row is listed twice. */
  ghost predicate StillPending(st: Store, items: seq<ChainItem>) {
    && (forall x | x in items :: x.hash in st.chain && st.chain[x.hash].status == ChainPending)
    && (forall i, j | 0 <= i < j < |items| :: items[i].hash != items[j].hash)
  }

  ghost predicate FreezeInv(s: State) {
    forall p | p in s.procs :: StillPending(s.store, Held(s.procs[p]))
  }

  /** One entry leaves every settled row alone. */
  ghost predicate Frozen(a: Store, b: Store) {
    forall h | h in a.chain && a.chain[h].status != ChainPending :: h in b.chain && b.chain[h] == a.chain[h]
  }

  lemma TailPending(st: Store, items: seq<ChainItem>)
    requires StillPending(st, items) && items != []
    ensures StillPending(st, items[1..])
    ensures forall x | x in items[1..] :: x.hash != items[0].hash
  {
  }

  lemma EntryKeepsPending(st: Store, e: Entry, items: seq<ChainItem>)
    requires StillPending(st, items)
    requires e.ChainInserted? ==> e.chainRow.status == ChainPending
    requires e.ChainMarked? ==> forall x | x in items :: x.hash != e.hash
    ensures StillPending(Apply(st, e), items)
  {
  }

  lemma CreateHoldsNothing(c: Config, st: Store, pid: Pid, a: Local, e: Entry, b: Local)
    requires InCreate(a) && CreateAct(c, st, pid, a, e, b)
    ensures Held(b) == [] && !e.ChainMarked? && !e.ChainInserted?
  {
  }

  lemma HookHoldsNothing(c: Config, st: Store, pid: Pid, a: Local, e: Entry, b: Local)
    requires InHook(a) && HookAct(c, st, pid, a, e, b)
    ensures Held(b) == [] && !e.ChainMarked? && !e.ChainInserted?
  {
  }

  lemma RecHoldsNothing(c: Config, st: Store, pid: Pid, a: Local, e: Entry, b: Local)
    requires InRec(a) && RecAct(c, st, pid, a, e, b)
    ensures Held(b) == [] && !e.ChainMarked? && !e.ChainInserted?
  {
  }

  /** Processes other than ticks hold no listing and mark nothing. */
  lemma OthersHoldNothing(c: Config, st: Store, pid: Pid, a: Local, e: Entry, b: Local)
    requires Act(c, st, pid, a, e, b) && !InTrk(a) && !InChk(a)
    ensures Held(b) == [] && !e.ChainMarked?
    ensures e.ChainInserted? ==> e.chainRow.status == ChainPending && e.hash !in st.chain
  {
    if InCreate(a) {
      CreateHoldsNothing(c, st, pid, a, e, b);
    } else if InHook(a) {
      HookHoldsNothing(c, st, pid, a, e, b);
    } else if InRec(a) {
      RecHoldsNothing(c, st, pid, a, e, b);
    }
  }

  /** What a tick still holds after a move was held before it, and not marked by it. */
  ghost predicate Released(st: Store, a: Local, e: Entry, b: Local) {
    && (e.ChainMarked? ==> Held(a) != [] && e.hash == Held(a)[0].hash && Held(b) == Held(a)[1..])
    && !e.ChainInserted?
    && (|| Held(b) == Held(a) || (Held(a) != [] && Held(b) == Held(a)[1..])
        || (Held(a) == [] && PendingPage(st, Held(b))))
  }

  lemma TrackerScanReleases(c: Config, st: Store, pid: Pid, a: Local, e: Entry, b: Local)
    requires a.TrkIdle? || a.TrkList? || a.TrkLoop?
    requires TrkAct(c, st, pid, a, e, b)
    ensures Released(st, a, e, b)
  {
    if a.TrkLoop? && a.todo != [] {
      assert [a.todo[0]] + a.todo[1..] == a.todo;
    }
  }

  lemma TrackerReleases(c: Config, st: Store, pid: Pid, a: Local, e: Entry, b: Local)
    requires InTrk(a) && TrkAct(c, st, pid, a, e, b)
    ensures Released(st, a, e, b)
  {
    if a.TrkMark? || a.TrkOrder? {
      assert Held(a)[1..] == a.todo;
    } else if !a.TrkPay? && !a.TrkPublish? {
      TrackerScanReleases(c, st, pid, a, e, b);
    }
  }

  lemma CheckerReleases(st: Store, pid: Pid, a: Local, e: Entry, b: Local)
    requires InChk(a) && ChkAct(st, pid, a, e, b)
    ensures Released(st, a, e, b)
  {
    match a
    case ChkMark(todo, _, _) => assert Held(a)[1..] == todo;
    case ChkLoop(todo) => assert todo != [] ==> [todo[0]] + todo[1..] == todo;
    case _ =>
  }

  lemma ReleasedStaysPending(st: Store, a: Local, e: Entry, b: Local)
    requires StillPending(st, Held(a)) && Released(st, a, e, b)
    ensures StillPending(Apply(st, e), Held(b)) && Frozen(st, Apply(st, e))
  {
    if Held(a) != [] {
      TailPending(st, Held(a));
    }
    EntryKeepsPending(st, e, Held(b));
  }

  /** The mover's own listing: what it marks, it no longer holds. */
  lemma MoverKeepsPending(c: Config, st: Store, pid: Pid, a: Local, e: Entry, b: Local)
    requires Act(c, st, pid, a, e, b) && StillPending(st, Held(a))
    ensures StillPending(Apply(st, e), Held(b))
    ensures Frozen(st, Apply(st, e))
    ensures e.ChainMarked? ==> Held(a) != []
    ensures e.ChainInserted? ==> e.chainRow.status == ChainPending && e.hash !in st.chain
  {
    if InTrk(a) {
      TrackerReleases(c, st, pid, a, e, b);
      ReleasedStaysPending(st, a, e, b);
    } else if InChk(a) {
      CheckerReleases(st, pid, a, e, b);
      ReleasedStaysPending(st, a, e, b);
    } else {
      OthersHoldNothing(c, st, pid, a, e, b);
    }
  }

  lemma MoveKeepsFreezeInv(c: Config, s: State, m: Move)
    requires Enabled(c, s, m) && FreezeInv(s) && Serial(s)
    ensures FreezeInv(After(s, m)) && Frozen(s.store, After(s, m).store)
  {
    var s' := After(s, m);
    MoverKeepsPending(c, s.store, m.pid, s.procs[m.pid], m.entry, m.next);
    forall p | p in s'.procs ensures StillPending(s'.store, Held(s'.procs[p])) {
      if p != m.pid {
        EntryKeepsPending(s.store, m.entry, Held(s.procs[p]));
      }
    }
  }

  ghost predicate SerialAt(s0: State, run: seq<Move>, n: nat) {
    n <= |run| && Serial(At(s0, run, n))
  }

  lemma FreezeStep(c: Config, s0: State, run: seq<Move>, n: nat)
    requires IsRun(c, s0, run) && n < |run| && SerialAt(s0, run, n) && FreezeInv(At(s0, run, n))
    ensures FreezeInv(At(s0, run, n + 1)) && Frozen(At(s0, run, n).store, At(s0, run, n + 1).store)
  {
    assert EnabledAt(c, s0, run, n);
    MoveKeepsFreezeInv(c, At(s0, run, n), run[n]);
  }

  ghost predicate SerialRun(s0: State, run: seq<Move>) {
    forall k: nat | k <= |run| :: SerialAt(s0, run, k)
  }

  lemma {:induction false} RunKeepsFreezeInv(c: Config, s0: State, run: seq<Move>, n: nat)
    requires IsRun(c, s0, run) && n <= |run| && SerialRun(s0, run)
    ensures FreezeInv(At(s0, run, n))
  {
    if n > 0 {
      RunKeepsFreezeInv(c, s0, run, n - 1);
      FreezeStep(c, s0, run, n - 1);
    }
  }

  /** With serialised ticks, from the moment an on-chain row leaves `pending` it is
      never written again, whatever the webhooks, listeners and reconcilers do. */
  lemma {:induction false} SettledTransfersNeverChange(c: Config, s0: State, run: seq<Move>, i: nat, j: nat)
    requires IsRun(c, s0, run) && i <= j <= |run| && SerialRun(s0, run)
    ensures Frozen(At(s0, run, i).store, At(s0, run, j).store)
    decreases j
  {
    if i < j {
      SettledTransfersNeverChange(c, s0, run, i, j - 1);
      RunKeepsFreezeInv(c, s0, run, j - 1);
      FreezeStep(c, s0, run, j - 1);
    }
  }
}
