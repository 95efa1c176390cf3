/** The batch consumer on one partition and the settlement handler it drives. Everything that
    happens outside goes into one log, kept across sessions; what the outside answers is
    a script given beforehand. A `Session` is one `Run`: the reader starts at the
    committed offset and hands out offsets in turn. */
module Consumer {
  import opened Domain

  /** A fetch that brings no message. */
  datatype FetchError = Deadline | Canceled | Broken

  /** What a merchant lookup answers. */
  datatype Callback = Callback(url: string, secret: string)

  /** The answer to one outside call: whether it worked, the error of a fetch that did not, the
      merchant found, and whether the context was canceled meanwhile. */
  datatype Answer = Answer(ok: bool, err: FetchError, callback: Callback, stop: bool)

  /** The answer to each call, in order; every call leaves one entry in the log. */
  type Script = nat -> Answer

  datatype Event =
    | Checked
    | Fetched(offset: nat)
    | FetchFailed(err: FetchError)
    | LookedUp(offset: nat, callback: Callback)
    | Sent(offset: nat, accepted: bool)
    | HandedOver(offset: nat)
    | Committed(first: nat, upto: nat, stored: bool)

  // --- what a log says -------------------------------------------------------

  /** The merchant answered 2xx, had no callback, or the message went to the dead-letter
      writer. */
  predicate Settles(e: Event, o: nat) {
    || e == Sent(o, true) || e == HandedOver(o)
    || (e.LookedUp? && e.offset == o && e.callback.url == "")
  }

  ghost predicate SettledIn(log: seq<Event>, lo: nat, hi: nat, o: nat) {
    exists n :: lo <= n < hi && n < |log| && Settles(log[n], o)
  }

  /** The message was fetched and, with nothing but fetches since, a fetch broke. */
  ghost predicate DroppedIn(log: seq<Event>, lo: nat, o: nat) {
    exists k, n :: lo <= k < n < |log| && BrokenOff(log, k, n, o)
  }

  ghost predicate BrokenOff(log: seq<Event>, k: nat, n: nat, o: nat)
    requires k < n < |log|
  {
    log[k] == Fetched(o) && log[n] == FetchFailed(Broken) && forall j | k <= j < n :: log[j].Fetched?
  }

  ghost predicate FetchedIn(log: seq<Event>, hi: nat, o: nat) {
    exists n :: 0 <= n < hi && n < |log| && log[n] == Fetched(o)
  }

  /** Every message passed to a commit was fetched and settled before it. */
  ghost predicate CommitsAreSettled(log: seq<Event>) { forall n: nat | n < |log| :: CommitIsSettled(log, n) }

  ghost predicate CommitIsSettled(log: seq<Event>, n: nat)
    requires n < |log|
  {
    log[n].Committed? ==>
      forall o: nat | log[n].first <= o < log[n].upto :: SettledIn(log, 0, n, o) && FetchedIn(log, n, o)
  }

  // --- which logs the consumer writes ----------------------------------------

  /** The refused requests for a message that the first `n` entries end with. */
  function Refusals(log: seq<Event>, n: nat, o: nat): (r: nat)
    requires n <= |log|
    ensures r <= n
  {
    if n > 0 && log[n - 1] == Sent(o, false) then 1 + Refusals(log, n - 1, o) else 0
  }

  /** Those entries follow a lookup that found a merchant to send to. */
  predicate Sending(log: seq<Event>, n: nat, o: nat)
    requires n <= |log|
  {
    var at := n - Refusals(log, n, o);
    && at > 0 && log[at - 1].LookedUp? && log[at - 1].offset == o
    && log[at - 1].callback.url != "" && log[at - 1].callback.secret != ""
  }

  /** Nothing to sign with, or every attempt was refused, or the context was canceled after
      one that was. */
  predicate GivenUp(script: Script, maxAttempts: nat, log: seq<Event>, n: nat, o: nat)
    requires n <= |log|
  {
    || (&& n > 0 && log[n - 1].LookedUp? && log[n - 1].offset == o
        && log[n - 1].callback.url != "" && log[n - 1].callback.secret == "")
    || (&& Sending(log, n, o)
        && (Refusals(log, n, o) == maxAttempts || (Refusals(log, n, o) > 0 && script(n - 1).stop)))
  }

  /** The entry `e` may come at position `n`, after the first `n` entries. */
  predicate Next(script: Script, decodes: nat -> bool, maxAttempts: nat, log: seq<Event>, n: nat, e: Event)
    requires n <= |log|
  {
    var a := script(n);
    match e
    case Checked => true
    case Fetched(_) => a.ok
    case FetchFailed(err) => !a.ok && err == a.err
    case LookedUp(o, callback) => decodes(o) && callback == a.callback
    case Sent(o, accepted) =>
      && accepted == a.ok && Sending(log, n, o)
      && Refusals(log, n, o) < maxAttempts && (Refusals(log, n, o) > 0 ==> !script(n - 1).stop)
    case HandedOver(o) => !decodes(o) || GivenUp(script, maxAttempts, log, n, o)
    case Committed(_, _, stored) => stored == a.ok
  }

  /** Every entry carries the script's answer; a request follows a lookup or a refusal while
      attempts are left; only a message that did not decode or was given up is handed
      over. */
  ghost predicate Follows(script: Script, decodes: nat -> bool, maxAttempts: nat, log: seq<Event>) {
    forall n: nat | n < |log| :: FollowsAt(script, decodes, maxAttempts, log, n)
  }

  ghost predicate FollowsAt(script: Script, decodes: nat -> bool, maxAttempts: nat, log: seq<Event>, n: nat)
    requires n < |log|
  {
    Next(script, decodes, maxAttempts, log, n, log[n])
  }

  lemma {:induction false} RefusalsStay(log: seq<Event>, e: Event, n: nat, o: nat)
    requires n <= |log|
    ensures Refusals(log + [e], n, o) == Refusals(log, n, o)
  {
    if n > 0 {
      RefusalsStay(log, e, n - 1, o);
    }
  }

  lemma RefusalsAdd(log: seq<Event>, e: Event, o: nat)
    ensures Refusals(log + [e], |log| + 1, o) == if e == Sent(o, false) then Refusals(log, |log|, o) + 1 else 0
    ensures e == Sent(o, false) ==> Sending(log + [e], |log| + 1, o) == Sending(log, |log|, o)
  {
    RefusalsStay(log, e, |log|, o);
  }

  lemma NextStays(script: Script, decodes: nat -> bool, maxAttempts: nat, log: seq<Event>, more: Event, n: nat,
                  e: Event)
    requires n <= |log|
    ensures Next(script, decodes, maxAttempts, log + [more], n, e) == Next(script, decodes, maxAttempts, log, n, e)
  {
    if e.Sent? || e.HandedOver? {
      RefusalsStay(log, more, n, e.offset);
    }
  }

  lemma FollowsAdd(script: Script, decodes: nat -> bool, maxAttempts: nat, log: seq<Event>, e: Event)
    requires Follows(script, decodes, maxAttempts, log) && Next(script, decodes, maxAttempts, log, |log|, e)
    ensures Follows(script, decodes, maxAttempts, log + [e])
  {
    var more := log + [e];
    forall n: nat | n < |more| ensures FollowsAt(script, decodes, maxAttempts, more, n) {
      if n < |log| {
        assert FollowsAt(script, decodes, maxAttempts, log, n);
        NextStays(script, decodes, maxAttempts, log, e, n, log[n]);
      } else {
        NextStays(script, decodes, maxAttempts, log, e, n, e);
      }
    }
  }

  // --- when a message is accepted --------------------------------------------

  /** Attempts from call `at` on, `n` of them at most, end with a 2xx answer. */
  predicate Answered(script: Script, at: nat, n: nat)
    decreases n
  {
    n > 0 && (script(at).ok || (!script(at).stop && Answered(script, at + 1, n - 1)))
  }

  /** Call `n` is the first of those from `lo` on to be answered 2xx, and no cancellation came
      before it. */
  ghost predicate AnsweredAt(script: Script, lo: nat, n: nat) {
    script(n).ok && forall m: nat | lo <= m < n :: !script(m).ok && !script(m).stop
  }

  /** They do if and only if one of those calls is the first to be answered, before any
      cancellation. */
  lemma {:induction false} AnsweredIff(script: Script, at: nat, n: nat)
    ensures Answered(script, at, n) <==> exists k: nat :: at <= k < at + n && AnsweredAt(script, at, k)
    decreases n
  {
    if n > 0 {
      AnsweredIff(script, at + 1, n - 1);
      if script(at).ok {
        assert AnsweredAt(script, at, at);
      } else if Answered(script, at, n) {
        var k: nat :| at + 1 <= k < at + n && AnsweredAt(script, at + 1, k);
        assert AnsweredAt(script, at, k);
      } else {
        forall k: nat | at <= k < at + n ensures !AnsweredAt(script, at, k) {
          assert AnsweredAt(script, at, k) ==> k > at && AnsweredAt(script, at + 1, k);
        }
      }
    }
  }

  /** Without a cancellation, attempts that end without one are all made. */
  lemma {:induction false} AllAreMade(script: Script, at: nat, n: nat)
    requires !Answered(script, at, n) && forall m: nat | at <= m < at + n :: !script(m).stop
    ensures Requests(script, at, n) == n
    decreases n
  {
    if n > 0 {
      AllAreMade(script, at + 1, n - 1);
    }
  }

  /** What handling a message comes to when its lookup is call `at`: it must decode, and its
      merchant has no callback or answers one of the attempts. */
  predicate Accepts(script: Script, decoded: bool, maxAttempts: nat, at: nat) {
    var callback := script(at).callback;
    decoded && (callback.url == ""
                || (callback.secret != "" && Answered(script, at + 1, maxAttempts)))
  }

  // --- how many calls a batch takes ------------------------------------------

  /** Requests for a message, from call `at` on, with `n` attempts left. */
  function Requests(script: Script, at: nat, n: nat): nat
    decreases n
  {
    if n == 0 then 0 else if script(at).ok || script(at).stop then 1 else 1 + Requests(script, at + 1, n - 1)
  }

  /** The lookup and the requests for a message. */
  function CallsForOne(script: Script, decoded: bool, maxAttempts: nat, at: nat): nat {
    var callback := script(at).callback;
    if !decoded then 0
    else if callback.url == "" || callback.secret == "" then 1
    else 1 + Requests(script, at + 1, maxAttempts)
  }

  /** The call after the first `n` messages from `first` on, the first of them at call `at`. */
  function After(script: Script, decodes: nat -> bool, maxAttempts: nat, first: nat, n: nat, at: nat): nat
    decreases n
  {
    if n == 0 then at
    else
      var before := After(script, decodes, maxAttempts, first, n - 1, at);
      before + CallsForOne(script, decodes(first + n - 1), maxAttempts, before)
  }

  /** All of them are accepted. */
  predicate Passed(script: Script, decodes: nat -> bool, maxAttempts: nat, first: nat, n: nat, at: nat)
    decreases n
  {
    n == 0
    || (&& Passed(script, decodes, maxAttempts, first, n - 1, at)
        && Accepts(script, decodes(first + n - 1), maxAttempts,
                   After(script, decodes, maxAttempts, first, n - 1, at)))
  }

  /** How many of them a pass gets to that ends with the first that is not accepted. */
  function Tried(script: Script, decodes: nat -> bool, maxAttempts: nat, first: nat, n: nat, at: nat): (k: nat)
    ensures k <= n
    decreases n
  {
    if n == 0 || Passed(script, decodes, maxAttempts, first, n - 1, at) then n
    else Tried(script, decodes, maxAttempts, first, n - 1, at)
  }

  lemma {:induction false} TriedIs(script: Script, decodes: nat -> bool, maxAttempts: nat, first: nat, n: nat, at: nat,
                                   i: nat)
    requires i <= n && (i > 0 ==> Passed(script, decodes, maxAttempts, first, i - 1, at))
    requires i == n || (i > 0 && !Passed(script, decodes, maxAttempts, first, i, at))
    ensures Tried(script, decodes, maxAttempts, first, n, at) == i
    ensures i < n ==> !Passed(script, decodes, maxAttempts, first, n, at)
  {
    if i < n {
      TriedIs(script, decodes, maxAttempts, first, n - 1, at, i);
    }
  }

  /** A pass that began at call `at` and is now at `here` has got to `n` messages, and `ok` says
      whether it goes on. */
  predicate PassAt(script: Script, decodes: nat -> bool, maxAttempts: nat, first: nat, n: nat, at: nat, here: nat,
                   ok: bool) {
    && here == After(script, decodes, maxAttempts, first, n, at)
    && ok == Passed(script, decodes, maxAttempts, first, n, at)
    && (n > 0 ==> Passed(script, decodes, maxAttempts, first, n - 1, at))
  }

  lemma PassStep(script: Script, decodes: nat -> bool, maxAttempts: nat, first: nat, n: nat, at: nat, here: nat)
    requires PassAt(script, decodes, maxAttempts, first, n, at, here, true)
    ensures PassAt(script, decodes, maxAttempts, first, n + 1, at,
                   here + CallsForOne(script, decodes(first + n), maxAttempts, here),
                   Accepts(script, decodes(first + n), maxAttempts, here))
  {
  }

  function CallsForSingle(script: Script, decoded: bool, maxAttempts: nat, at: nat): nat {
    CallsForOne(script, decoded, maxAttempts, at) + if Accepts(script, decoded, maxAttempts, at) then 0 else 1
  }

  /** The call after handling each on its own, with a hand-over for every one that is not
      accepted. */
  function AfterSingles(script: Script, decodes: nat -> bool, maxAttempts: nat, first: nat, n: nat, at: nat): nat
    decreases n
  {
    if n == 0 then at
    else
      var before := AfterSingles(script, decodes, maxAttempts, first, n - 1, at);
      before + CallsForSingle(script, decodes(first + n - 1), maxAttempts, before)
  }

  /** The call after one pass over all and, only if that failed, each on its own. */
  function AfterBatch(script: Script, decodes: nat -> bool, maxAttempts: nat, first: nat, n: nat, at: nat): nat {
    var pass := After(script, decodes, maxAttempts, first, Tried(script, decodes, maxAttempts, first, n, at), at);
    if Passed(script, decodes, maxAttempts, first, n, at) then pass
    else AfterSingles(script, decodes, maxAttempts, first, n, pass)
  }

  /** Settling the messages from `first` up to `next` takes the calls from `at` up to `end`. */
  predicate Settling(script: Script, decodes: nat -> bool, maxAttempts: nat, first: nat, next: nat, at: nat, end: nat) {
    first <= next && end == AfterBatch(script, decodes, maxAttempts, first, next - first, at)
  }

  /** One pass that succeeds, or one that fails and then each message on its own. */
  lemma SettlingIs(script: Script, decodes: nat -> bool, maxAttempts: nat, first: nat, n: nat, at: nat, mid: nat,
                   end: nat)
    requires mid == After(script, decodes, maxAttempts, first, Tried(script, decodes, maxAttempts, first, n, at), at)
    requires end == if Passed(script, decodes, maxAttempts, first, n, at) then mid
                    else AfterSingles(script, decodes, maxAttempts, first, n, mid)
    ensures Settling(script, decodes, maxAttempts, first, first + n, at, end)
  {
  }

  /** What `made` attempts from call `at` on, the last of them answered 2xx, canceled or the
      last of `n`, tell about all of them. */
  lemma {:induction false} Attempted(script: Script, at: nat, made: nat, n: nat, ok: bool)
    requires made <= n && forall m: nat | at <= m < at + made - 1 :: !script(m).ok && !script(m).stop
    requires made == 0 ==> n == 0 && !ok
    requires made > 0 ==>
               ok == script(at + made - 1).ok && (ok || script(at + made - 1).stop || made == n)
    ensures ok <==> Answered(script, at, n)
    ensures Requests(script, at, n) == made
    decreases n
  {
    if made > 1 {
      assert !script(at).ok && !script(at).stop;
      Attempted(script, at + 1, made - 1, n - 1, ok);
    }
  }

  /** The offset the broker would resume from. */
  function Resume(log: seq<Event>): nat {
    if log == [] then 0
    else
      var last := log[|log| - 1];
      if last.Committed? && last.stored then last.upto else Resume(log[..|log| - 1])
  }

  /** Requests sent for a message from entry `lo` on. */
  function Sends(log: seq<Event>, lo: nat, o: nat): nat
    decreases log
  {
    if |log| <= lo then 0
    else
      var last := log[|log| - 1];
      Sends(log[..|log| - 1], lo, o) + if last.Sent? && last.offset == o then 1 else 0
  }

  lemma SettledAdd(log: seq<Event>, e: Event, lo: nat, o: nat)
    requires lo <= |log|
    ensures SettledIn(log + [e], lo, |log| + 1, o) <==> SettledIn(log, lo, |log|, o) || Settles(e, o)
  {
    var more := log + [e];
    assert more[|log|] == e;
    assert forall n | 0 <= n < |log| :: more[n] == log[n];
  }

  lemma SettledStays(log: seq<Event>, e: Event, n: nat, o: nat)
    requires n <= |log| && SettledIn(log, 0, n, o)
    ensures SettledIn(log + [e], 0, n, o)
  {
    var k :| 0 <= k < n && k < |log| && Settles(log[k], o);
    assert (log + [e])[k] == log[k];
  }

  lemma FetchedStays(log: seq<Event>, e: Event, n: nat, o: nat)
    requires FetchedIn(log, n, o)
    ensures FetchedIn(log + [e], n, o)
  {
    var k :| 0 <= k < n && k < |log| && log[k] == Fetched(o);
    assert (log + [e])[k] == log[k];
  }

  lemma DroppedStays(log: seq<Event>, e: Event, lo: nat, o: nat)
    ensures DroppedIn(log, lo, o) ==> DroppedIn(log + [e], lo, o)
    ensures e != FetchFailed(Broken) && DroppedIn(log + [e], lo, o) ==> DroppedIn(log, lo, o)
  {
    var more := log + [e];
    assert forall j | 0 <= j < |log| :: log[j] == more[j];
    if DroppedIn(log, lo, o) {
      var k, n :| lo <= k < n < |log| && BrokenOff(log, k, n, o);
      assert BrokenOff(more, k, n, o);
    }
    if e != FetchFailed(Broken) && DroppedIn(more, lo, o) {
      var k, n :| lo <= k < n < |more| && BrokenOff(more, k, n, o);
      assert BrokenOff(log, k, n, o);
    }
  }

  lemma CommitsStay(log: seq<Event>, e: Event)
    requires CommitsAreSettled(log)
    requires e.Committed? ==>
               forall o: nat | e.first <= o < e.upto :: SettledIn(log, 0, |log|, o) && FetchedIn(log, |log|, o)
    ensures CommitsAreSettled(log + [e])
  {
    var more := log + [e];
    forall n: nat | n < |more| ensures CommitIsSettled(more, n) {
      assert n < |log| ==> CommitIsSettled(log, n) && log[n] == more[n];
      if more[n].Committed? {
        forall o: nat | more[n].first <= o < more[n].upto
          ensures SettledIn(more, 0, n, o) && FetchedIn(more, n, o)
        {
          SettledStays(log, e, n, o);
          FetchedStays(log, e, n, o);
        }
      }
    }
  }

  lemma ResumeAdd(log: seq<Event>, e: Event)
    ensures Resume(log + [e]) == if e.Committed? && e.stored then e.upto else Resume(log)
  {
    assert (log + [e])[..|log|] == log;
  }

  lemma SendsAdd(log: seq<Event>, e: Event, lo: nat, o: nat)
    requires lo <= |log|
    ensures Sends(log + [e], lo, o) == Sends(log, lo, o) + if e.Sent? && e.offset == o then 1 else 0
  {
    assert (log + [e])[..|log|] == log;
  }

  lemma {:induction false} SendsSplit(log: seq<Event>, lo: nat, o: nat)
    requires lo <= |log|
    ensures Sends(log, 0, o) == Sends(log[..lo], 0, o) + Sends(log, lo, o)
  {
    if |log| == lo {
      assert log[..lo] == log;
    } else {
      SendsSplit(log[..|log| - 1], lo, o);
      assert log[..|log| - 1][..lo] == log[..lo];
    }
  }

  // --- the trailing fetches --------------------------------------------------

  /** The log since `lo` ends with exactly the fetches of `run`. */
  ghost predicate EndsWith(log: seq<Event>, lo: nat, run: seq<nat>) {
    && lo + |run| <= |log|
    && (forall i | 0 <= i < |run| :: log[|log| - |run| + i] == Fetched(run[i]))
    && (lo + |run| < |log| ==> !log[|log| - |run| - 1].Fetched?)
  }

  lemma EndsWithAdd(log: seq<Event>, lo: nat, run: seq<nat>, e: Event)
    requires EndsWith(log, lo, run)
    ensures EndsWith(log + [e], lo, if e.Fetched? then run + [e.offset] else [])
  {
    var more, longer := log + [e], run + if e.Fetched? then [e.offset] else [];
    assert more[|log|] == e;
    if e.Fetched? {
      forall i | 0 <= i < |longer| ensures more[|more| - |longer| + i] == Fetched(longer[i]) {
        if i < |run| {
          assert more[|log| - |run| + i] == log[|log| - |run| + i];
        }
      }
      assert lo + |run| < |log| ==> more[|log| - |run| - 1] == log[|log| - |run| - 1];
    }
  }

  /** A broken fetch drops what the log ends with, and nothing else. */
  lemma BreakDrops(log: seq<Event>, lo: nat, run: seq<nat>, o: nat)
    requires EndsWith(log, lo, run)
    ensures DroppedIn(log + [FetchFailed(Broken)], lo, o) <==> DroppedIn(log, lo, o) || o in run
  {
    var e := FetchFailed(Broken);
    var more := log + [e];
    DroppedStays(log, e, lo, o);
    assert forall j | 0 <= j < |log| :: log[j] == more[j];
    if o in run {
      var i :| 0 <= i < |run| && run[i] == o;
      var k := |log| - |run| + i;
      assert more[|log|] == e;
      assert forall j | k <= j < |log| :: more[j] == log[j] == Fetched(run[j - (|log| - |run|)]);
      assert BrokenOff(more, k, |log|, o);
    }
    if DroppedIn(more, lo, o) && !DroppedIn(log, lo, o) {
      var k, n :| lo <= k < n < |more| && BrokenOff(more, k, n, o);
      assert n < |log| ==> BrokenOff(log, k, n, o);
      var edge := |log| - |run| - 1;
      if lo <= edge {
        assert !more[edge].Fetched?;
      }
      assert run[k - (|log| - |run|)] == o;
    }
  }

  // --- the log as sets -------------------------------------------------------

  function SettledBy(e: Event): set<nat> {
    if (e.LookedUp? || e.Sent? || e.HandedOver?) && Settles(e, e.offset) then {e.offset} else {}
  }

  function DroppedBy(e: Event, run: seq<nat>): set<nat> {
    if e == FetchFailed(Broken) then set o | o in run else {}
  }

  function SentBy(e: Event): multiset<nat> { if e.Sent? then multiset{e.offset} else multiset{} }

  /** The sets agree with the log, from entry `lo` on, about this offset. */
  ghost predicate LogSays(log: seq<Event>, lo: nat, settled: set<nat>, dropped: set<nat>, sends: multiset<nat>,
                          o: nat) {
    && (o in settled <==> SettledIn(log, lo, |log|, o))
    && (o in dropped <==> DroppedIn(log, lo, o))
    && sends[o] == Sends(log, lo, o)
  }

  lemma LogSaysAdd(log: seq<Event>, e: Event, lo: nat, settled: set<nat>, dropped: set<nat>, sends: multiset<nat>,
                   run: seq<nat>, o: nat)
    requires EndsWith(log, lo, run) && LogSays(log, lo, settled, dropped, sends, o)
    ensures LogSays(log + [e], lo, settled + SettledBy(e), dropped + DroppedBy(e, run), sends + SentBy(e), o)
  {
    SettledAdd(log, e, lo, o);
    DroppedStays(log, e, lo, o);
    if e == FetchFailed(Broken) {
      BreakDrops(log, lo, run, o);
    }
    SendsAdd(log, e, lo, o);
  }

  /** Every offset the reader handed out in a session is in the log as fetched. */
  ghost predicate Handed(log: seq<Event>, first: nat, next: nat) {
    forall o: nat | first <= o < next :: FetchedIn(log, |log|, o)
  }

  lemma HandedAdd(log: seq<Event>, e: Event, first: nat, next: nat)
    requires Handed(log, first, next)
    ensures Handed(log + [e], first, next)
    ensures e == Fetched(next) ==> Handed(log + [e], first, next + 1)
  {
    var more := log + [e];
    assert more[|log|] == e;
    forall o: nat | first <= o < next ensures FetchedIn(more, |more|, o) {
      FetchedStays(log, e, |log|, o);
      var k :| 0 <= k < |log| && k < |more| && more[k] == Fetched(o);
    }
  }

  /** An offset from the start up to `upto` was settled or dropped, never both, and was sent to
      its merchant at most `most` times; nothing happened to any other. */
  ghost predicate Tally(start: nat, upto: nat, settled: set<nat>, dropped: set<nat>, sends: multiset<nat>, most: nat,
                        o: nat) {
    && (o in settled || o in dropped <==> start <= o < upto)
    && !(o in settled && o in dropped)
    && sends[o] <= if o < upto then most else 0
  }

  // --- one session -----------------------------------------------------------

  ghost predicate Consecutive(msgs: seq<nat>, first: nat) {
    forall i | 0 <= i < |msgs| :: msgs[i] == first + i
  }

  /** What working on `n` offsets from `first` on did to an offset: nothing if it is another;
      else at most `most` requests, and it is settled if it is among the first `covered`. */
  ghost predicate MovedAt(was: set<nat>, settled: set<nat>, sent: multiset<nat>, sends: multiset<nat>, first: nat,
                          n: nat, covered: nat, most: nat, o: nat) {
    && (o in was || first <= o < first + covered ==> o in settled)
    && (o in settled ==> o in was || first <= o < first + n)
    && sends[o] <= sent[o] + if first <= o < first + n then most else 0
  }

  ghost predicate Moved(was: set<nat>, settled: set<nat>, sent: multiset<nat>, sends: multiset<nat>, first: nat,
                        n: nat, covered: nat, most: nat) {
    forall o: nat :: MovedAt(was, settled, sent, sends, first, n, covered, most, o)
  }

  /** One more offset, settled or not. */
  lemma MovedOn(was: set<nat>, mid: set<nat>, settled: set<nat>, sent: multiset<nat>, between: multiset<nat>,
                sends: multiset<nat>, first: nat, n: nat, most: nat, ok: bool)
    requires Moved(was, mid, sent, between, first, n, n, most)
    requires settled == mid + if ok then {first + n} else {}
    requires sends[first + n] <= between[first + n] + most
    requires forall p: nat | p != first + n :: sends[p] == between[p]
    ensures Moved(was, settled, sent, sends, first, n + 1, if ok then n + 1 else n, most)
  {
    var more, covered := n + 1, if ok then n + 1 else n;
    forall o: nat ensures MovedAt(was, settled, sent, sends, first, more, covered, most, o) {
      assert MovedAt(was, mid, sent, between, first, n, n, most, o);
    }
  }

  lemma MovedWithin(was: set<nat>, settled: set<nat>, sent: multiset<nat>, sends: multiset<nat>, first: nat, n: nat,
                    covered: nat, all: nat, most: nat)
    requires n <= all && Moved(was, settled, sent, sends, first, n, covered, most)
    ensures Moved(was, settled, sent, sends, first, all, covered, most)
  {
    forall o: nat ensures MovedAt(was, settled, sent, sends, first, all, covered, most, o) {
      assert MovedAt(was, settled, sent, sends, first, n, covered, most, o);
    }
  }

  /** Twice over the same offsets, the second time all of them. */
  lemma MovedTwice(was: set<nat>, mid: set<nat>, settled: set<nat>, sent: multiset<nat>, between: multiset<nat>,
                   sends: multiset<nat>, first: nat, n: nat, covered: nat, most: nat)
    requires Moved(was, mid, sent, between, first, n, covered, most)
    requires Moved(mid, settled, between, sends, first, n, n, most)
    ensures Moved(was, settled, sent, sends, first, n, n, 2 * most)
  {
    var twice := 2 * most;
    forall o: nat ensures MovedAt(was, settled, sent, sends, first, n, n, twice, o) {
      assert MovedAt(was, mid, sent, between, first, n, covered, most, o);
      assert MovedAt(mid, settled, between, sends, first, n, n, most, o);
    }
  }

  lemma MovedOnce(was: set<nat>, settled: set<nat>, sent: multiset<nat>, sends: multiset<nat>, first: nat, n: nat,
                  covered: nat, most: nat)
    requires Moved(was, settled, sent, sends, first, n, covered, most)
    ensures Moved(was, settled, sent, sends, first, n, covered, 2 * most)
  {
    var twice := 2 * most;
    forall o: nat ensures MovedAt(was, settled, sent, sends, first, n, covered, twice, o) {
      assert MovedAt(was, settled, sent, sends, first, n, covered, most, o);
    }
  }

  class Session {
    const script: Script
    /** The messages that decode to an event. */
    const decodes: nat -> bool
    const batchSize: int
    const maxAttempts: nat
    /** The log when the session began, and the offset it resumed from. */
    const openedAt: nat
    const start: nat

    var log: seq<Event>
    /** The next offset the reader hands out. */
    var position: nat

    /** What the log says of this session: offsets settled, offsets dropped, requests sent, and
        the fetches it ends with. */
    ghost var settled: set<nat>
    ghost var dropped: set<nat>
    ghost var sends: multiset<nat>
    ghost var run: seq<nat>

    constructor (log: seq<Event>, script: Script, decodes: nat -> bool, batchSize: int, maxAttempts: nat)
      requires CommitsAreSettled(log) && Follows(script, decodes, maxAttempts, log)
      ensures this.script == script && this.decodes == decodes
      ensures this.batchSize == batchSize && this.maxAttempts == maxAttempts
      ensures this.log == log && openedAt == |log| && start == Resume(log) && position == start
      ensures Linked() && Done(start) && dropped == {}
    {
      this.script, this.decodes, this.batchSize, this.maxAttempts := script, decodes, batchSize, maxAttempts;
      this.log, openedAt, start, position := log, |log|, Resume(log), Resume(log);
      settled, dropped, sends, run := {}, {}, multiset{}, [];
    }

    /** The ghost sets are what the log says. */
    ghost predicate Linked()
      reads this
    {
      && openedAt <= |log| && CommitsAreSettled(log) && Follows(script, decodes, maxAttempts, log)
      && start <= position && Handed(log, start, position)
      && (forall o: nat :: LogSays(log, openedAt, settled, dropped, sends, o))
      && EndsWith(log, openedAt, run)
    }

    /** Every offset from the start up to `upto` was settled or dropped, after at most
        `2 * maxAttempts` requests. */
    ghost predicate Done(upto: nat)
      reads this
    {
      && start <= Resume(log) <= upto
      && forall o: nat :: Tally(start, upto, settled, dropped, sends, 2 * maxAttempts, o)
    }

    /** Write one entry. Only this touches the log. */
    method Note(e: Event)
      requires Linked() && Next(script, decodes, maxAttempts, log, |log|, e) && MayCommit(e)
      modifies this`log, this`settled, this`dropped, this`sends, this`run
      ensures Linked() && log == old(log) + [e]
      ensures settled == if SettledBy(e) == {} then old(settled) else old(settled) + SettledBy(e)
      ensures dropped == if DroppedBy(e, old(run)) == {} then old(dropped) else old(dropped) + DroppedBy(e, old(run))
      ensures sends == if e.Sent? then old(sends) + SentBy(e) else old(sends)
      ensures e == Fetched(position) ==> Handed(log, start, position + 1)
      ensures run == if e.Fetched? then old(run) + [e.offset] else []
      ensures Resume(log) == if e.Committed? && e.stored then e.upto else Resume(old(log))
    {
      forall o: nat
        ensures LogSays(log + [e], openedAt, settled + SettledBy(e), dropped + DroppedBy(e, run), sends + SentBy(e), o)
      {
        assert LogSays(log, openedAt, settled, dropped, sends, o);
        LogSaysAdd(log, e, openedAt, settled, dropped, sends, run, o);
      }
      NoteCommit(e);
      FollowsAdd(script, decodes, maxAttempts, log, e);
      HandedAdd(log, e, start, position);
      ResumeAdd(log, e);
      EndsWithAdd(log, openedAt, run, e);
      settled, dropped, sends := settled + SettledBy(e), dropped + DroppedBy(e, run), sends + SentBy(e);
      run := if e.Fetched? then run + [e.offset] else [];
      log := log + [e];
    }

    /** A commit passes on offsets that were handed out and settled. */
    ghost predicate MayCommit(e: Event)
      reads this
    {
      e.Committed? ==>
        start <= e.first && e.upto <= position && forall o: nat | e.first <= o < e.upto :: o in settled
    }

    lemma NoteCommit(e: Event)
      requires Linked() && MayCommit(e)
      ensures CommitsAreSettled(log + [e])
    {
      if e.Committed? {
        forall o: nat | e.first <= o < e.upto ensures SettledIn(log, 0, |log|, o) && FetchedIn(log, |log|, o) {
          assert LogSays(log, openedAt, settled, dropped, sends, o);
        }
      }
      CommitsStay(log, e);
    }

    // --- the settlement handler ----------------------------------------------

    /** Decode, look the merchant up, and send until a 2xx answer, a cancellation or the end of
        the attempts. Success is exactly that the message is settled by it; a message
        that decoded and failed was given up. */
    method HandleOne(o: nat) returns (ok: bool)
      requires Linked()
      modifies this`log, this`settled, this`dropped, this`sends, this`run
      ensures Linked() && old(log) <= log && Resume(log) == Resume(old(log)) && dropped == old(dropped)
      ensures settled == old(settled) + if ok then {o} else {}
      ensures ok <==> Accepts(script, decodes(o), maxAttempts, |old(log)|)
      ensures |log| == |old(log)| + CallsForOne(script, decodes(o), maxAttempts, |old(log)|)
      ensures !ok && decodes(o) ==> GivenUp(script, maxAttempts, log, |log|, o)
      ensures sends[o] <= old(sends)[o] + maxAttempts
      ensures forall p: nat | p != o :: sends[p] == old(sends)[p]
    {
      if !decodes(o) {
        return false;
      }
      var callback := script(|log|).callback;
      Note(LookedUp(o, callback));
      if callback.url == "" {
        return true;
      }
      if callback.secret == "" {
        return false;
      }
      ok := SendUntil(o);
    }

    /** The attempts. They end with the first 2xx answer, or all of them are made, or the
        context is canceled after a refusal. */
    method SendUntil(o: nat) returns (ok: bool)
      requires Linked() && Sending(log, |log|, o) && Refusals(log, |log|, o) == 0
      modifies this`log, this`settled, this`dropped, this`sends, this`run
      ensures Linked() && old(log) <= log && Resume(log) == Resume(old(log)) && dropped == old(dropped)
      ensures settled == old(settled) + if ok then {o} else {}
      ensures ok <==> Answered(script, |old(log)|, maxAttempts)
      ensures !ok ==> GivenUp(script, maxAttempts, log, |log|, o)
      ensures |log| == |old(log)| + Requests(script, |old(log)|, maxAttempts) <= |old(log)| + maxAttempts
      ensures sends[o] == old(sends)[o] + (|log| - |old(log)|)
      ensures forall p: nat | p != o :: sends[p] == old(sends)[p]
    {
      var attempt, stop := 1, false;
      ok := false;
      ghost var first := |log|;
      while attempt <= maxAttempts && !ok && !stop
        invariant Linked() && old(log) <= log && Resume(log) == Resume(old(log))
        invariant 1 <= attempt <= maxAttempts + 1 && dropped == old(dropped) && |log| == first + (attempt - 1)
        invariant settled == old(settled) + if ok then {o} else {}
        invariant !ok ==> Sending(log, |log|, o) && Refusals(log, |log|, o) == attempt - 1
        invariant attempt == 1 ==> !ok && !stop
        invariant attempt > 1 ==> ok == script(|log| - 1).ok && stop == script(|log| - 1).stop
        invariant forall m: nat | first <= m < |log| - 1 :: !script(m).ok && !script(m).stop
        invariant sends[o] == old(sends)[o] + (attempt - 1)
        invariant forall p: nat | p != o :: sends[p] == old(sends)[p]
        decreases maxAttempts - attempt
      {
        var a := SendOnce(o);
        ok, stop, attempt := a.ok, a.stop, attempt + 1;
      }
      Attempted(script, first, |log| - first, maxAttempts, ok);
    }

    method SendOnce(o: nat) returns (a: Answer)
      requires Linked() && Sending(log, |log|, o) && Refusals(log, |log|, o) < maxAttempts
      requires Refusals(log, |log|, o) > 0 ==> !script(|log| - 1).stop
      modifies this`log, this`settled, this`dropped, this`sends, this`run
      ensures Linked() && a == script(|old(log)|) && log == old(log) + [Sent(o, a.ok)]
      ensures Resume(log) == Resume(old(log)) && dropped == old(dropped)
      ensures settled == (if a.ok then old(settled) + {o} else old(settled)) && sends == old(sends) + multiset{o}
      ensures !a.ok ==> Sending(log, |log|, o) && Refusals(log, |log|, o) == Refusals(old(log), |old(log)|, o) + 1
    {
      a := script(|log|);
      RefusalsAdd(log, Sent(o, a.ok), o);
      Note(Sent(o, a.ok));
    }

    /** The batch in order, up to the first failure. */
    method Handle(msgs: seq<nat>) returns (ok: bool)
      requires Linked() && msgs != [] && Consecutive(msgs, msgs[0])
      modifies this`log, this`settled, this`dropped, this`sends, this`run
      ensures Linked() && old(log) <= log && Resume(log) == Resume(old(log)) && dropped == old(dropped)
      ensures exists k: nat :: Moved(old(settled), settled, old(sends), sends, msgs[0], |msgs|, k, maxAttempts)
      ensures ok ==> Moved(old(settled), settled, old(sends), sends, msgs[0], |msgs|, |msgs|, maxAttempts)
      ensures ok <==> Passed(script, decodes, maxAttempts, msgs[0], |msgs|, |old(log)|)
      ensures |log| == After(script, decodes, maxAttempts, msgs[0],
                             Tried(script, decodes, maxAttempts, msgs[0], |msgs|, |old(log)|), |old(log)|)
    {
      ghost var tried;
      ok, tried := Pass(msgs);
      TriedIs(script, decodes, maxAttempts, msgs[0], |msgs|, |old(log)|, tried);
    }

    method Pass(msgs: seq<nat>) returns (ok: bool, ghost tried: nat)
      requires Linked() && msgs != [] && Consecutive(msgs, msgs[0])
      modifies this`log, this`settled, this`dropped, this`sends, this`run
      ensures Linked() && old(log) <= log && Resume(log) == Resume(old(log)) && dropped == old(dropped)
      ensures exists k: nat :: Moved(old(settled), settled, old(sends), sends, msgs[0], |msgs|, k, maxAttempts)
      ensures ok ==> Moved(old(settled), settled, old(sends), sends, msgs[0], |msgs|, |msgs|, maxAttempts)
      ensures 0 < tried <= |msgs| && (ok ==> tried == |msgs|)
      ensures PassAt(script, decodes, maxAttempts, msgs[0], tried, |old(log)|, |log|, ok)
    {
      var i := 0;
      ghost var done: nat := 0;
      ok := true;
      while ok && i < |msgs|
        invariant Linked() && old(log) <= log && Resume(log) == Resume(old(log)) && dropped == old(dropped)
        invariant i <= |msgs| && done <= i && (ok ==> done == i)
        invariant Moved(old(settled), settled, old(sends), sends, msgs[0], i, done, maxAttempts)
        invariant PassAt(script, decodes, maxAttempts, msgs[0], i, |old(log)|, |log|, ok)
      {
        ok := HandleAt(msgs[i], msgs[0], i, |old(log)|, old(settled), old(sends));
        i, done := i + 1, if ok then i + 1 else i;
      }
      MovedWithin(old(settled), settled, old(sends), sends, msgs[0], i, done, |msgs|, maxAttempts);
      tried := i;
    }

    /** Message `o`, the one after `i` that were accepted. */
    method HandleAt(o: nat, ghost first: nat, ghost i: nat, ghost from: nat, ghost was: set<nat>,
                    ghost sent: multiset<nat>)
      returns (ok: bool)
      requires Linked() && o == first + i && Moved(was, settled, sent, sends, first, i, i, maxAttempts)
      requires PassAt(script, decodes, maxAttempts, first, i, from, |log|, true)
      modifies this`log, this`settled, this`dropped, this`sends, this`run
      ensures Linked() && old(log) <= log && Resume(log) == Resume(old(log)) && dropped == old(dropped)
      ensures Moved(was, settled, sent, sends, first, i + 1, if ok then i + 1 else i, maxAttempts)
      ensures PassAt(script, decodes, maxAttempts, first, i + 1, from, |log|, ok)
    {
      PassStep(script, decodes, maxAttempts, first, i, from, |log|);
      ok := HandleOne(o);
      MovedOn(was, old(settled), settled, sent, old(sends), sends, first, i, maxAttempts, ok);
    }

    // --- the consumer loop ---------------------------------------------------

    /** Each message on its own. */
    method Fallback(msgs: seq<nat>)
      requires Linked() && msgs != [] && Consecutive(msgs, msgs[0])
      modifies this`log, this`settled, this`dropped, this`sends, this`run
      ensures Linked() && old(log) <= log && Resume(log) == Resume(old(log)) && dropped == old(dropped)
      ensures Moved(old(settled), settled, old(sends), sends, msgs[0], |msgs|, |msgs|, maxAttempts)
      ensures |log| == AfterSingles(script, decodes, maxAttempts, msgs[0], |msgs|, |old(log)|)
    {
      for i := 0 to |msgs|
        invariant Linked() && old(log) <= log && Resume(log) == Resume(old(log)) && dropped == old(dropped)
        invariant Moved(old(settled), settled, old(sends), sends, msgs[0], i, i, maxAttempts)
        invariant |log| == AfterSingles(script, decodes, maxAttempts, msgs[0], i, |old(log)|)
      {
        HandleSingle(msgs[i], msgs[0], i, |old(log)|, old(settled), old(sends));
      }
    }

    /** Message `o`, the one after `i` that were settled. */
    method HandleSingle(o: nat, ghost first: nat, ghost i: nat, ghost from: nat, ghost was: set<nat>,
                        ghost sent: multiset<nat>)
      requires Linked() && o == first + i && Moved(was, settled, sent, sends, first, i, i, maxAttempts)
      requires |log| == AfterSingles(script, decodes, maxAttempts, first, i, from)
      modifies this`log, this`settled, this`dropped, this`sends, this`run
      ensures Linked() && old(log) <= log && Resume(log) == Resume(old(log)) && dropped == old(dropped)
      ensures Moved(was, settled, sent, sends, first, i + 1, i + 1, maxAttempts)
      ensures |log| == AfterSingles(script, decodes, maxAttempts, first, i + 1, from)
    {
      HandleOrHandOver(o);
      MovedOn(was, old(settled), settled, sent, old(sends), sends, first, i, maxAttempts, true);
    }

    /** A failure goes to the dead-letter writer, whose own failure is only logged. */
    method HandleOrHandOver(o: nat)
      requires Linked()
      modifies this`log, this`settled, this`dropped, this`sends, this`run
      ensures Linked() && old(log) <= log && Resume(log) == Resume(old(log)) && dropped == old(dropped)
      ensures settled == old(settled) + {o}
      ensures |log| == |old(log)| + CallsForSingle(script, decodes(o), maxAttempts, |old(log)|)
      ensures sends[o] <= old(sends)[o] + maxAttempts
      ensures forall p: nat | p != o :: sends[p] == old(sends)[p]
    {
      var ok := HandleOne(o);
      if !ok {
        Note(HandedOver(o));
      }
    }

    /** Messages until the batch is full or a fetch fails; a deadline ends a batch that has
        begun. What a broken fetch throws away is dropped. */
    method FetchBatch() returns (out: seq<nat>, err: Option<FetchError>)
      requires Linked() && run == []
      modifies this`log, this`settled, this`dropped, this`sends, this`run, this`position
      ensures Linked() && old(log) <= log && Resume(log) == Resume(old(log))
      ensures settled == old(settled) && sends == old(sends)
      ensures Consecutive(out, old(position)) && position == old(position) + |out|
      ensures |out| == Arriving(script, |old(log)|, batchSize)
      ensures err == BatchError(script, |old(log)|, batchSize)
      ensures |log| == |old(log)| + FetchCalls(script, |old(log)|, batchSize)
      ensures dropped == if err == Some(Broken) then old(dropped) + (set o | o in out) else old(dropped)
    {
      out, err := [], None;
      var reply: Option<FetchError> := None;
      ghost var from := |log|;
      while |out| < batchSize && reply.None?
        invariant Linked() && old(log) <= log && Resume(log) == Resume(old(log))
        invariant settled == old(settled) && sends == old(sends)
        invariant Consecutive(out, old(position)) && position == old(position) + |out|
        invariant |out| <= batchSize || out == []
        invariant reply.None? ==> run == out && dropped == old(dropped) && |log| == from + |out|
        invariant reply.None? ==>
                    |out| + Arriving(script, |log|, batchSize - |out|) == Arriving(script, from, batchSize)
        invariant reply.Some? ==> |out| == Arriving(script, from, batchSize) < batchSize && !script(from + |out|).ok
        invariant reply.Some? ==> reply == Some(script(from + |out|).err) && |log| == from + |out| + 1
        invariant reply.Some? ==>
                    dropped == if reply == Some(Broken) then old(dropped) + (set o | o in out) else old(dropped)
        decreases reply.None?, batchSize - |out|
      {
        reply := FetchOne();
        if reply.None? {
          out := out + [position - 1];
        }
      }
      err := if reply == Some(Deadline) && out != [] then None else reply;
    }

    /** One fetch: the next message, or an error. */
    method FetchOne() returns (err: Option<FetchError>)
      requires Linked()
      modifies this`log, this`settled, this`dropped, this`sends, this`run, this`position
      ensures Linked() && |log| == |old(log)| + 1 && old(log) <= log && Resume(log) == Resume(old(log))
      ensures settled == old(settled) && sends == old(sends)
      ensures err == if script(|old(log)|).ok then None else Some(script(|old(log)|).err)
      ensures err.None? ==>
                run == old(run) + [old(position)] && position == old(position) + 1 && dropped == old(dropped)
      ensures err.Some? ==> run == [] && position == old(position)
      ensures err.Some? ==>
                dropped == if err == Some(Broken) then old(dropped) + (set o | o in old(run)) else old(dropped)
    {
      var a := script(|log|);
      if a.ok {
        Note(Fetched(position));
        position, err := position + 1, None;
      } else {
        Note(FetchFailed(a.err));
        err := Some(a.err);
      }
    }

    /** A fetched batch: all at once, or one by one after a failure, then one commit. Every
        message is settled before the commit, after at most `2 * maxAttempts` requests. */
    method Process(msgs: seq<nat>)
      requires Linked() && msgs != [] && Consecutive(msgs, msgs[0]) && Done(msgs[0])
      requires msgs[0] + |msgs| <= position
      modifies this`log, this`settled, this`dropped, this`sends, this`run
      ensures Linked() && Done(msgs[0] + |msgs|) && old(log) < log && dropped == old(dropped)
      ensures log[|log| - 1] == Committed(msgs[0], msgs[0] + |msgs|, script(|log| - 1).ok)
      ensures forall next: nat, at: nat, end: nat | next == msgs[0] + |msgs| && at == |old(log)| && end == |log| - 1 ::
                Settling(script, decodes, maxAttempts, msgs[0], next, at, end)
      ensures Moved(old(settled), settled, old(sends), sends, msgs[0], |msgs|, |msgs|, 2 * maxAttempts)
    {
      SettleAll(msgs);
      DoneMore(old(settled), old(sends), msgs[0], |msgs|);
      Note(Committed(msgs[0], msgs[0] + |msgs|, script(|log|).ok));
    }

    /** All at once, or one by one after a failure. */
    method SettleAll(msgs: seq<nat>)
      requires Linked() && msgs != [] && Consecutive(msgs, msgs[0])
      modifies this`log, this`settled, this`dropped, this`sends, this`run
      ensures Linked() && old(log) <= log && Resume(log) == Resume(old(log)) && dropped == old(dropped)
      ensures Moved(old(settled), settled, old(sends), sends, msgs[0], |msgs|, |msgs|, 2 * maxAttempts)
      ensures forall next: nat, at: nat, end: nat | next == msgs[0] + |msgs| && at == |old(log)| && end == |log| ::
                Settling(script, decodes, maxAttempts, msgs[0], next, at, end)
    {
      var ok := Handle(msgs);
      ghost var passed := |log|;
      if ok {
        MovedOnce(old(settled), settled, old(sends), sends, msgs[0], |msgs|, |msgs|, maxAttempts);
      } else {
        ghost var k: nat :| Moved(old(settled), settled, old(sends), sends, msgs[0], |msgs|, k, maxAttempts);
        ghost var mid, between := settled, sends;
        Fallback(msgs);
        MovedTwice(old(settled), mid, settled, old(sends), between, sends, msgs[0], |msgs|, k, maxAttempts);
      }
      SettlingIs(script, decodes, maxAttempts, msgs[0], |msgs|, |old(log)|, passed, |log|);
    }

    /** A batch that is settled extends what is done. */
    lemma DoneMore(before: set<nat>, sent: multiset<nat>, first: nat, n: nat)
      requires start <= Resume(log) <= first && Moved(before, settled, sent, sends, first, n, n, 2 * maxAttempts)
      requires forall o: nat :: Tally(start, first, before, dropped, sent, 2 * maxAttempts, o)
      ensures Done(first + n) && forall o: nat | first <= o < first + n :: o in settled
    {
      var upto := first + n;
      forall o: nat ensures Tally(start, upto, settled, dropped, sends, 2 * maxAttempts, o) {
        assert Tally(start, first, before, dropped, sent, 2 * maxAttempts, o);
        assert MovedAt(before, settled, sent, sends, first, n, n, 2 * maxAttempts, o);
      }
      forall o: nat | first <= o < upto ensures o in settled {
        assert MovedAt(before, settled, sent, sends, first, n, n, 2 * maxAttempts, o);
      }
    }

    /** One turn of the loop: unless the context is canceled, fetch a batch and process it. A
        fetch that broke a batch is only logged; any other fetch error ends the session. */
    method Turn() returns (stop: bool)
      requires Linked() && Done(position)
      modifies this`log, this`settled, this`dropped, this`sends, this`run, this`position
      ensures Linked() && old(log) < log && old(position) <= position
      ensures Done(if stop then old(position) else position)
      ensures position == old(position)
                          + if script(|old(log)|).stop then 0 else Arriving(script, |old(log)| + 1, batchSize)
      ensures stop <==> script(|old(log)|).stop || Ends(BatchError(script, |old(log)| + 1, batchSize))
      ensures AllWork(script, |old(log)|) && batchSize > 0 ==>
                !stop && Resume(log) == position == old(position) + batchSize
      ensures !stop && BatchError(script, |old(log)| + 1, batchSize).None? && position > old(position) ==>
                && |log| > |old(log)| + 1 + FetchCalls(script, |old(log)| + 1, batchSize) && dropped == old(dropped)
                && (forall at: nat, end: nat
                      | at == |old(log)| + 1 + FetchCalls(script, |old(log)| + 1, batchSize) && end == |log| - 1 ::
                      Settling(script, decodes, maxAttempts, old(position), position, at, end))
                && log[|log| - 1] == Committed(old(position), position, script(|log| - 1).ok)
      ensures BatchError(script, |old(log)| + 1, batchSize) == Some(Broken) && !stop ==>
                && |log| == |old(log)| + 1 + FetchCalls(script, |old(log)| + 1, batchSize)
                && Resume(log) == Resume(old(log))
                && forall o: nat :: o in dropped <==> o in old(dropped) || old(position) <= o < position
    {
      stop := script(|log|).stop;
      Note(Checked);
      if !stop {
        stop := FetchAndProcess();
      }
      if AllWork(script, |old(log)|) && batchSize > 0 {
        AllArrive(script, |old(log)|, |old(log)| + 1, batchSize);
      }
    }

    method FetchAndProcess() returns (stop: bool)
      requires Linked() && run == [] && Done(position)
      modifies this`log, this`settled, this`dropped, this`sends, this`run, this`position
      ensures Linked() && old(log) <= log && position == old(position) + Arriving(script, |old(log)|, batchSize)
      ensures Done(if stop then old(position) else position)
      ensures stop <==> Ends(BatchError(script, |old(log)|, batchSize))
      ensures BatchError(script, |old(log)|, batchSize).None? && position > old(position) ==>
                && |log| > |old(log)| + FetchCalls(script, |old(log)|, batchSize) && dropped == old(dropped)
                && (forall at: nat, end: nat
                      | at == |old(log)| + FetchCalls(script, |old(log)|, batchSize) && end == |log| - 1 ::
                      Settling(script, decodes, maxAttempts, old(position), position, at, end))
                && log[|log| - 1] == Committed(old(position), position, script(|log| - 1).ok)
      ensures BatchError(script, |old(log)|, batchSize) == Some(Broken) ==>
                && |log| == |old(log)| + FetchCalls(script, |old(log)|, batchSize) && Resume(log) == Resume(old(log))
                && forall o: nat :: o in dropped <==> o in old(dropped) || old(position) <= o < position
    {
      var msgs, err := FetchBatch();
      stop := Ends(err);
      if err == Some(Broken) {
        BatchIsRange(msgs, old(position));
        DoneDropped(old(dropped), old(position), position);
      } else if !stop && msgs != [] {
        Process(msgs);
      }
    }

    /** What a broken fetch drops extends what is done. */
    lemma DoneDropped(before: set<nat>, from: nat, to: nat)
      requires from <= to && start <= Resume(log) <= from
      requires forall o: nat :: o in dropped <==> o in before || from <= o < to
      requires forall o: nat :: Tally(start, from, settled, before, sends, 2 * maxAttempts, o)
      ensures Done(to)
    {
      forall o: nat ensures Tally(start, to, settled, dropped, sends, 2 * maxAttempts, o) {
        assert Tally(start, from, settled, before, sends, 2 * maxAttempts, o);
      }
    }

    /** The loop, for at most `rounds` turns. */
    method Run(rounds: nat) returns (upto: nat)
      requires Linked() && Done(position)
      modifies this`log, this`settled, this`dropped, this`sends, this`run, this`position
      ensures Linked() && old(log) <= log && Done(upto) && upto <= position
      ensures AllWork(script, |old(log)|) && batchSize > 0 && Resume(old(log)) == old(position) ==>
                Resume(log) == old(position) + rounds * batchSize
    {
      upto := position;
      var stop, i := false, 0;
      while i < rounds && !stop
        invariant Linked() && old(log) <= log && Done(upto) && upto <= position && (!stop ==> upto == position)
        invariant i <= rounds && (AllWork(script, |old(log)|) && batchSize > 0 ==> !stop)
        invariant AllWork(script, |old(log)|) && batchSize > 0 && Resume(old(log)) == old(position) ==>
                    Resume(log) == position == old(position) + i * batchSize
      {
        stop := Turn();
        upto := if stop then upto else position;
        i := i + 1;
      }
    }

    /** The commits of a session cover every offset below them exactly when they stop short of
        the first offset it dropped: a message fetched when a fetch broke. */
    lemma CoverageIff(upto: nat, first: nat)
      requires Linked() && Done(upto)
      requires DroppedIn(log, openedAt, first) && forall o: nat | DroppedIn(log, openedAt, o) :: first <= o
      ensures (forall o: nat | start <= o < Resume(log) :: SettledIn(log, openedAt, |log|, o)) <==> Resume(log) <= first
    {
      assert LogSays(log, openedAt, settled, dropped, sends, first);
      assert Tally(start, upto, settled, dropped, sends, 2 * maxAttempts, first);
      forall o: nat | start <= o < Resume(log) && o < first ensures SettledIn(log, openedAt, |log|, o) {
        assert LogSays(log, openedAt, settled, dropped, sends, o);
        assert Tally(start, upto, settled, dropped, sends, 2 * maxAttempts, o);
      }
    }

    /** A session that dropped nothing below its commits covers them. */
    lemma CoverageWithoutDrop(upto: nat)
      requires Linked() && Done(upto) && forall o: nat | DroppedIn(log, openedAt, o) :: Resume(log) <= o
      ensures forall o: nat | start <= o < Resume(log) :: SettledIn(log, openedAt, |log|, o)
    {
      forall o: nat | start <= o < Resume(log) ensures SettledIn(log, openedAt, |log|, o) {
        assert LogSays(log, openedAt, settled, dropped, sends, o);
        assert Tally(start, upto, settled, dropped, sends, 2 * maxAttempts, o);
      }
    }
  }

  /** Every outside call from `lo` on works and nothing is canceled. */
  ghost predicate AllWork(script: Script, lo: nat) { forall n: nat | lo <= n :: script(n).ok && !script(n).stop }

  lemma {:induction false} AllArrive(script: Script, lo: nat, i: nat, n: nat)
    requires AllWork(script, lo) && lo <= i
    ensures Arriving(script, i, n) == n && BatchError(script, i, n) == None
    decreases n
  {
    if n > 0 {
      AllArrive(script, lo, i + 1, n - 1);
    }
  }

  // --- many sessions ---------------------------------------------------------

  lemma SettledLonger(log: seq<Event>, later: seq<Event>, lo: nat, o: nat)
    requires log <= later && SettledIn(log, lo, |log|, o)
    ensures SettledIn(later, 0, |later|, o)
  {
    var n :| lo <= n < |log| && Settles(log[n], o);
    assert later[n] == log[n];
  }

  lemma DroppedEarlier(log: seq<Event>, lo: nat, o: nat)
    requires DroppedIn(log, lo, o)
    ensures DroppedIn(log, 0, o)
  {
  }

  lemma DroppedLonger(log: seq<Event>, later: seq<Event>, o: nat)
    requires log <= later && DroppedIn(log, 0, o)
    ensures DroppedIn(later, 0, o)
  {
    var k, n :| 0 <= k < n < |log| && BrokenOff(log, k, n, o);
    assert BrokenOff(later, k, n, o);
  }

  /** Nothing in the log was fetched and thrown away. */
  ghost predicate NothingDropped(log: seq<Event>) { forall o: nat :: !DroppedIn(log, 0, o) }

  /** Sessions in turn on one log, each resuming where the commits left off. Every committed
      message was settled before its commit. If no fetch broke a batch that had begun, every
      offset below the committed one was answered by its merchant, had no callback, or was
      handed to the dead-letter writer. A session sends a message at most
      `2 * maxAttempts` times. If everything works, every turn commits a full batch. */
  method Sessions(n: nat, rounds: nat, script: Script, decodes: nat -> bool, batchSize: int, maxAttempts: nat)
    returns (log: seq<Event>)
    ensures CommitsAreSettled(log) && Follows(script, decodes, maxAttempts, log)
    ensures forall o: nat :: Sends(log, 0, o) <= n * (2 * maxAttempts)
    ensures NothingDropped(log) ==> forall o: nat | o < Resume(log) :: SettledIn(log, 0, |log|, o)
    ensures AllWork(script, 0) && batchSize > 0 ==> Resume(log) == n * (rounds * batchSize)
  {
    log := [];
    for i := 0 to n
      invariant CommitsAreSettled(log) && Follows(script, decodes, maxAttempts, log)
      invariant forall o: nat :: Sends(log, 0, o) <= i * (2 * maxAttempts)
      invariant NothingDropped(log) ==> forall o: nat | o < Resume(log) :: SettledIn(log, 0, |log|, o)
      invariant AllWork(script, 0) && batchSize > 0 ==> Resume(log) == i * (rounds * batchSize)
    {
      log := OneSession(log, i, rounds, script, decodes, batchSize, maxAttempts);
    }
  }

  /** One more session on a log that `i` of them wrote. */
  method OneSession(before: seq<Event>, ghost i: nat, rounds: nat, script: Script, decodes: nat -> bool,
                    batchSize: int, maxAttempts: nat)
    returns (log: seq<Event>)
    requires CommitsAreSettled(before) && Follows(script, decodes, maxAttempts, before)
    requires forall o: nat :: Sends(before, 0, o) <= i * (2 * maxAttempts)
    requires NothingDropped(before) ==> forall o: nat | o < Resume(before) :: SettledIn(before, 0, |before|, o)
    ensures CommitsAreSettled(log) && Follows(script, decodes, maxAttempts, log)
    ensures forall o: nat :: Sends(log, 0, o) <= (i + 1) * (2 * maxAttempts)
    ensures NothingDropped(log) ==> forall o: nat | o < Resume(log) :: SettledIn(log, 0, |log|, o)
    ensures AllWork(script, 0) && batchSize > 0 ==> Resume(log) == Resume(before) + rounds * batchSize
  {
    var session := new Session(before, script, decodes, batchSize, maxAttempts);
    var upto := session.Run(rounds);
    if NothingDropped(session.log) {
      SessionCovers(session, upto, before);
    }
    SessionSends(session, upto, before, i);
    log := session.log;
  }

  lemma SessionSends(session: Session, upto: nat, before: seq<Event>, i: nat)
    requires session.Linked() && session.Done(upto) && before <= session.log && |before| == session.openedAt
    requires forall o: nat :: Sends(before, 0, o) <= i * (2 * session.maxAttempts)
    ensures forall o: nat :: Sends(session.log, 0, o) <= (i + 1) * (2 * session.maxAttempts)
  {
    var log, most := session.log, 2 * session.maxAttempts;
    forall o: nat ensures Sends(log, 0, o) <= (i + 1) * most {
      SendsSplit(log, |before|, o);
      assert log[..|before|] == before;
      assert LogSays(log, |before|, session.settled, session.dropped, session.sends, o);
      assert Tally(session.start, upto, session.settled, session.dropped, session.sends, most, o);
      assert (i + 1) * most == i * most + most;
    }
  }

  lemma SessionCovers(session: Session, upto: nat, before: seq<Event>)
    requires session.Linked() && session.Done(upto) && before <= session.log
    requires session.start == Resume(before) && NothingDropped(session.log)
    requires NothingDropped(before) ==> forall o: nat | o < Resume(before) :: SettledIn(before, 0, |before|, o)
    ensures forall o: nat | o < Resume(session.log) :: SettledIn(session.log, 0, |session.log|, o)
  {
    var log := session.log;
    forall o: nat ensures !DroppedIn(before, 0, o) {
      if DroppedIn(before, 0, o) {
        DroppedLonger(before, log, o);
      }
    }
    forall o: nat ensures !DroppedIn(log, session.openedAt, o) {
      if DroppedIn(log, session.openedAt, o) {
        DroppedEarlier(log, session.openedAt, o);
      }
    }
    session.CoverageWithoutDrop(upto);
    forall o: nat | o < Resume(log) ensures SettledIn(log, 0, |log|, o) {
      if o < Resume(before) {
        SettledLonger(before, log, 0, o);
      } else {
        SettledLonger(log, log, session.openedAt, o);
      }
    }
  }

  /** A message, then a broken fetch; the next turn fetches one more message before the
      deadline, settles it and commits. */
  function Breaking(): Script {
    (n: nat) => Answer(n != 2 && n != 5, if n == 2 then Broken else Deadline, Callback("", ""), false)
  }

  lemma BreakingBreaks()
    ensures Arriving(Breaking(), 1, 2) == 1 && BatchError(Breaking(), 1, 2) == Some(Broken)
    ensures Arriving(Breaking(), 4, 2) == 1 && BatchError(Breaking(), 4, 2) == None
  {
    assert Arriving(Breaking(), 2, 1) == 0 && Arriving(Breaking(), 5, 1) == 0;
  }

  method FirstTurnBreaks() returns (session: Session)
    ensures session.script == Breaking() && session.Linked() && session.openedAt == 0 && session.start == 0
    ensures |session.log| == 3 && session.position == 1 && session.Done(1) && 0 in session.dropped
    ensures session.batchSize == 2 && fresh(session)
  {
    session := new Session([], Breaking(), _ => true, 2, 3);
    BreakingBreaks();
    var stop := session.Turn();
  }

  /** The consumer then resumes from offset 2, and offset 0, fetched and dropped, was never
      settled. */
  method LosesAMessage() returns (session: Session)
    ensures session.script == Breaking() && session.Linked() && session.openedAt == 0
    ensures Resume(session.log) == 2 && !SettledIn(session.log, 0, |session.log|, 0) && DroppedIn(session.log, 0, 0)
  {
    session := FirstTurnBreaks();
    BreakingBreaks();
    var stop := session.Turn();
    assert Tally(session.start, session.position, session.settled, session.dropped, session.sends,
                 2 * session.maxAttempts, 0);
    assert LogSays(session.log, 0, session.settled, session.dropped, session.sends, 0);
  }

  lemma BatchIsRange(msgs: seq<nat>, first: nat)
    requires Consecutive(msgs, first)
    ensures forall o: nat :: o in msgs <==> first <= o < first + |msgs|
  {
    forall o: nat ensures o in msgs <==> first <= o < first + |msgs| {
      if first <= o < first + |msgs| {
        assert msgs[o - first] == o;
      }
    }
  }

  /** The fetch errors that end a session. */
  predicate Ends(err: Option<FetchError>) { err.Some? && err.value != Broken }

  /** How many of the next `n` fetches, from call `i` on, bring a message before one fails. */
  function Arriving(script: Script, i: nat, n: int): nat
    decreases if n < 0 then 0 else n
  {
    if n <= 0 || !script(i).ok then 0 else 1 + Arriving(script, i + 1, n - 1)
  }

  /** How many fetches a batch that starts at call `i` takes. */
  function FetchCalls(script: Script, i: nat, n: int): nat {
    Arriving(script, i, n) + if Arriving(script, i, n) < n then 1 else 0
  }

  /** The error a batch that starts at call `i` reports. */
  function BatchError(script: Script, i: nat, n: int): Option<FetchError> {
    var k := Arriving(script, i, n);
    if k >= n then None
    else if script(i + k).err == Deadline && k > 0 then None
    else Some(script(i + k).err)
  }
}
