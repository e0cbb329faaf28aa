/** What becomes of a request's reservation and of its slots on every path through the Messages
    and ChatCompletions handlers. */
module RequestLifecycle {
  import opened Sums
  import opened RequestSlots
  import PriorityBilling

  const CLIENT_CLOSED := 499

  // ----- the settlement decision -----

  datatype BodyState = Empty | Partial | Complete

  /** What reading an upstream body tells: its shape, a provider error it reports, its tokens. */
  datatype Body = Body(state: BodyState, error: string, tokens: int)

  const NO_BODY := Body(Empty, "", 0)

  datatype Decision = Decision(billable: bool, chargeUsage: bool, countRequest: bool, reason: string)

  function DecideSettlementBilling(mode: string, success: bool, status: int, tokens: int, started: bool): Decision {
    if success then Decision(true, true, true, "completed")
    else if status != CLIENT_CLOSED then Decision(false, false, false, "not_billable_failure")
    else if tokens > 0 then Decision(true, true, true, "client_disconnected_with_usage")
    else if started && mode == "unlimited" then Decision(true, false, true, "client_disconnected_after_provider_started")
    else Decision(false, false, false, "client_disconnected_without_usage")
  }

  /** The ledger's notion of success. */
  predicate RecordedSuccess(status: int, body: Body) { status < 400 && body.error == "" && body.state == Complete }

  /** The slot keeper's. */
  predicate CountsAsSuccess(status: int, body: Body) { 200 <= status < 300 && body.error == "" && body.state == Complete }

  function Decided(mode: string, status: int, body: Body, started: bool): Decision {
    DecideSettlementBilling(mode, RecordedSuccess(status, body), status, body.tokens, started)
  }

  // ----- the paths of a request -----

  /** A response: its status and body, whether the request was cancelled by the time the body was
      read, whether writing to the client failed, and whether the stream showed the provider at
      work. */
  datatype Response = Response(status: int, body: Body, cancelled: bool, writeFailed: bool, started: bool)

  datatype Upstream =
    | CloneFails
    | NoClient
    | CallFails(cancelled: bool)
    | Responds(response: Response)

  datatype Path =
    | Refused
    | Aborted
    | Disconnected
    | Streamed(r: Response)
    | Whole(r: Response)
    | Rejected(r: Response)
    | Unreached

  predicate Retriable(status: int) { status in {429, 503, 502, 504, 500} }

  datatype Step = Ends(path: Path) | Goes(seen: Option<Response>)

  function TryOne(u: Upstream, streaming: bool): Step {
    match u
    case CloneFails => Ends(Aborted)
    case NoClient => Goes(None)
    case CallFails(cancelled) => if cancelled then Ends(Disconnected) else Goes(None)
    case Responds(r) =>
      if r.status < 400 then Ends(if streaming then Streamed(r) else Whole(r))
      else if Retriable(r.status) then Goes(Some(r))
      else Ends(Rejected(r))
  }

  /** How the candidates, tried in order, end the request; `last` is the retriable response seen
      last. */
  function PathFrom(candidates: seq<Upstream>, streaming: bool, last: Option<Response>): Path
    decreases |candidates|
  {
    if candidates == [] then
      if last.Some? then Rejected(last.value) else Unreached
    else
      match TryOne(candidates[0], streaming)
      case Ends(path) => path
      case Goes(seen) => PathFrom(candidates[1..], streaming, if seen.Some? then seen else last)
  }

  datatype Handler = Messages | ChatCompletions

  /** A request: its gate, whether a concurrency slot is free, the reservation it is granted (none
      when refused), its candidates, whether the ledger row is stored, and how many writes of the
      first and of any later finalization succeed before one fails. */
  datatype Env = Env(handler: Handler, gate: Gate, concurrencyFree: bool, reservation: Option<PriorityBilling.Reservation>,
    streaming: bool, candidates: seq<Upstream>, recordOk: bool, first: nat, later: nat)

  function Mode(e: Env): string
    requires e.reservation.Some?
  {
    e.reservation.value.mode
  }

  /** A finalization writes at most five counters. */
  predicate WritesSucceed(e: Env) { e.recordOk && e.first >= 5 && e.later >= 5 }

  predicate Reserved(e: Env, before: Counts) { Admits(e.gate, before) && e.concurrencyFree && e.reservation.Some? }

  function PathOf(e: Env, before: Counts): Path {
    if !Reserved(e, before) then Refused else PathFrom(e.candidates, e.streaming, None)
  }

  /** The status a response settles with: a cancelled request that did not complete, or a client
      that could not be written to, counts as closed by the client. */
  function SettlementStatus(r: Response): int {
    if r.cancelled && r.body.state != Complete then CLIENT_CLOSED else r.status
  }

  function StreamStatus(r: Response): int { if r.writeFailed then CLIENT_CLOSED else SettlementStatus(r) }

  // ----- what becomes of the reservation -----

  datatype Settlement = Settlement(chargeUsage: bool, countRequest: bool)

  const RELEASE := Settlement(false, false)

  function SettlementOf(d: Decision): Settlement { Settlement(d.chargeUsage, d.countRequest) }

  /** One counter finalized with a settlement. */
  datatype Write = Write(counter: PriorityBilling.Counter, settlement: Settlement)

  /** An attempt to finalize the whole reservation, of which `stored` writes succeed. */
  datatype Attempt = Attempt(settlement: Settlement, stored: nat)

  function Writes(e: Env, s: Settlement): seq<PriorityBilling.Counter>
    requires e.reservation.Some?
  {
    PriorityBilling.Writes(e.reservation.value, s.countRequest)
  }

  predicate Completes(e: Env, a: Attempt)
    requires e.reservation.Some?
  {
    a.stored >= |Writes(e, a.settlement)|
  }

  function Tagged(ws: seq<PriorityBilling.Counter>, s: Settlement): seq<Write> {
    if ws == [] then [] else [Write(ws[0], s)] + Tagged(ws[1..], s)
  }

  /** The writes of an attempt that are stored: it stops at the first that fails. */
  function Stored(e: Env, a: Attempt): seq<Write>
    requires e.reservation.Some?
  {
    var ws := Writes(e, a.settlement);
    Tagged(ws[..Min(a.stored, |ws|)], a.settlement)
  }

  function StoredAll(e: Env, attempts: seq<Attempt>): seq<Write>
    requires e.reservation.Some?
  {
    if attempts == [] then [] else Stored(e, attempts[0]) + StoredAll(e, attempts[1..])
  }

  lemma StoredSplits(e: Env, a: Attempt, rest: seq<Attempt>)
    requires e.reservation.Some?
    ensures StoredAll(e, [a] + rest) == Stored(e, a) + StoredAll(e, rest)
    ensures StoredAll(e, [a]) == Stored(e, a)
  {
    assert ([a] + rest)[1..] == rest && [a][1..] == [];
  }

  predicate NeedsFinalize(res: PriorityBilling.Reservation) {
    res.mode != "" || exists w: PriorityBilling.Counter :: PriorityBilling.AmountOf(res, w) > 0
  }

  /** The deferred release. */
  function Deferred(e: Env, stored: nat): seq<Attempt>
    requires e.reservation.Some?
  {
    if NeedsFinalize(e.reservation.value) then [Attempt(RELEASE, stored)] else []
  }

  /** The first attempt: the settlement, or a release when its ledger row could not be written. */
  function First(e: Env, d: Decision): Attempt { Attempt(if e.recordOk then SettlementOf(d) else RELEASE, e.first) }

  predicate Fails(e: Env, d: Decision)
    requires e.reservation.Some?
  {
    !e.recordOk || !Completes(e, First(e, d))
  }

  const COUNT_ONLY := Settlement(false, true)

  /** The attempts to finalize the reservation, in order.  Messages settles a rejected request before
      it answers, and the deferred release tries again when that failed; so it does in both
      handlers when no candidate was reached. */
  function Attempts(e: Env, path: Path): seq<Attempt>
    requires path == Refused || e.reservation.Some?
  {
    match path
    case Refused => []
    case Aborted => Deferred(e, e.first)
    case Disconnected => [First(e, Decided(Mode(e), CLIENT_CLOSED, NO_BODY, false))]
    case Streamed(r) => [First(e, Decided(Mode(e), StreamStatus(r), r.body, r.started))]
    case Whole(r) => [First(e, Decided(Mode(e), SettlementStatus(r), r.body, true))]
    case Rejected(r) =>
      var d := Decided(Mode(e), r.status, r.body, true);
      [First(e, d)] + if e.handler == Messages && Fails(e, d) then Deferred(e, e.later) else []
    case Unreached =>
      [Attempt(COUNT_ONLY, e.first)] + if Completes(e, Attempt(COUNT_ONLY, e.first)) then [] else Deferred(e, e.later)
  }

  /** The writes applied to the reservation's counters, in order. */
  function Durable(e: Env, path: Path): seq<Write>
    requires path == Refused || e.reservation.Some?
  {
    if path == Refused then [] else StoredAll(e, Attempts(e, path))
  }

  /** Whether the request keeps its slots. */
  predicate Kept(e: Env, path: Path)
    requires path == Refused || e.reservation.Some?
  {
    match path
    case Streamed(r) => e.recordOk && Decided(Mode(e), StreamStatus(r), r.body, r.started).countRequest
    case Whole(r) =>
      DecideSettlementBilling(Mode(e), CountsAsSuccess(SettlementStatus(r), r.body), SettlementStatus(r), r.body.tokens, true).countRequest
    case _ => false
  }

  predicate Counted(log: seq<Write>) { exists w :: w in log && w.counter == PriorityBilling.QuotaRow && w.settlement.countRequest }

  /** How often a counter was written. */
  function Times(log: seq<Write>, w: PriorityBilling.Counter): nat {
    if log == [] then 0 else (if log[0].counter == w then 1 else 0) + Times(log[1..], w)
  }

  // ----- theorems over all paths -----

  lemma RejectedIsError(candidates: seq<Upstream>, streaming: bool, last: Option<Response>)
    requires last.Some? ==> last.value.status >= 400 && Retriable(last.value.status)
    ensures var p := PathFrom(candidates, streaming, last);
      && (p.Rejected? ==> p.r.status >= 400)
      && (p.Streamed? || p.Whole? ==> p.r.status < 400)
      && p != Refused
    decreases |candidates|
  {
    if candidates != [] {
      match TryOne(candidates[0], streaming)
      case Ends(_) =>
      case Goes(seen) => RejectedIsError(candidates[1..], streaming, if seen.Some? then seen else last);
    }
  }

  lemma {:induction false} TimesConcat(a: seq<Write>, b: seq<Write>, w: PriorityBilling.Counter)
    ensures Times(a + b, w) == Times(a, w) + Times(b, w)
  {
    if a == [] {
      assert a + b == b;
    } else {
      assert (a + b)[1..] == a[1..] + b;
      TimesConcat(a[1..], b, w);
    }
  }

  lemma {:induction false} TimesTagged(ws: seq<PriorityBilling.Counter>, s: Settlement, w: PriorityBilling.Counter)
    requires forall i, j :: 0 <= i < j < |ws| ==> ws[i] != ws[j]
    ensures Times(Tagged(ws, s), w) == if w in ws then 1 else 0
    ensures forall x :: x in Tagged(ws, s) <==> x.settlement == s && x.counter in ws
  {
    if ws != [] {
      var tagged := Tagged(ws[1..], s);
      TimesTagged(ws[1..], s, w);
      assert Tagged(ws, s)[1..] == tagged;
      assert w in ws <==> w == ws[0] || w in ws[1..];
      forall x ensures x in Tagged(ws, s) <==> x.settlement == s && x.counter in ws {
        assert x in Tagged(ws, s) <==> x == Write(ws[0], s) || x in tagged;
        assert x.counter in ws <==> x.counter == ws[0] || x.counter in ws[1..];
      }
    }
  }

  /** The attempt gets as far as the counter. */
  predicate Reaches(e: Env, a: Attempt, w: PriorityBilling.Counter)
    requires e.reservation.Some?
  {
    var ws := Writes(e, a.settlement);
    w in ws[..Min(a.stored, |ws|)]
  }

  lemma StoredTimes(e: Env, a: Attempt, w: PriorityBilling.Counter)
    requires e.reservation.Some?
    ensures Times(Stored(e, a), w) == if Reaches(e, a, w) then 1 else 0
    ensures Completes(e, a) ==> (Reaches(e, a, w) <==> w in Writes(e, a.settlement))
  {
    var ws := Writes(e, a.settlement);
    TimesTagged(ws[..Min(a.stored, |ws|)], a.settlement, w);
    assert ws[..|ws|] == ws;
  }

  lemma AttemptTimes(e: Env, path: Path, w: PriorityBilling.Counter)
    requires path != Refused && e.reservation.Some?
    ensures var tries := Attempts(e, path);
      && |tries| <= 2
      && Times(Durable(e, path), w) ==
         (if |tries| > 0 && Reaches(e, tries[0], w) then 1 else 0) + (if |tries| > 1 && Reaches(e, tries[1], w) then 1 else 0)
  {
    var tries := Attempts(e, path);
    if |tries| > 0 {
      StoredTimes(e, tries[0], w);
      TimesConcat(Stored(e, tries[0]), StoredAll(e, tries[1..]), w);
      if |tries| > 1 {
        StoredTimes(e, tries[1], w);
        TimesConcat(Stored(e, tries[1]), StoredAll(e, tries[1..][1..]), w);
      }
    }
  }

  /** What a reservation holds of a counter is written by every settlement that completes. */
  lemma HeldIsWritten(e: Env, s: Settlement, w: PriorityBilling.Counter)
    requires e.reservation.Some? && PriorityBilling.AmountOf(e.reservation.value, w) > 0
    ensures w in Writes(e, s)
  {
  }

  /** When the store's writes succeed, every counter that the reservation holds is released exactly
      once on every path, and a request without a reservation writes nothing. */
  lemma FinalizedExactlyOnce(e: Env, before: Counts, w: PriorityBilling.Counter)
    requires WritesSucceed(e)
    ensures !Reserved(e, before) ==> Durable(e, PathOf(e, before)) == []
    ensures Reserved(e, before) && PriorityBilling.AmountOf(e.reservation.value, w) > 0 ==>
      Times(Durable(e, PathOf(e, before)), w) == 1
  {
    RejectedIsError(e.candidates, e.streaming, None);
    var path := PathOf(e, before);
    if path != Refused && PriorityBilling.AmountOf(e.reservation.value, w) > 0 {
      AttemptTimes(e, path, w);
      HeldIsWritten(e, Attempts(e, path)[0].settlement, w);
      StoredTimes(e, Attempts(e, path)[0], w);
    }
  }

  /** When the deferred release follows a first attempt. */
  predicate TriesAgain(e: Env, path: Path)
    requires path == Refused || e.reservation.Some?
  {
    match path
    case Rejected(r) =>
      && e.handler == Messages && NeedsFinalize(e.reservation.value)
      && (!e.recordOk || e.first < |Writes(e, SettlementOf(Decided(Mode(e), r.status, r.body, true)))|)
    case Unreached => NeedsFinalize(e.reservation.value) && e.first < |Writes(e, COUNT_ONLY)|
    case _ => false
  }

  /** The settlement of the first attempt on the two paths that may have a second. */
  function FirstSettlement(e: Env, path: Path): Settlement
    requires e.reservation.Some? && (path.Rejected? || path.Unreached?)
  {
    if path.Unreached? then COUNT_ONLY
    else if e.recordOk then SettlementOf(Decided(Mode(e), path.r.status, path.r.body, true))
    else RELEASE
  }

  lemma TwoAttemptsIff(e: Env, path: Path)
    requires path != Refused && e.reservation.Some?
    ensures |Attempts(e, path)| > 1 <==> TriesAgain(e, path)
    ensures TriesAgain(e, path) ==> Attempts(e, path) == [Attempt(FirstSettlement(e, path), e.first), Attempt(RELEASE, e.later)]
  {
  }

  /** No counter is ever written more than twice.  One is released twice exactly when the deferred
      release follows an attempt that failed after writing it, and gets as far as it again: that is
      Messages on a rejected request whose ledger row or any write failed, and both handlers when
      no candidate was reached and a write failed. */
  lemma ReleasedTwiceIff(e: Env, before: Counts, w: PriorityBilling.Counter)
    requires Reserved(e, before)
    ensures var path := PathOf(e, before);
      && Times(Durable(e, path), w) <= 2
      && (Times(Durable(e, path), w) == 2 <==>
            TriesAgain(e, path) && Reaches(e, Attempt(FirstSettlement(e, path), e.first), w) && Reaches(e, Attempt(RELEASE, e.later), w))
  {
    RejectedIsError(e.candidates, e.streaming, None);
    AttemptTimes(e, PathOf(e, before), w);
    TwoAttemptsIff(e, PathOf(e, before));
  }

  /** The quota row comes first: where the request holds quota tokens, they are released twice as soon
      as one write of each attempt is stored, also when the ledger row was. */
  lemma QuotaReleasedTwiceIff(e: Env, before: Counts)
    requires Reserved(e, before) && e.reservation.value.quotaTokens > 0
    ensures var path := PathOf(e, before);
      Times(Durable(e, path), PriorityBilling.QuotaRow) == 2 <==> TriesAgain(e, path) && e.first > 0 && e.later > 0
  {
    ReleasedTwiceIff(e, before, PriorityBilling.QuotaRow);
    FirstIsQuota(e, RELEASE);
    FirstIsQuota(e, COUNT_ONLY);
    FirstIsQuota(e, Settlement(true, true));
    var path := PathOf(e, before);
    if TriesAgain(e, path) {
      FirstIsQuota(e, FirstSettlement(e, path));
    }
  }

  lemma FirstIsQuota(e: Env, s: Settlement)
    requires e.reservation.Some? && e.reservation.value.quotaTokens > 0
    ensures forall n: nat :: Reaches(e, Attempt(s, n), PriorityBilling.QuotaRow) <==> n > 0
  {
    assert Writes(e, s)[0] == PriorityBilling.QuotaRow;
  }

  /** The three ways a request is counted in the ledger without keeping its slots. */
  predicate CountedButReleased(e: Env, path: Path)
    requires path == Refused || e.reservation.Some?
  {
    match path
    case Unreached => true
    case Rejected(r) => r.status == CLIENT_CLOSED && (r.body.tokens > 0 || Mode(e) == "unlimited")
    case Whole(r) =>
      && SettlementStatus(r) == r.status && r.body.error == "" && r.body.state == Complete
      && !(200 <= r.status < 300)
    case _ => false
  }

  lemma CountedIff(e: Env, a: Attempt)
    requires e.reservation.Some? && Completes(e, a)
    ensures Counted(Stored(e, a)) <==> a.settlement.countRequest
  {
    var ws := Writes(e, a.settlement);
    assert ws[..|ws|] == ws;
    TimesTagged(ws, a.settlement, PriorityBilling.QuotaRow);
    if a.settlement.countRequest {
      assert ws[0] == PriorityBilling.QuotaRow;
      assert Write(PriorityBilling.QuotaRow, a.settlement) in Stored(e, a);
    }
  }

  lemma OneAttempt(e: Env, path: Path)
    requires WritesSucceed(e) && e.reservation.Some? && path != Refused
    ensures Durable(e, path) == if Attempts(e, path) == [] then [] else Stored(e, Attempts(e, path)[0])
    ensures forall a :: a in Attempts(e, path) ==> Completes(e, a)
  {
    if Attempts(e, path) != [] {
      StoredSplits(e, Attempts(e, path)[0], []);
      assert Attempts(e, path) == [Attempts(e, path)[0]];
    }
  }

  /** With successful writes the slots are kept exactly when the durable settlement counts the
      request, but for those three ways; and a kept slot is always counted. */
  lemma KeptIffCounted(e: Env, before: Counts)
    requires WritesSucceed(e)
    ensures var path := PathOf(e, before);
      && (Kept(e, path) ==> Counted(Durable(e, path)))
      && (Counted(Durable(e, path)) && !Kept(e, path) <==> CountedButReleased(e, path))
  {
    var path := PathOf(e, before);
    RejectedIsError(e.candidates, e.streaming, None);
    if path != Refused {
      OneAttempt(e, path);
      if Attempts(e, path) != [] {
        CountedIff(e, Attempts(e, path)[0]);
      }
    }
  }

  /** For every response with a success status the two agree. */
  lemma SuccessResponsesAgree(e: Env, before: Counts)
    requires WritesSucceed(e)
    requires var path := PathOf(e, before); (path.Streamed? || path.Whole?) && 200 <= path.r.status < 300
    ensures Kept(e, PathOf(e, before)) <==> Counted(Durable(e, PathOf(e, before)))
  {
    KeptIffCounted(e, before);
  }

  predicate Modest(log: seq<Write>) { forall w :: w in log && w.settlement.chargeUsage ==> w.settlement.countRequest }

  lemma AttemptIsModest(e: Env, path: Path, a: Attempt)
    requires path != Refused && e.reservation.Some? && a in Attempts(e, path)
    ensures a.settlement.chargeUsage ==> a.settlement.countRequest
  {
  }

  lemma StoredIsTagged(e: Env, a: Attempt)
    requires e.reservation.Some?
    ensures forall w :: w in Stored(e, a) ==> w.settlement == a.settlement
  {
    var ws := Writes(e, a.settlement);
    TaggedSettles(ws[..Min(a.stored, |ws|)], a.settlement);
  }

  lemma {:induction false} TaggedSettles(ws: seq<PriorityBilling.Counter>, s: Settlement)
    ensures forall w :: w in Tagged(ws, s) ==> w.settlement == s
  {
    if ws != [] {
      TaggedSettles(ws[1..], s);
    }
  }

  /** Nothing is charged that is not counted. */
  lemma ChargedIsCounted(e: Env, before: Counts)
    ensures Modest(Durable(e, PathOf(e, before)))
  {
    var path := PathOf(e, before);
    if path != Refused {
      forall a | a in Attempts(e, path) ensures Modest(Stored(e, a)) {
        AttemptIsModest(e, path, a);
        StoredIsTagged(e, a);
      }
      StoredComesFrom(e, Attempts(e, path));
    }
  }

  lemma {:induction false} StoredComesFrom(e: Env, attempts: seq<Attempt>)
    requires e.reservation.Some?
    ensures forall w :: w in StoredAll(e, attempts) ==> exists a :: a in attempts && w in Stored(e, a)
  {
    if attempts != [] {
      StoredComesFrom(e, attempts[1..]);
      assert attempts[0] in attempts && forall a :: a in attempts[1..] ==> a in attempts;
    }
  }

  /** Without a candidate the request is counted, and released again if that fails. */
  lemma UnreachedIsDurable(e: Env)
    requires e.reservation.Some?
    ensures var a := Attempt(COUNT_ONLY, e.first);
      Durable(e, Unreached) == Stored(e, a) + if Completes(e, a) then [] else StoredAll(e, Deferred(e, e.later))
  {
    var a := Attempt(COUNT_ONLY, e.first);
    StoredSplits(e, a, Deferred(e, e.later));
    assert [a] + [] == [a] && Stored(e, a) + [] == Stored(e, a);
  }

  // ----- the handlers -----

  class Exchange {
    const slots: Tracker
    ghost var applied: seq<Write>
    var attempts: nat

    constructor (tracker: Tracker)
      ensures slots == tracker && applied == [] && attempts == 0
    {
      slots, applied, attempts := tracker, [], 0;
    }

    /** Stops at the first write that fails; the ones before it stay. */
    method FinalizeRuntimeReservation(e: Env, s: Settlement) returns (ok: bool)
      requires e.reservation.Some?
      modifies this
      ensures var a := Attempt(s, if old(attempts) == 0 then e.first else e.later);
        ok == Completes(e, a) && applied == old(applied) + Stored(e, a)
      ensures attempts == old(attempts) + 1
    {
      var a := Attempt(s, if attempts == 0 then e.first else e.later);
      ok := a.stored >= |PriorityBilling.Writes(e.reservation.value, s.countRequest)|;
      attempts := attempts + 1;
      applied := applied + Stored(e, a);
    }

    method RecordUsage(e: Env, status: int, body: Body, started: bool) returns (settlement: Option<Settlement>)
      requires e.reservation.Some?
      ensures settlement == if e.recordOk then Some(SettlementOf(Decided(Mode(e), status, body, started))) else None
    {
      var statusStr := "success";
      if status >= 400 {
        statusStr := "failed";
      }
      if status < 400 && body.error != "" {
        statusStr := "failed";
      }
      if statusStr == "success" && body.state != Complete {
        statusStr := "failed";
      }
      var success := statusStr == "success";
      assert success == RecordedSuccess(status, body);
      var decision := DecideSettlementBilling(Mode(e), success, status, body.tokens, started);
      if !e.recordOk {
        return None;
      }
      return Some(SettlementOf(decision));
    }

    method RecordAndFinalizeRuntime(e: Env, status: int, body: Body, started: bool) returns (settlement: Settlement, err: bool)
      requires e.reservation.Some? && attempts == 0
      modifies this
      ensures applied == old(applied) + Stored(e, First(e, Decided(Mode(e), status, body, started))) && attempts == 1
      ensures err <==> Fails(e, Decided(Mode(e), status, body, started))
      ensures settlement == if e.recordOk then SettlementOf(Decided(Mode(e), status, body, started)) else RELEASE
    {
      var recorded := RecordUsage(e, status, body, started);
      if recorded.None? {
        var _ := FinalizeRuntimeReservation(e, RELEASE);
        return RELEASE, true;
      }
      var ok := FinalizeRuntimeReservation(e, recorded.value);
      return recorded.value, !ok;
    }

    method RecordAndFinalizeClientDisconnect(e: Env)
      requires e.reservation.Some? && attempts == 0
      modifies this
      ensures applied == old(applied) + Durable(e, Disconnected) && attempts == 1
    {
      StoredSplits(e, First(e, Decided(Mode(e), CLIENT_CLOSED, NO_BODY, false)), []);
      var recorded := RecordUsage(e, CLIENT_CLOSED, NO_BODY, false);
      var _ := FinalizeRuntimeReservation(e, if recorded.Some? then recorded.value else RELEASE);
    }

    /** The stream is over, so its settlement decides about the slots. */
    method AnswerStream(e: Env, r: Response)
      requires e.reservation.Some? && attempts == 0 && !slots.committed
      modifies this, slots`committed
      ensures attempts == 1 && applied == old(applied) + Durable(e, Streamed(r))
      ensures slots.committed == Kept(e, Streamed(r))
    {
      StoredSplits(e, First(e, Decided(Mode(e), StreamStatus(r), r.body, r.started)), []);
      var status := SettlementStatus(r);
      if r.writeFailed {
        status := CLIENT_CLOSED;
      }
      var settlement, _ := RecordAndFinalizeRuntime(e, status, r.body, r.started);
      if settlement.countRequest {
        slots.Commit(false);
      }
    }

    /** The slots are decided before the answer is written, the settlement follows it. */
    method AnswerWhole(e: Env, r: Response)
      requires e.reservation.Some? && attempts == 0 && !slots.committed
      modifies this, slots`committed
      ensures attempts == 1 && applied == old(applied) + Durable(e, Whole(r))
      ensures slots.committed == Kept(e, Whole(r))
    {
      StoredSplits(e, First(e, Decided(Mode(e), SettlementStatus(r), r.body, true)), []);
      var status := SettlementStatus(r);
      if DecideSettlementBilling(Mode(e), CountsAsSuccess(status, r.body), status, r.body.tokens, true).countRequest {
        slots.Commit(false);
      }
      var _, _ := RecordAndFinalizeRuntime(e, status, r.body, true);
    }

    /** Messages settles before it answers and reports a failure; ChatCompletions answers first. */
    method AnswerRejected(e: Env, r: Response) returns (settled: bool)
      requires e.reservation.Some? && attempts == 0 && !slots.committed
      modifies this, slots`committed
      ensures attempts == 1
      ensures applied + (if settled then [] else StoredAll(e, Deferred(e, e.later))) == old(applied) + Durable(e, Rejected(r))
      ensures settled <==> e.handler == ChatCompletions || !Fails(e, Decided(Mode(e), r.status, r.body, true))
      ensures slots.committed <==> settled && CountsAsSuccess(r.status, r.body) && !r.cancelled
    {
      ghost var first := First(e, Decided(Mode(e), r.status, r.body, true));
      StoredSplits(e, first, Deferred(e, e.later));
      assert [first] + [] == [first];
      var _, err := RecordAndFinalizeRuntime(e, r.status, r.body, true);
      if e.handler == Messages && err {
        return false;
      }
      if CountsAsSuccess(r.status, r.body) {
        slots.Commit(r.cancelled);
      }
      return true;
    }

    /** The answer is given; with `settled` false the deferred release is still to come. */
    ghost predicate Answered(e: Env, path: Path, settled: bool)
      reads this, slots
      requires e.reservation.Some?
    {
      && slots.committed == Kept(e, path)
      && path != Refused
      && applied + (if settled then [] else StoredAll(e, Deferred(e, if attempts == 0 then e.first else e.later))) == Durable(e, path)
    }

    method TryCandidate(e: Env, u: Upstream) returns (done: bool, settled: bool, seen: Option<Response>)
      requires e.reservation.Some? && attempts == 0 && applied == [] && !slots.committed
      modifies this, slots`committed
      ensures done == TryOne(u, e.streaming).Ends?
      ensures done ==> Answered(e, TryOne(u, e.streaming).path, settled)
      ensures !done ==> seen == TryOne(u, e.streaming).seen && attempts == 0 && applied == [] && !slots.committed
    {
      done, settled, seen := false, false, None;
      match u {
        case CloneFails =>
          done := true;
        case NoClient =>
        case CallFails(cancelled) =>
          if cancelled {
            RecordAndFinalizeClientDisconnect(e);
            done, settled := true, true;
          }
        case Responds(r) =>
          if e.streaming && r.status < 400 {
            AnswerStream(e, r);
            return true, true, None;
          }
          if !e.streaming && r.status < 400 {
            AnswerWhole(e, r);
            return true, true, None;
          }
          if !Retriable(r.status) {
            settled := AnswerRejected(e, r);
            return true, settled, None;
          }
          seen := Some(r);
      }
    }

    /** No candidate is left: the last retriable response is passed on, if there was one. */
    method AnswerExhausted(e: Env, last: Option<Response>) returns (settled: bool)
      requires e.reservation.Some? && attempts == 0 && !slots.committed && applied == []
      requires last.Some? ==> last.value.status >= 400
      modifies this, slots`committed
      ensures Answered(e, PathFrom([], e.streaming, last), settled)
    {
      if last.Some? {
        settled := AnswerRejected(e, last.value);
        return;
      }
      UnreachedIsDurable(e);
      settled := FinalizeRuntimeReservation(e, COUNT_ONLY);
    }

    /** From the reservation to the answer. */
    method Forward(e: Env) returns (settled: bool)
      requires e.reservation.Some? && attempts == 0 && !slots.committed && applied == []
      modifies this, slots`committed
      ensures Answered(e, PathFrom(e.candidates, e.streaming, None), settled)
    {
      var last: Option<Response> := None;
      ghost var path := PathFrom(e.candidates, e.streaming, None);
      var i := 0;
      while i < |e.candidates|
        invariant 0 <= i <= |e.candidates|
        invariant path == PathFrom(e.candidates[i..], e.streaming, last)
        invariant attempts == 0 && applied == [] && !slots.committed
        invariant last.Some? ==> last.value.status >= 400
      {
        assert e.candidates[i..][1..] == e.candidates[i + 1..];
        var done, settledNow, seen := TryCandidate(e, e.candidates[i]);
        if done {
          return settledNow;
        }
        if seen.Some? {
          last := seen;
        }
        i := i + 1;
      }
      assert e.candidates[i..] == [];
      settled := AnswerExhausted(e, last);
    }

    /** The whole request: the reservation sees the durable settlements of its path, and the slots
        taken are kept or given back. */
    method Serve(e: Env)
      requires slots.Fresh() && attempts == 0 && applied == []
      modifies this, slots
      ensures applied == Durable(e, PathOf(e, old(slots.Counters())))
      ensures slots.committed == Kept(e, PathOf(e, old(slots.Counters())))
      ensures slots.committed ==> slots.Counters() == Plus(old(slots.Counters()), Taken(e.gate))
      ensures !slots.committed && !Uncounted(e.gate) ==> slots.Counters() == old(slots.Counters())
    {
      ghost var before := slots.Counters();
      var _, status := slots.ApplyPreRequestLimits(e.gate);
      if status != 0 {
        return;
      }
      if e.concurrencyFree && e.reservation.Some? {
        var settled := Forward(e);
        StoredSplits(e, Attempt(RELEASE, if attempts == 0 then e.first else e.later), []);
        if !settled && NeedsFinalize(e.reservation.value) {
          var _ := FinalizeRuntimeReservation(e, RELEASE);
        }
      }
      UndoRestoresIff(e.gate, before);
      slots.Rollback();
    }
  }
}
