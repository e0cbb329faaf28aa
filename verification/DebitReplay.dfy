/** The debit a settled request posts, the ledger row it leaves, and the debit replayed from that
    row.

    Credits count ten-thousandths and credit prices millionths; USD costs are exact and are
    rounded to six decimals by the ledger. */
module DebitReplay {
  import opened Amounts
  import opened Sums
  import CallbackRetry
  import CreditPricing
  import Decimal
  import opened RequestLifecycle

  // ----- settling -----

  datatype Usage = Usage(prompt: nat, completion: nat, total: nat, cacheRead: nat, cacheCreation: nat)

  datatype Price = Price(input: real, cached: Option<real>, output: real)

  /** The mode a request was reserved under, with the prices of the two credit modes. */
  datatype Billing = Billing(mode: string, creditPrice: int, planPrice: int)

  datatype Outcome = Outcome(status: int, state: BodyState, error: string, started: bool)

  /** The prices are per million tokens. */
  function TotalCost(u: Usage, price: Option<Price>): real {
    if price.None? then 0.0 else
      var p := price.value;
      var uncached := Max(u.prompt - u.cacheRead - u.cacheCreation, 0);
      var cached := if p.cached.Some? then p.cached.value else p.input;
      (uncached as real * p.input + u.cacheRead as real * cached + u.cacheCreation as real * p.input
       + u.completion as real * p.output) / 1_000_000.0
  }

  function DecisionOf(b: Billing, u: Usage, o: Outcome): Decision {
    Decided(b.mode, o.status, Body(o.state, o.error, u.total), o.started)
  }

  function ActualCredits(b: Billing, u: Usage, o: Outcome): nat {
    var price := if b.mode == "credit_package" then b.creditPrice else if b.mode == "unlimited" then b.planPrice else 0;
    if DecisionOf(b, u, o).chargeUsage && price > 0
    then CreditPricing.ActualCredits(price, CreditPricing.BilledTokens(u.total, u.prompt, u.completion)) else 0
  }

  datatype Debit = Debit(user: string, requestId: string, mode: string, amount: Amount)

  datatype Request = Request(user: string, id: string, billing: Billing, usage: Usage, price: Option<Price>, outcome: Outcome)

  function Cost(r: Request): real { TotalCost(r.usage, r.price) }

  /** What the settlement posts once the reservation is finalized. */
  function LiveDebit(r: Request): Option<Debit> {
    var credits := ActualCredits(r.billing, r.usage, r.outcome);
    if !DecisionOf(r.billing, r.usage, r.outcome).chargeUsage then None
    else if r.billing.mode == "credit_package" && credits > 0 then
      Some(Debit(r.user, r.id, "credit_package", Credits(credits)))
    else if r.billing.mode == "payg_topup" && Cost(r) > 0.0 then
      Some(Debit(r.user, r.id, "payg_topup", Usd(Cost(r))))
    else None
  }

  // ----- the ledger row -----

  datatype Entry = Entry(user: string, requestId: string, mode: Option<string>, amountCredits: Option<string>,
    totalCost: string, success: bool, billable: bool, startedAt: int)

  function Recorded(r: Request, startedAt: int): Entry {
    var d, credits := DecisionOf(r.billing, r.usage, r.outcome), ActualCredits(r.billing, r.usage, r.outcome);
    Entry(r.user, r.id,
          if r.billing.mode != "" then Some(r.billing.mode) else None,
          if d.chargeUsage && credits > 0 then Some(Decimal.Format(credits, 4)) else None,
          Decimal.Format(Micro(Cost(r)), 6),
          RecordedSuccess(r.outcome.status, Body(r.outcome.state, r.outcome.error, r.usage.total)),
          d.billable, startedAt)
  }

  // ----- replaying -----

  const MAX_AMOUNT := 1_000_000

  /** An amount in its last decimals, refused when negative or above the maximum. */
  function ParseUsageAmount(text: Option<string>, decimals: nat): Option<int> {
    if text.None? || text.value == "" then None
    else
      var n := Decimal.Parse(text.value, decimals);
      if n.None? || n.value < 0 || n.value > MAX_AMOUNT * Decimal.Pow10(decimals) then None else n
  }

  function ReplayPayload(e: Entry): Option<Debit> {
    if !(e.success || e.billable) || e.mode.None? || e.requestId == "" || e.user == "" then None
    else if e.mode.value == "credit_package" then
      var amount := ParseUsageAmount(e.amountCredits, 4);
      if amount.None? || amount.value <= 0 then None
      else Some(Debit(e.user, e.requestId, "credit_package", Credits(amount.value)))
    else if e.mode.value == "payg_topup" then
      var amount := ParseUsageAmount(Some(e.totalCost), 6);
      if amount.None? || amount.value <= 0 then None
      else Some(Debit(e.user, e.requestId, "payg_topup", Usd(amount.value as real / 1_000_000.0)))
    else None
  }

  // ----- the replay repeats the live debit -----

  lemma TenThousand()
    ensures Decimal.Pow10(4) == 10_000 && Decimal.Pow10(6) == 1_000_000
  {
    assert Decimal.Pow10(2) == 100;
    assert Decimal.Pow10(4) == 10_000;
  }

  lemma AmountReadsBack(n: int, decimals: nat)
    ensures ParseUsageAmount(Some(Decimal.Format(n, decimals)), decimals) ==
      if 0 <= n <= MAX_AMOUNT * Decimal.Pow10(decimals) then Some(n) else None
  {
    Decimal.FormatReadsBack(n, decimals);
  }

  /** Every charge shows as billable in the ledger, and what is billable without a charge is an
      unlimited request. */
  lemma BillableIffCharged(b: Billing, u: Usage, o: Outcome)
    ensures var d, success := DecisionOf(b, u, o), RecordedSuccess(o.status, Body(o.state, o.error, u.total));
      && (d.chargeUsage ==> d.billable)
      && (success ==> d.chargeUsage)
      && (d.billable && !d.chargeUsage ==> b.mode == "unlimited")
  {
  }

  /** The amounts a replay can repeat: credits up to the maximum, dollars that neither round to
      nothing nor pass it. */
  predicate Replayable(amount: Amount) {
    match amount
    case Credits(n) => n <= MAX_AMOUNT * 10_000
    case Usd(cost) => 0.000_000_5 <= cost < 1_000_000.000_000_5
  }

  ghost predicate SameDebit(live: Debit, replay: Debit) {
    && live.user == replay.user && live.requestId == replay.requestId && live.mode == replay.mode
    && match live.amount
       case Credits(n) => replay.amount == Credits(n)
       case Usd(cost) => replay.amount == Usd(Micro(cost) as real / 1_000_000.0)
  }

  /** The ledger row of a request replays to a debit exactly when its settlement posted one that
      can be repeated, and then to the same debit, rounded to the ledger's six decimals. */
  lemma ReplayRepeatsLiveDebit(r: Request, startedAt: int)
    requires r.user != "" && r.id != ""
    ensures var live, replay := LiveDebit(r), ReplayPayload(Recorded(r, startedAt));
      && (replay.Some? <==> live.Some? && Replayable(live.value.amount))
      && (replay.Some? ==> SameDebit(live.value, replay.value))
  {
    BillableIffCharged(r.billing, r.usage, r.outcome);
    TenThousand();
    var credits := ActualCredits(r.billing, r.usage, r.outcome);
    if r.billing.mode == "credit_package" {
      AmountReadsBack(credits, 4);
    } else if r.billing.mode == "payg_topup" {
      AmountReadsBack(Micro(Cost(r)), 6);
      MicroFacts(Cost(r));
    }
  }

  /** A debit of less than half a millionth of a dollar is posted but never replayed. */
  lemma TinyCostIsNotReplayed()
    ensures var r := Request("u", "q", Billing("payg_topup", 0, 0), Usage(1, 0, 1, 0, 0), Some(Price(0.1, None, 0.0)),
                             Outcome(200, Complete, "", true));
      LiveDebit(r).Some? && ReplayPayload(Recorded(r, 0)).None?
  {
    var r := Request("u", "q", Billing("payg_topup", 0, 0), Usage(1, 0, 1, 0, 0), Some(Price(0.1, None, 0.0)),
                     Outcome(200, Complete, "", true));
    assert Cost(r) == 0.000_000_1;
    ReplayRepeatsLiveDebit(r, 0);
  }

  /** The receiver, which knows a debit by request and mode, after the ledger rows of some requests
      are replayed. */
  function Received(debits: seq<CallbackRetry.Debit>, rs: seq<Request>, outcomes: seq<CallbackRetry.Outcome>): seq<CallbackRetry.Debit>
    requires |outcomes| == |rs|
    decreases |rs|
  {
    if rs == [] then debits
    else
      var d := ReplayPayload(Recorded(rs[0], 0));
      Received(if d.Some? then CallbackRetry.Received(debits, KeyOf(rs[0]), d.value.amount, outcomes[0]) else debits,
               rs[1..], outcomes[1..])
  }

  function KeyOf(r: Request): CallbackRetry.Key { CallbackRetry.Key(r.id, r.billing.mode) }

  /** Whether the receiver is to have a debit of the request. */
  predicate Due(r: Request) { LiveDebit(r).Some? && Replayable(LiveDebit(r).value.amount) }

  /** However often the ledger rows of any requests are replayed, the receiver debits no request
      twice; it debits only requests that owe a debit, all of them if the posts succeed, and none
      anew if it had them all. */
  lemma {:induction false} ReplayDebitsOnce(debits: seq<CallbackRetry.Debit>, rs: seq<Request>, outcomes: seq<CallbackRetry.Outcome>)
    requires |outcomes| == |rs| && CallbackRetry.DistinctKeys(debits)
    requires forall r :: r in rs ==> r.user != "" && r.id != ""
    ensures var after := Received(debits, rs, outcomes);
      && CallbackRetry.DistinctKeys(after) && (forall k :: CallbackRetry.Debited(debits, k) ==> CallbackRetry.Debited(after, k))
      && (forall d :: d in after && d !in debits ==> exists r :: r in rs && Due(r) && d.key == KeyOf(r))
      && ((forall o :: o in outcomes ==> CallbackRetry.Succeeded(o)) ==>
            forall r :: r in rs && Due(r) ==> CallbackRetry.Debited(after, KeyOf(r)))
      && ((forall r :: r in rs && Due(r) ==> CallbackRetry.Debited(debits, KeyOf(r))) ==> after == debits)
    decreases |rs|
  {
    if rs != [] {
      var r, o, d := rs[0], outcomes[0], ReplayPayload(Recorded(rs[0], 0));
      assert r in rs && o in outcomes;
      ReplayRepeatsLiveDebit(r, 0);
      if d.Some? {
        CallbackRetry.ReceivedFacts(debits, KeyOf(r), d.value.amount, o);
      }
      var next := if d.Some? then CallbackRetry.Received(debits, KeyOf(r), d.value.amount, o) else debits;
      ReplayDebitsOnce(next, rs[1..], outcomes[1..]);
      assert forall x :: x in rs <==> x == r || x in rs[1..];
      assert forall x :: x in outcomes[1..] ==> x in outcomes;
    }
  }

  // ----- the replay job -----

  datatype Result = Result(scanned: nat, replayed: nat, skipped: nat, failed: nat)

  predicate InWindow(e: Entry, since: Option<int>) { since.None? || e.startedAt >= since.value }

  /** The first `n` entries of the window among those from index `i` on. */
  function Chosen(entries: seq<Entry>, i: nat, since: Option<int>, n: nat): seq<Entry>
    decreases |entries| - i
  {
    if i >= |entries| || n == 0 then []
    else if InWindow(entries[i], since) then [entries[i]] + Chosen(entries, i + 1, since, n - 1)
    else Chosen(entries, i + 1, since, n)
  }

  /** The debits of the entries that have one. */
  function Payloads(entries: seq<Entry>, payload: Entry -> Option<Debit>): seq<Debit> {
    if entries == [] then [] else OneOrNone(payload(entries[0])) + Payloads(entries[1..], payload)
  }

  function OneOrNone(d: Option<Debit>): seq<Debit> { if d.Some? then [d.value] else [] }

  lemma PayloadsStep(found: seq<Debit>, e: Entry, later: seq<Entry>, payload: Entry -> Option<Debit>)
    ensures found + Payloads([e] + later, payload) == (found + OneOrNone(payload(e))) + Payloads(later, payload)
  {
    assert ([e] + later)[1..] == later;
  }

  /** The loop of the job; `payload` stands for ReplayPayload. */
  method ReplayEach(entries: seq<Entry>, limit: nat, since: Option<int>, dryRun: bool,
      payload: Entry -> Option<Debit>, accepts: Debit -> bool)
    returns (result: Result, posted: seq<Debit>)
    ensures result.scanned == |Chosen(entries, 0, since, limit)|
    ensures result.scanned == result.replayed + result.skipped + result.failed
    ensures result.skipped == result.scanned - |Payloads(Chosen(entries, 0, since, limit), payload)|
    ensures posted == if dryRun then [] else Payloads(Chosen(entries, 0, since, limit), payload)
    ensures dryRun ==> result.failed == 0
  {
    ghost var chosen := Chosen(entries, 0, since, limit);
    result, posted := Result(0, 0, 0, 0), [];
    ghost var found: seq<Debit> := [];
    assert [] + Payloads(chosen, payload) == Payloads(chosen, payload);
    var i := 0;
    while i < |entries|
      invariant 0 <= i <= |entries| && result.scanned <= limit
      invariant |chosen| == result.scanned + |Chosen(entries, i, since, limit - result.scanned)|
      invariant Payloads(chosen, payload) == found + Payloads(Chosen(entries, i, since, limit - result.scanned), payload)
      invariant result.scanned == result.replayed + result.skipped + result.failed
      invariant result.skipped == result.scanned - |found|
      invariant posted == if dryRun then [] else found
      invariant dryRun ==> result.failed == 0
    {
      if result.scanned >= limit {
        break;
      }
      var entry := entries[i];
      i := i + 1;
      if since.Some? && entry.startedAt < since.value {
        continue;
      }
      PayloadsStep(found, entry, Chosen(entries, i, since, limit - result.scanned - 1), payload);
      var debit := payload(entry);
      found := found + OneOrNone(debit);
      result, posted := ReplayOne(result, posted, debit, dryRun, accepts);
    }
  }

  method ReplayOne(before: Result, sent: seq<Debit>, debit: Option<Debit>, dryRun: bool, accepts: Debit -> bool)
    returns (result: Result, posted: seq<Debit>)
    ensures result.scanned == before.scanned + 1
    ensures result.replayed + result.skipped + result.failed == before.replayed + before.skipped + before.failed + 1
    ensures result.skipped == before.skipped + 1 - |OneOrNone(debit)|
    ensures dryRun ==> result.failed == before.failed
    ensures posted == if dryRun then sent else sent + OneOrNone(debit)
  {
    result, posted := before.(scanned := before.scanned + 1), sent;
    if debit.None? {
      result := result.(skipped := result.skipped + 1);
      return;
    }
    if dryRun {
      result := result.(replayed := result.replayed + 1);
      return;
    }
    posted := posted + [debit.value];
    if !accepts(debit.value) {
      result := result.(failed := result.failed + 1);
      return;
    }
    result := result.(replayed := result.replayed + 1);
  }

  /** Goes through the entries of the window up to the limit and posts the debit of each that has
      one; a dry run posts nothing and counts them as replayed. */
  method ReplayUsageDebits(entries: seq<Entry>, limitAsked: int, since: Option<int>, dryRun: bool, accepts: Debit -> bool)
    returns (result: Result, posted: seq<Debit>)
    ensures var chosen := Chosen(entries, 0, since, if limitAsked <= 0 then 500 else Min(limitAsked, 5000));
      && result.scanned == |chosen| && result.scanned == result.replayed + result.skipped + result.failed
      && result.skipped == |chosen| - |Payloads(chosen, ReplayPayload)|
      && posted == (if dryRun then [] else Payloads(chosen, ReplayPayload))
      && (dryRun ==> result.failed == 0)
  {
    var limit := limitAsked;
    if limit <= 0 {
      limit := 500;
    }
    if limit > 5000 {
      limit := 5000;
    }
    result, posted := ReplayEach(entries, limit, since, dryRun, ReplayPayload, accepts);
  }
}
