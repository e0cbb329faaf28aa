/** Reserving what a request may cost from the one source its API key is pinned to, and settling
    or giving back the reservation.

    Credits count ten-thousandths, credit prices millionths; PAYG amounts count millionths of
    the unit of the per-million-token prices.  One user and one UTC day are fixed. */
module PriorityBilling {
  import opened Sums
  import CreditLedger
  import CreditPricing
  import QuotaCounter

  // ----- what a request brings -----

  datatype Estimate = Estimate(prompt: int, completion: int, total: int, bounded: bool)

  /** `maxTokens` is the client's cap or zero. */
  function EstimateTokens(prompt: int, maxTokens: int, contextWindow: Option<int>): (e: Estimate)
    ensures e.total >= 1 && (e.bounded <==> e.completion > 0)
    ensures maxTokens != 0 ==> e.completion == maxTokens
  {
    var remaining := if contextWindow.Some? then contextWindow.value - prompt else 0;
    var completion := if maxTokens != 0 then maxTokens
                      else if 0 < remaining < 4096 then remaining else 4096;
    Estimate(prompt, completion, Max(prompt + completion, 1), completion > 0)
  }

  datatype Model = Model(publicId: string, paygExposed: bool)

  datatype Cost = Cost(price: int, isFree: bool, isActive: bool)

  datatype Price = Price(input: int, cached: Option<int>, output: int)

  /** `liveGroup` comes from the live plan and `group` from the entitlement; `covers` says that
      the plan's allowed models include the model. */
  datatype Subscription = Subscription(planCode: string, start: int, end: int, liveGroup: string, group: string,
    covers: bool, quotaLimit: int, creditsPerDay: int, creditsPerPeriod: int)

  /** Reserve statements that fail without taking effect. */
  datatype Faults = Faults(quota: bool, day: bool, period: bool, credit: bool, payg: bool)

  datatype Request = Request(user: string, source: string, model: Option<Model>, subscription: Option<Subscription>,
    estimate: Estimate, cost: Option<Cost>, price: Option<Price>, rateLimited: bool, faults: Faults)

  datatype Reservation = Reservation(mode: string, planCode: string, start: int, end: int, quotaTokens: nat,
    requestCredits: int, creditPrice: int, paygUnits: int,
    planPrice: int, creditsPerDay: int, creditsPerPeriod: int, planKey: int)

  const NOTHING := Reservation("", "", 0, 0, 0, 0, 0, 0, 0, 0, 0, 0)

  datatype Settlement = Settlement(totalTokens: nat, costUnits: int, actualCredits: int, chargeUsage: bool, countRequest: bool)

  const NO_SETTLEMENT := Settlement(0, 0, 0, false, false)

  // ----- the counters -----

  type Counts = map<int, int>

  function Count(m: Counts, k: int): int { if k in m then m[k] else 0 }

  /** The quota rows, the day and period credit counters by period, and the two balance rows,
      which exist while their entitlement is active. */
  datatype Counters = Counters(quota: QuotaCounter.Table, day: Counts, period: Counts,
    credit: Option<CreditLedger.Row>, payg: Option<CreditLedger.Row>)

  /** An absent row or counter reads as zero. */
  ghost predicate Same(a: Counters, b: Counters) {
    && (forall k :: QuotaCounter.Read(a.quota, k) == QuotaCounter.Read(b.quota, k))
    && (forall k :: Count(a.day, k) == Count(b.day, k) && Count(a.period, k) == Count(b.period, k))
    && a.credit == b.credit && a.payg == b.payg
  }

  predicate Held(row: Option<CreditLedger.Row>) { row.Some? ==> row.value.reserved >= 0 && row.value.balance >= 0 }

  predicate Valid(c: Counters) { Held(c.credit) && Held(c.payg) }

  function Added(m: Counts, k: int, amount: int): Counts { if amount == 0 then m else m[k := Count(m, k) + amount] }

  function QuotaKey(user: string, res: Reservation): QuotaCounter.Key { QuotaCounter.Key(user, res.start, res.end) }

  function HeldBack(row: Option<CreditLedger.Row>, amount: int): Option<CreditLedger.Row> {
    if row.None? || amount <= 0 then row else Some(CreditLedger.Reserved(row.value, amount))
  }

  /** The counters once exactly the fields of a reservation are taken. */
  function Take(c: Counters, user: string, res: Reservation): Counters {
    var k := QuotaKey(user, res);
    Counters(
      if res.quotaTokens == 0 then c.quota
      else c.quota[k := QuotaCounter.Reserved(QuotaCounter.Lookup(c.quota, k), res.quotaTokens)],
      Added(c.day, res.planKey, res.creditsPerDay),
      Added(c.period, res.planKey, res.creditsPerPeriod),
      HeldBack(c.credit, res.requestCredits),
      HeldBack(c.payg, res.paygUnits))
  }

  function Used(st: Settlement): nat { if st.chargeUsage then st.totalTokens else 0 }

  function Credits(st: Settlement): int { if st.chargeUsage then st.actualCredits else 0 }

  function Units(st: Settlement): int { if st.chargeUsage then st.costUnits else 0 }

  function Released(row: Option<CreditLedger.Row>, reserved: int, actual: int): Option<CreditLedger.Row> {
    if row.None? || reserved <= 0 then row else Some(CreditLedger.Finalized(row.value, reserved, actual))
  }

  /** Finalizing a reservation with a settlement. */
  function Settle(c: Counters, user: string, res: Reservation, st: Settlement): Counters {
    var k := QuotaKey(user, res);
    Counters(
      if res.quotaTokens == 0 && !st.countRequest then c.quota
      else c.quota[k := QuotaCounter.Finalized(QuotaCounter.Lookup(c.quota, k), res.quotaTokens, Used(st), st.countRequest)],
      Added(c.day, res.planKey, if res.creditsPerDay > 0 then Credits(st) - res.creditsPerDay else 0),
      Added(c.period, res.planKey, if res.creditsPerPeriod > 0 then Credits(st) - res.creditsPerPeriod else 0),
      Released(c.credit, res.requestCredits, Credits(st)),
      Released(c.payg, res.paygUnits, Units(st)))
  }

  // ----- finalizing one counter after the other -----

  datatype Counter = QuotaRow | DayCount | PeriodCount | CreditRow | PaygRow

  /** What a reservation holds of a counter. */
  function AmountOf(res: Reservation, w: Counter): int {
    match w
    case QuotaRow => res.quotaTokens
    case DayCount => res.creditsPerDay
    case PeriodCount => res.creditsPerPeriod
    case CreditRow => res.requestCredits
    case PaygRow => res.paygUnits
  }

  function OneIf(w: Counter, b: bool): seq<Counter> { if b then [w] else [] }

  function IfHeld(res: Reservation, w: Counter): seq<Counter> { OneIf(w, AmountOf(res, w) > 0) }

  /** The writes of a finalization, in order. */
  function Writes(res: Reservation, countRequest: bool): seq<Counter> {
    OneIf(QuotaRow, res.quotaTokens > 0 || countRequest)
    + IfHeld(res, DayCount) + IfHeld(res, PeriodCount) + IfHeld(res, CreditRow) + IfHeld(res, PaygRow)
  }

  function WriteOne(c: Counters, user: string, res: Reservation, st: Settlement, w: Counter): Counters {
    match w
    case QuotaRow =>
      var k := QuotaKey(user, res);
      c.(quota := c.quota[k := QuotaCounter.Finalized(QuotaCounter.Lookup(c.quota, k), res.quotaTokens, Used(st), st.countRequest)])
    case DayCount => c.(day := Added(c.day, res.planKey, Credits(st) - res.creditsPerDay))
    case PeriodCount => c.(period := Added(c.period, res.planKey, Credits(st) - res.creditsPerPeriod))
    case CreditRow => c.(credit := Released(c.credit, res.requestCredits, Credits(st)))
    case PaygRow => c.(payg := Released(c.payg, res.paygUnits, Units(st)))
  }

  function WriteAll(c: Counters, user: string, res: Reservation, st: Settlement, ws: seq<Counter>): Counters
    decreases |ws|
  {
    if ws == [] then c else WriteAll(WriteOne(c, user, res, st, ws[0]), user, res, st, ws[1..])
  }

  /** A finalization whose first `stored` writes succeed and whose next one fails, if there is one. */
  function SettlePart(c: Counters, user: string, res: Reservation, st: Settlement, stored: nat): Counters {
    var ws := Writes(res, st.countRequest);
    WriteAll(c, user, res, st, ws[..Min(stored, |ws|)])
  }

  lemma {:induction false} WriteAllConcat(c: Counters, user: string, res: Reservation, st: Settlement, a: seq<Counter>, b: seq<Counter>)
    ensures WriteAll(c, user, res, st, a + b) == WriteAll(WriteAll(c, user, res, st, a), user, res, st, b)
    decreases |a|
  {
    if a == [] {
      assert a + b == b;
    } else {
      assert (a + b)[1..] == a[1..] + b;
      WriteAllConcat(WriteOne(c, user, res, st, a[0]), user, res, st, a[1..], b);
    }
  }

  /** Each beginning of the five possible writes is a beginning of those that apply. */
  lemma InOrder(res: Reservation, countRequest: bool)
    ensures var ws, q := Writes(res, countRequest), OneIf(QuotaRow, res.quotaTokens > 0 || countRequest);
      && [] + q <= ws && q + IfHeld(res, DayCount) <= ws
      && q + IfHeld(res, DayCount) + IfHeld(res, PeriodCount) <= ws
      && q + IfHeld(res, DayCount) + IfHeld(res, PeriodCount) + IfHeld(res, CreditRow) <= ws
      && [] + q == q && ws[..|ws|] == ws
  {
  }

  function WriteWhen(c: Counters, user: string, res: Reservation, st: Settlement, w: Counter, b: bool): Counters {
    if b then WriteOne(c, user, res, st, w) else c
  }

  function FiveWrites(c: Counters, user: string, res: Reservation, st: Settlement): Counters {
    var c1 := WriteWhen(c, user, res, st, QuotaRow, res.quotaTokens > 0 || st.countRequest);
    var c2 := WriteWhen(c1, user, res, st, DayCount, res.creditsPerDay > 0);
    var c3 := WriteWhen(c2, user, res, st, PeriodCount, res.creditsPerPeriod > 0);
    var c4 := WriteWhen(c3, user, res, st, CreditRow, res.requestCredits > 0);
    WriteWhen(c4, user, res, st, PaygRow, res.paygUnits > 0)
  }

  lemma SnocWrite(c: Counters, user: string, res: Reservation, st: Settlement, ws: seq<Counter>, w: Counter, b: bool)
    ensures WriteAll(c, user, res, st, ws + OneIf(w, b)) == WriteWhen(WriteAll(c, user, res, st, ws), user, res, st, w, b)
  {
    WriteAllConcat(c, user, res, st, ws, OneIf(w, b));
    assert [w][1..] == [];
  }

  lemma WritesAreFive(c: Counters, user: string, res: Reservation, st: Settlement)
    ensures WriteAll(c, user, res, st, Writes(res, st.countRequest)) == FiveWrites(c, user, res, st)
  {
    var q := OneIf(QuotaRow, res.quotaTokens > 0 || st.countRequest);
    assert [] + q == q;
    SnocWrite(c, user, res, st, [], QuotaRow, res.quotaTokens > 0 || st.countRequest);
    SnocWrite(c, user, res, st, q, DayCount, res.creditsPerDay > 0);
    q := q + IfHeld(res, DayCount);
    SnocWrite(c, user, res, st, q, PeriodCount, res.creditsPerPeriod > 0);
    q := q + IfHeld(res, PeriodCount);
    SnocWrite(c, user, res, st, q, CreditRow, res.requestCredits > 0);
    q := q + IfHeld(res, CreditRow);
    SnocWrite(c, user, res, st, q, PaygRow, res.paygUnits > 0);
  }

  /** A write changes its own counter only, to what the settlement makes of it. */
  lemma WritesQuota(c: Counters, user: string, res: Reservation, st: Settlement)
    ensures WriteWhen(c, user, res, st, QuotaRow, res.quotaTokens > 0 || st.countRequest)
         == c.(quota := Settle(c, user, res, st).quota)
  {
  }

  lemma WritesDay(c: Counters, c1: Counters, user: string, res: Reservation, st: Settlement)
    requires c1.day == c.day
    ensures WriteWhen(c1, user, res, st, DayCount, res.creditsPerDay > 0) == c1.(day := Settle(c, user, res, st).day)
  {
  }

  lemma WritesPeriod(c: Counters, c2: Counters, user: string, res: Reservation, st: Settlement)
    requires c2.period == c.period
    ensures WriteWhen(c2, user, res, st, PeriodCount, res.creditsPerPeriod > 0) == c2.(period := Settle(c, user, res, st).period)
  {
  }

  lemma WritesCredit(c: Counters, c3: Counters, user: string, res: Reservation, st: Settlement)
    requires c3.credit == c.credit
    ensures WriteWhen(c3, user, res, st, CreditRow, res.requestCredits > 0) == c3.(credit := Settle(c, user, res, st).credit)
  {
  }

  lemma WritesPayg(c: Counters, c4: Counters, user: string, res: Reservation, st: Settlement)
    requires c4.payg == c.payg
    ensures WriteWhen(c4, user, res, st, PaygRow, res.paygUnits > 0) == c4.(payg := Settle(c, user, res, st).payg)
  {
  }

  lemma FiveUpdates(c: Counters, s: Counters)
    ensures c.(quota := s.quota).(day := s.day).(period := s.period).(credit := s.credit).(payg := s.payg) == s
  {
  }

  /** With every write stored it is the settlement of the whole reservation. */
  lemma AllWritesSettle(c: Counters, user: string, res: Reservation, st: Settlement)
    ensures WriteAll(c, user, res, st, Writes(res, st.countRequest)) == Settle(c, user, res, st)
  {
    WritesAreFive(c, user, res, st);
    var s := Settle(c, user, res, st);
    WritesQuota(c, user, res, st);
    var c1 := c.(quota := s.quota);
    WritesDay(c, c1, user, res, st);
    var c2 := c1.(day := s.day);
    WritesPeriod(c, c2, user, res, st);
    var c3 := c2.(period := s.period);
    WritesCredit(c, c3, user, res, st);
    var c4 := c3.(credit := s.credit);
    WritesPayg(c, c4, user, res, st);
    FiveUpdates(c, s);
  }

  /** What a release takes from its counter, be it the first or a second one: the quota row and the
      balance rows give what they still hold, the two credit counters the whole amount. */
  function Given(c: Counters, user: string, res: Reservation, w: Counter): int {
    match w
    case QuotaRow => Min(QuotaCounter.Read(c.quota, QuotaKey(user, res)).reserved, res.quotaTokens)
    case DayCount => res.creditsPerDay
    case PeriodCount => res.creditsPerPeriod
    case CreditRow => if c.credit.None? then 0 else Min(c.credit.value.reserved, res.requestCredits)
    case PaygRow => if c.payg.None? then 0 else Min(c.payg.value.reserved, res.paygUnits)
  }

  /** What a counter holds back, for the two credit counters what it counts. */
  function Load(c: Counters, user: string, res: Reservation, w: Counter): int {
    match w
    case QuotaRow => QuotaCounter.Read(c.quota, QuotaKey(user, res)).reserved
    case DayCount => Count(c.day, res.planKey)
    case PeriodCount => Count(c.period, res.planKey)
    case CreditRow => if c.credit.None? then 0 else c.credit.value.reserved
    case PaygRow => if c.payg.None? then 0 else c.payg.value.reserved
  }

  /** So a release changes nothing exactly where a clamped row holds nothing back any more; a second
      release of a day or period counter is never harmless: it lowers it by the whole reservation. */
  lemma ReleaseChangesNothingIff(c: Counters, user: string, res: Reservation, w: Counter)
    requires Valid(c) && Proper(res) && AmountOf(res, w) > 0
    ensures var c' := WriteOne(c, user, res, NO_SETTLEMENT, w);
      && Load(c', user, res, w) == Load(c, user, res, w) - Given(c, user, res, w)
      && (Same(c', c) <==> w !in {DayCount, PeriodCount} && Load(c, user, res, w) == 0)
  {
    var c' := WriteOne(c, user, res, NO_SETTLEMENT, w);
    match w
    case QuotaRow =>
      var k := QuotaKey(user, res);
      assert Same(c', c) ==> QuotaCounter.Read(c'.quota, k) == QuotaCounter.Read(c.quota, k);
    case DayCount => assert Same(c', c) ==> Count(c'.day, res.planKey) == Count(c.day, res.planKey);
    case PeriodCount => assert Same(c', c) ==> Count(c'.period, res.planKey) == Count(c.period, res.planKey);
    case _ =>
  }

  // ----- what the reservation chain decides -----

  function Group(s: Subscription): string { if s.liveGroup != "" then s.liveGroup else s.group }

  predicate Covered(s: Subscription) { Group(s) in {"unlimited", "unlimited_plan"} && s.covers }

  predicate CostConfigured(cost: Option<Cost>) { cost.Some? && cost.value.isActive }

  function PlanPrice(cost: Cost): int { if cost.isFree || cost.price <= 0 then 0 else cost.price }

  predicate MetersCredits(req: Request)
    requires req.subscription.Some?
  {
    req.rateLimited && (req.subscription.value.creditsPerDay > 0 || req.subscription.value.creditsPerPeriod > 0)
  }

  /** The plan credits a subscription request reserves. */
  function PlanCredits(req: Request): nat
    requires req.subscription.Some?
  {
    if !MetersCredits(req) || !CostConfigured(req.cost) then 0
    else CreditPricing.ReservedCredits(PlanPrice(req.cost.value), req.estimate.total)
  }

  function PromptPrice(p: Price): int { if p.input > 0 then p.input else if p.cached.Some? then p.cached.value else 0 }

  function PaygUnits(req: Request): int
    requires req.price.Some?
  {
    req.estimate.prompt * PromptPrice(req.price.value) + req.estimate.completion * req.price.value.output
  }

  predicate QuotaFits(req: Request, c: Counters)
    requires req.subscription.Some?
  {
    var s := req.subscription.value;
    s.quotaLimit > 0 ==>
      && req.estimate.bounded && !req.faults.quota
      && QuotaCounter.CanReserve(QuotaCounter.Lookup(c.quota, QuotaCounter.Key(req.user, s.start, s.end)), req.estimate.total, s.quotaLimit)
  }

  /** A credit limit of zero does not limit, and nothing is counted for a zero amount. */
  predicate CreditsFit(m: Counts, k: int, amount: int, limit: int, fault: bool) {
    amount > 0 && limit > 0 ==> !fault && Count(m, k) + amount <= limit
  }

  predicate Affords(row: Option<CreditLedger.Row>, amount: int, fault: bool) {
    if amount > 0 then !fault && row.Some? && CreditLedger.CanReserve(row.value, amount) else true
  }

  /** When a request is let through. */
  predicate Admits(req: Request, c: Counters) {
    if req.source in {"", "subscription"} then
      && req.subscription.Some? && Covered(req.subscription.value) && QuotaFits(req, c)
      && (MetersCredits(req) ==> CostConfigured(req.cost))
      && CreditsFit(c.day, req.subscription.value.start, PlanCredits(req), req.subscription.value.creditsPerDay, req.faults.day)
      && CreditsFit(c.period, req.subscription.value.start, PlanCredits(req), req.subscription.value.creditsPerPeriod, req.faults.period)
    else if req.source == "credit" then
      && req.model.Some? && req.model.value.publicId != "" && CostConfigured(req.cost)
      && (if PlanPrice(req.cost.value) == 0 then c.credit.Some? && c.credit.value.balance > 0
          else Affords(c.credit, CreditPricing.ReservedCredits(req.cost.value.price, req.estimate.total), req.faults.credit))
    else if req.source == "payg" then
      && req.model.Some? && req.model.value.paygExposed && req.price.Some?
      && (req.estimate.bounded || req.price.value.output <= 0)
      && (if PaygUnits(req) <= 0 then c.payg.Some? && c.payg.value.balance > 0
          else Affords(c.payg, PaygUnits(req), req.faults.payg))
    else false
  }

  /** The reservation of a plan's token quota. */
  function WithQuota(req: Request): Reservation
    requires req.subscription.Some?
  {
    var s := req.subscription.value;
    var res := NOTHING.(mode := "unlimited", planCode := s.planCode);
    if s.quotaLimit > 0 && req.estimate.total > 0
    then res.(start := s.start, end := s.end, quotaTokens := req.estimate.total) else res
  }

  /** The reservation with the plan credits of the request. */
  function WithPlanCredits(req: Request, res: Reservation): Reservation
    requires req.subscription.Some?
  {
    var s := req.subscription.value;
    if !MetersCredits(req) || !CostConfigured(req.cost) || PlanPrice(req.cost.value) == 0 then res
    else res.(planPrice := req.cost.value.price, planKey := s.start,
              creditsPerDay := if s.creditsPerDay > 0 then PlanCredits(req) else 0,
              creditsPerPeriod := if s.creditsPerPeriod > 0 then PlanCredits(req) else 0)
  }

  /** Subscription, cost and price are configured as far as the source of the request needs them. */
  predicate Configured(req: Request) {
    if req.source in {"", "subscription"} then req.subscription.Some?
    else if req.source == "credit" then req.cost.Some?
    else req.source == "payg" && req.price.Some?
  }

  /** The whole reservation of a request. */
  function FullReservation(req: Request): Reservation
    requires Configured(req)
  {
    if req.source in {"", "subscription"} then
      WithPlanCredits(req, WithQuota(req))
    else if req.source == "credit" then
      var price := PlanPrice(req.cost.value);
      NOTHING.(mode := "credit_package", requestCredits := CreditPricing.ReservedCredits(price, req.estimate.total), creditPrice := price)
    else NOTHING.(mode := "payg_topup", paygUnits := Max(PaygUnits(req), 0))
  }

  /** The reservation a request that is let through holds. */
  function Granted(req: Request, c: Counters): Reservation
    requires Admits(req, c)
  {
    FullReservation(req)
  }

  // ----- laws of reserving and settling -----

  lemma QuotaGivenBack(t: QuotaCounter.Table, k: QuotaCounter.Key, tokens: nat, used: nat, count: bool)
    ensures var t' := t[k := QuotaCounter.Reserved(QuotaCounter.Lookup(t, k), tokens)];
      QuotaCounter.Finalized(QuotaCounter.Lookup(t', k), tokens, used, count)
      == QuotaCounter.Counter(QuotaCounter.Read(t, k).used + used, QuotaCounter.Read(t, k).reserved,
                              QuotaCounter.Read(t, k).requests + if count then 1 else 0)
  {
  }

  lemma QuotaUndone(t: QuotaCounter.Table, k: QuotaCounter.Key, tokens: nat)
    ensures var t' := t[k := QuotaCounter.Reserved(QuotaCounter.Lookup(t, k), tokens)];
      forall j :: QuotaCounter.Read(t'[k := QuotaCounter.Finalized(QuotaCounter.Lookup(t', k), tokens, 0, false)], j)
        == QuotaCounter.Read(t, j)
  {
    QuotaGivenBack(t, k, tokens, 0, false);
  }

  /** The counters after a request, as if its settlement had been applied without reserving:
      used tokens and requests are added, the credit counters hold what was used, the balance
      rows lose what was charged, as far as they can. */
  ghost predicate ChargedTo(before: Counters, after: Counters, user: string, res: Reservation, st: Settlement) {
    && QuotaChargedTo(before.quota, after.quota, user, res, st)
    && (forall k :: Count(after.day, k) == Count(before.day, k) + if k == res.planKey && res.creditsPerDay > 0 then Credits(st) else 0)
    && (forall k :: Count(after.period, k) == Count(before.period, k) + if k == res.planKey && res.creditsPerPeriod > 0 then Credits(st) else 0)
    && Debited(before.credit, after.credit, res.requestCredits, Credits(st))
    && Debited(before.payg, after.payg, res.paygUnits, Units(st))
  }

  ghost predicate QuotaChargedTo(before: QuotaCounter.Table, after: QuotaCounter.Table, user: string, res: Reservation, st: Settlement) {
    forall k :: QuotaCounter.Read(after, k) ==
      if k == QuotaKey(user, res) && (res.quotaTokens > 0 || st.countRequest)
      then var r := QuotaCounter.Read(before, k);
           QuotaCounter.Counter(r.used + Used(st), r.reserved, r.requests + if st.countRequest then 1 else 0)
      else QuotaCounter.Read(before, k)
  }

  ghost predicate Debited(before: Option<CreditLedger.Row>, after: Option<CreditLedger.Row>, reserved: int, actual: int) {
    if before.None? || reserved <= 0 then after == before
    else after == Some(CreditLedger.Row(before.value.balance - Min(Max(actual, 0), before.value.balance), before.value.reserved))
  }

  predicate Proper(res: Reservation) {
    res.requestCredits >= 0 && res.paygUnits >= 0 && res.creditsPerDay >= 0 && res.creditsPerPeriod >= 0
  }

  /** Reserving and then settling has the effect of the settlement alone. */
  lemma SettlementIsAllThatStays(c: Counters, user: string, res: Reservation, st: Settlement)
    requires Valid(c) && Proper(res)
    ensures ChargedTo(c, Settle(Take(c, user, res), user, res, st), user, res, st)
  {
    QuotaSettled(c, user, res, st);
    BalanceGivenBack(c.credit, res.requestCredits, Credits(st));
    BalanceGivenBack(c.payg, res.paygUnits, Units(st));
    CountGivenBack(c.day, res.planKey, res.creditsPerDay, Credits(st));
    CountGivenBack(c.period, res.planKey, res.creditsPerPeriod, Credits(st));
  }

  lemma QuotaSettled(c: Counters, user: string, res: Reservation, st: Settlement)
    ensures QuotaChargedTo(c.quota, Settle(Take(c, user, res), user, res, st).quota, user, res, st)
  {
    QuotaGivenBack(c.quota, QuotaKey(user, res), res.quotaTokens, Used(st), st.countRequest);
  }

  lemma BalanceGivenBack(row: Option<CreditLedger.Row>, reserved: int, actual: int)
    requires Held(row)
    ensures Debited(row, Released(HeldBack(row, reserved), reserved, actual), reserved, actual)
  {
  }

  lemma CountGivenBack(m: Counts, key: int, reserved: int, actual: int)
    requires reserved >= 0
    ensures forall k :: Count(Added(Added(m, key, reserved), key, if reserved > 0 then actual - reserved else 0), k)
              == Count(m, k) + if k == key && reserved > 0 then actual else 0
  {
  }

  /** So settling with nothing gives every counter back. */
  lemma EmptySettlementRestores(c: Counters, user: string, res: Reservation)
    requires Valid(c) && Proper(res)
    ensures Same(Settle(Take(c, user, res), user, res, NO_SETTLEMENT), c)
  {
    SettlementIsAllThatStays(c, user, res, NO_SETTLEMENT);
  }

  /** A request draws on the one source of its key, and says so. */
  lemma OneSourceOnly(req: Request, c: Counters)
    requires Admits(req, c)
    ensures var res, after := Granted(req, c), Take(c, req.user, Granted(req, c));
      && Proper(res)
      && res.mode == (if req.source == "credit" then "credit_package" else if req.source == "payg" then "payg_topup" else "unlimited")
      && (res.mode != "unlimited" ==> after.quota == c.quota && after.day == c.day && after.period == c.period)
      && (res.mode != "credit_package" ==> after.credit == c.credit)
      && (res.mode != "payg_topup" ==> after.payg == c.payg)
  {
  }

  /** No reservation passes the limit it was checked against. */
  lemma GrantedWithinLimits(req: Request, c: Counters)
    requires Admits(req, c)
    ensures var res, after := Granted(req, c), Take(c, req.user, Granted(req, c));
      && (res.quotaTokens > 0 ==>
            var row := QuotaCounter.Read(after.quota, QuotaKey(req.user, res));
            row.used + row.reserved <= req.subscription.value.quotaLimit)
      && (res.creditsPerDay > 0 ==> Count(after.day, res.planKey) <= req.subscription.value.creditsPerDay)
      && (res.creditsPerPeriod > 0 ==> Count(after.period, res.planKey) <= req.subscription.value.creditsPerPeriod)
      && (res.requestCredits > 0 ==> after.credit.Some? && after.credit.value.reserved <= after.credit.value.balance)
      && (res.paygUnits > 0 ==> after.payg.Some? && after.payg.value.reserved <= after.payg.value.balance)
  {
  }

  // ----- the refusals -----

  datatype Verdict = Verdict(status: int, code: string)

  const LET_THROUGH := Verdict(0, "")

  function SubscriptionVerdict(req: Request, c: Counters): Verdict {
    if req.subscription.None? then Verdict(402, "no_active_subscription")
    else
      var s := req.subscription.value;
      if !Covered(s) then Verdict(402, "subscription_not_covering_model")
      else if QuotaVerdict(req, c) != LET_THROUGH then QuotaVerdict(req, c)
      else if MetersCredits(req) then PlanVerdict(req, c.day, c.period)
      else LET_THROUGH
  }

  function QuotaVerdict(req: Request, c: Counters): Verdict
    requires req.subscription.Some?
  {
    var s := req.subscription.value;
    if s.quotaLimit > 0 && !req.estimate.bounded then Verdict(400, "max_tokens_required")
    else if s.quotaLimit > 0 && req.faults.quota && req.estimate.total <= s.quotaLimit then Verdict(500, "quota_reservation_failed")
    else if !QuotaFits(req, c) then Verdict(429, "quota_exceeded")
    else LET_THROUGH
  }

  function PlanVerdict(req: Request, day: Counts, period: Counts): Verdict
    requires req.subscription.Some? && MetersCredits(req)
  {
    var s, credits := req.subscription.value, PlanCredits(req);
    if !CostConfigured(req.cost) then Verdict(500, "subscription_credit_cost_not_configured")
    else if !CreditsFit(day, s.start, credits, s.creditsPerDay, req.faults.day) then Verdict(429, "plan_credit_rpd_exceeded")
    else if !CreditsFit(period, s.start, credits, s.creditsPerPeriod, req.faults.period) then Verdict(429, "plan_credit_period_exceeded")
    else LET_THROUGH
  }

  function CreditVerdict(req: Request, c: Counters): Verdict
    requires req.model.Some?
  {
    if req.model.value.publicId == "" || !CostConfigured(req.cost) then Verdict(402, "credit_cost_not_configured")
    else if Admits(req.(source := "credit"), c) then LET_THROUGH
    else if PlanPrice(req.cost.value) > 0 && req.faults.credit then Verdict(500, "credit_reservation_failed")
    else Verdict(402, "insufficient_credit_balance")
  }

  function PaygVerdict(req: Request, c: Counters): Verdict
    requires req.model.Some?
  {
    if !req.model.value.paygExposed then Verdict(402, "payg_model_not_published")
    else if req.price.None? then Verdict(402, "payg_price_not_configured")
    else if !req.estimate.bounded && req.price.value.output > 0 then Verdict(400, "max_tokens_required")
    else if Admits(req.(source := "payg"), c) then LET_THROUGH
    else if PaygUnits(req) > 0 && req.faults.payg then Verdict(500, "payg_reservation_failed")
    else Verdict(402, "insufficient_balance")
  }

  function Decide(req: Request, c: Counters): Verdict
    requires req.model.Some?
  {
    if req.source in {"", "subscription"} then SubscriptionVerdict(req, c)
    else if req.source == "credit" then CreditVerdict(req, c)
    else if req.source == "payg" then PaygVerdict(req, c)
    else Verdict(402, "billing_source_not_applicable")
  }

  /** The checks in their order refuse exactly what is not let through. */
  lemma RefusesUnlessAdmitted(req: Request, c: Counters)
    requires req.model.Some?
    ensures Decide(req, c).status == 0 <==> Admits(req, c)
    ensures Decide(req, c).status in {0, 400, 402, 429, 500} && (Decide(req, c).code == "" <==> Decide(req, c).status == 0)
  {
    if req.source in {"", "subscription"} {
      SubscriptionDecides(req, c);
    } else if req.source == "credit" {
      assert req.(source := "credit") == req;
    } else if req.source == "payg" {
      assert req.(source := "payg") == req;
    }
  }

  lemma SubscriptionDecides(req: Request, c: Counters)
    requires req.source in {"", "subscription"}
    ensures SubscriptionVerdict(req, c).status == 0 <==> Admits(req, c)
    ensures SubscriptionVerdict(req, c).status in {0, 400, 402, 429, 500}
    ensures SubscriptionVerdict(req, c).code == "" <==> SubscriptionVerdict(req, c).status == 0
  {
  }

  lemma GivenBackIsSame(before: Counters, after: Counters, user: string, res: Reservation)
    requires var k := QuotaKey(user, res);
      var taken := if res.quotaTokens == 0 then before.quota
                   else before.quota[k := QuotaCounter.Reserved(QuotaCounter.Lookup(before.quota, k), res.quotaTokens)];
      after.quota == if res.quotaTokens == 0 then taken
                     else taken[k := QuotaCounter.Finalized(QuotaCounter.Lookup(taken, k), res.quotaTokens, 0, false)]
    requires forall j :: Count(after.day, j) == Count(before.day, j) && Count(after.period, j) == Count(before.period, j)
    requires after.credit == before.credit && after.payg == before.payg
    ensures Same(after, before)
  {
    QuotaUndone(before.quota, QuotaKey(user, res), res.quotaTokens);
  }

  // ----- the statements in order -----

  datatype StoreError = LimitReached | Unavailable

  class Gateway {
    var quota: QuotaCounter.Table
    var day: Counts
    var period: Counts
    var credit: Option<CreditLedger.Row>
    var payg: Option<CreditLedger.Row>

    ghost function Value(): Counters
      reads this
    {
      Counters(quota, day, period, credit, payg)
    }

    method ReserveQuotaTokens(k: QuotaCounter.Key, tokens: nat, limit: int, fault: bool) returns (error: Option<StoreError>)
      requires tokens > 0 && limit > 0
      modifies this`quota
      ensures error.None? <==> !fault && QuotaCounter.CanReserve(QuotaCounter.Lookup(old(quota), k), tokens, limit)
      ensures error == Some(Unavailable) <==> fault && tokens <= limit
      ensures quota == if error.None? then old(quota)[k := QuotaCounter.Reserved(QuotaCounter.Lookup(old(quota), k), tokens)] else old(quota)
    {
      if tokens > limit {
        return Some(LimitReached);
      }
      if fault {
        return Some(Unavailable);
      }
      if k !in quota {
        quota := quota[k := QuotaCounter.Counter(0, tokens, 0)];
      } else if quota[k].used + quota[k].reserved + tokens <= limit {
        quota := quota[k := quota[k].(reserved := quota[k].reserved + tokens)];
      } else {
        return Some(LimitReached);
      }
      return None;
    }

    method FinalizeQuotaTokens(k: QuotaCounter.Key, reserved: nat, used: nat, count: bool)
      modifies this`quota
      ensures quota == if reserved == 0 && used == 0 && !count then old(quota)
                       else old(quota)[k := QuotaCounter.Finalized(QuotaCounter.Lookup(old(quota), k), reserved, used, count)]
    {
      if reserved <= 0 && used <= 0 && !count {
        return;
      }
      var n := if count then 1 else 0;
      var row := QuotaCounter.Read(quota, k);
      quota := quota[k := QuotaCounter.Counter(row.used + used, Max(row.reserved - reserved, 0), row.requests + n)];
    }

    /** Increment, compare, undo. */
    method CheckPlanCreditRPD(k: int, amount: int, limit: int, fault: bool) returns (ok: bool)
      requires limit > 0
      modifies this`day
      ensures ok <==> CreditsFit(old(day), k, amount, limit, fault)
      ensures ok ==> day == Added(old(day), k, if amount > 0 then amount else 0)
      ensures !ok ==> forall j :: Count(day, j) == Count(old(day), j)
    {
      if amount <= 0 {
        return true;
      }
      if fault {
        return false;
      }
      day := day[k := Count(day, k) + amount];
      if day[k] > limit {
        day := day[k := day[k] - amount];
        return false;
      }
      return true;
    }

    method CheckPlanCreditsPerPeriod(k: int, amount: int, limit: int, fault: bool) returns (ok: bool)
      requires limit > 0
      modifies this`period
      ensures ok <==> CreditsFit(old(period), k, amount, limit, fault)
      ensures ok ==> period == Added(old(period), k, if amount > 0 then amount else 0)
      ensures !ok ==> forall j :: Count(period, j) == Count(old(period), j)
    {
      if amount <= 0 {
        return true;
      }
      if fault {
        return false;
      }
      period := period[k := Count(period, k) + amount];
      if period[k] > limit {
        period := period[k := period[k] - amount];
        return false;
      }
      return true;
    }

    method FinalizePlanCreditRPD(k: int, reserved: int, actual: int)
      modifies this`day
      ensures day == Added(old(day), k, if reserved > 0 then actual - reserved else 0)
    {
      if reserved <= 0 || actual == reserved {
        return;
      }
      day := day[k := Count(day, k) + (actual - reserved)];
    }

    method FinalizePlanCreditsPerPeriod(k: int, reserved: int, actual: int)
      modifies this`period
      ensures period == Added(old(period), k, if reserved > 0 then actual - reserved else 0)
    {
      if reserved <= 0 || actual == reserved {
        return;
      }
      period := period[k := Count(period, k) + (actual - reserved)];
    }

    method ReserveRequestCredits(amount: int, fault: bool) returns (error: Option<StoreError>)
      modifies this`credit
      ensures error.None? <==> Affords(old(credit), amount, fault)
      ensures error == Some(Unavailable) <==> amount > 0 && fault
      ensures credit == if error.None? then HeldBack(old(credit), amount) else old(credit)
    {
      if amount <= 0 {
        return None;
      }
      if fault {
        return Some(Unavailable);
      }
      if credit.None? || credit.value.balance - credit.value.reserved < amount {
        return Some(LimitReached);
      }
      credit := Some(CreditLedger.Row(credit.value.balance, credit.value.reserved + amount));
      return None;
    }

    method ReservePaygUsdBalance(amount: int, fault: bool) returns (error: Option<StoreError>)
      modifies this`payg
      ensures error.None? <==> Affords(old(payg), amount, fault)
      ensures error == Some(Unavailable) <==> amount > 0 && fault
      ensures payg == if error.None? then HeldBack(old(payg), amount) else old(payg)
    {
      if amount <= 0 {
        return None;
      }
      if fault {
        return Some(Unavailable);
      }
      if payg.None? || payg.value.balance - payg.value.reserved < amount {
        return Some(LimitReached);
      }
      payg := Some(CreditLedger.Row(payg.value.balance, payg.value.reserved + amount));
      return None;
    }

    /** Releases the reservation and debits, both clamped at zero. */
    method FinalizeRequestCredits(reserved: int, actual: int)
      requires reserved > 0
      modifies this`credit
      ensures credit == Released(old(credit), reserved, actual)
    {
      if credit.Some? {
        var row := credit.value;
        credit := Some(CreditLedger.Row(Max(row.balance - Min(Max(actual, 0), row.balance), 0), Max(row.reserved - reserved, 0)));
      }
    }

    method FinalizePaygUsdBalance(reserved: int, actual: int)
      requires reserved > 0
      modifies this`payg
      ensures payg == Released(old(payg), reserved, actual)
    {
      if payg.Some? {
        var row := payg.value;
        payg := Some(CreditLedger.Row(Max(row.balance - Min(Max(actual, 0), row.balance), 0), Max(row.reserved - reserved, 0)));
      }
    }

    method TrySubscription(req: Request) returns (res: Reservation, v: Verdict)
      requires req.source in {"", "subscription"} && req.model.Some? && req.estimate.total >= 1
      modifies this
      ensures v == SubscriptionVerdict(req, old(Value()))
      ensures v == LET_THROUGH ==> req.subscription.Some? && res == WithPlanCredits(req, WithQuota(req))
      ensures v == LET_THROUGH ==> Value() == Take(old(Value()), req.user, res)
      ensures v != LET_THROUGH ==> res == NOTHING && Same(Value(), old(Value()))
    {
      if req.subscription.None? {
        return NOTHING, Verdict(402, "no_active_subscription");
      }
      var s := req.subscription.value;
      var group := s.liveGroup;
      if group == "" {
        group := s.group;
      }
      if (group != "unlimited" && group != "unlimited_plan") || !s.covers {
        return NOTHING, Verdict(402, "subscription_not_covering_model");
      }
      res, v := ReservePlanQuota(req);
      if v != LET_THROUGH {
        return NOTHING, v;
      }
      res, v := MeterPlan(req, res, old(Value()));
    }

    /** The metered part of a plan, once its quota is taken; a refusal gives that back too. */
    method MeterPlan(req: Request, sofar: Reservation, ghost before: Counters) returns (res: Reservation, v: Verdict)
      requires req.subscription.Some? && sofar == WithQuota(req)
      requires Value() == before.(quota := Take(before, req.user, sofar).quota)
      modifies this
      ensures v == if MetersCredits(req) then PlanVerdict(req, before.day, before.period) else LET_THROUGH
      ensures v == LET_THROUGH ==> res == WithPlanCredits(req, sofar) && Value() == Take(before, req.user, res)
      ensures v != LET_THROUGH ==> res == NOTHING && Same(Value(), before)
    {
      var s := req.subscription.value;
      if req.rateLimited && (s.creditsPerDay > 0 || s.creditsPerPeriod > 0) {
        res, v := ReservePlanCredits(req, sofar);
        if v != LET_THROUGH {
          GiveBackQuota(req.user, res);
          GivenBackIsSame(before, Value(), req.user, res);
          return NOTHING, v;
        }
        return res, v;
      }
      return sofar, LET_THROUGH;
    }

    /** The token quota of a plan that has one. */
    method ReservePlanQuota(req: Request) returns (res: Reservation, v: Verdict)
      requires req.subscription.Some? && req.estimate.total >= 1
      modifies this`quota
      ensures v == QuotaVerdict(req, old(Value()))
      ensures v == LET_THROUGH ==> QuotaFits(req, old(Value())) && res == WithQuota(req)
      ensures v == LET_THROUGH ==> quota == Take(old(Value()), req.user, res).quota
      ensures v != LET_THROUGH ==> quota == old(quota)
    {
      var s := req.subscription.value;
      res := NOTHING.(mode := "unlimited", planCode := s.planCode);
      if s.quotaLimit <= 0 {
        return res, LET_THROUGH;
      }
      if !req.estimate.bounded {
        return NOTHING, Verdict(400, "max_tokens_required");
      }
      var error := ReserveQuotaTokens(QuotaCounter.Key(req.user, s.start, s.end), req.estimate.total, s.quotaLimit, req.faults.quota);
      if error.Some? {
        match error.value
        case LimitReached => return NOTHING, Verdict(429, "quota_exceeded");
        case Unavailable => return NOTHING, Verdict(500, "quota_reservation_failed");
      }
      return res.(start := s.start, end := s.end, quotaTokens := req.estimate.total), LET_THROUGH;
    }

    /** The credit counters of a metered plan; a refusal leaves both as they were. */
    method ReservePlanCredits(req: Request, sofar: Reservation) returns (res: Reservation, v: Verdict)
      requires req.subscription.Some? && MetersCredits(req)
      requires sofar.creditsPerDay == sofar.creditsPerPeriod == 0
      modifies this`day, this`period
      ensures v == PlanVerdict(req, old(day), old(period))
      ensures v == LET_THROUGH ==> res == WithPlanCredits(req, sofar)
      ensures v == LET_THROUGH ==> day == Added(old(day), res.planKey, res.creditsPerDay)
      ensures v == LET_THROUGH ==> period == Added(old(period), res.planKey, res.creditsPerPeriod)
      ensures v != LET_THROUGH ==> forall j :: Count(day, j) == Count(old(day), j) && Count(period, j) == Count(old(period), j)
      ensures res.quotaTokens == sofar.quotaTokens && QuotaKey("", res) == QuotaKey("", sofar)
    {
      res := sofar;
      var s := req.subscription.value;
      if req.cost.None? || !req.cost.value.isActive {
        return res, Verdict(500, "subscription_credit_cost_not_configured");
      }
      if req.cost.value.isFree || req.cost.value.price <= 0 {
        return res, LET_THROUGH;
      }
      var reservedCredits := CreditPricing.ReservedCredits(req.cost.value.price, req.estimate.total);
      res := res.(planKey := s.start);
      if s.creditsPerDay > 0 {
        var ok := CheckPlanCreditRPD(s.start, reservedCredits, s.creditsPerDay, req.faults.day);
        if !ok {
          return res, Verdict(429, "plan_credit_rpd_exceeded");
        }
        res := res.(creditsPerDay := reservedCredits);
      }
      if s.creditsPerPeriod > 0 {
        var ok := CheckPlanCreditsPerPeriod(s.start, reservedCredits, s.creditsPerPeriod, req.faults.period);
        if !ok {
          if res.creditsPerDay > 0 {
            FinalizePlanCreditRPD(s.start, res.creditsPerDay, 0);
          }
          return res, Verdict(429, "plan_credit_period_exceeded");
        }
        res := res.(creditsPerPeriod := reservedCredits);
      }
      return res.(planPrice := req.cost.value.price), LET_THROUGH;
    }

    method GiveBackQuota(user: string, res: Reservation)
      modifies this`quota
      ensures quota == if res.quotaTokens == 0 then old(quota) else
        old(quota)[QuotaKey(user, res) := QuotaCounter.Finalized(QuotaCounter.Lookup(old(quota), QuotaKey(user, res)), res.quotaTokens, 0, false)]
    {
      if res.quotaTokens > 0 {
        FinalizeQuotaTokens(QuotaKey(user, res), res.quotaTokens, 0, false);
      }
    }

    method TryCredit(req: Request) returns (res: Reservation, v: Verdict)
      requires req.source == "credit" && req.model.Some? && req.estimate.total >= 1
      modifies this`credit
      ensures v == CreditVerdict(req, old(Value()))
      ensures v == LET_THROUGH ==> Admits(req, old(Value())) && res == Granted(req, old(Value()))
      ensures v == LET_THROUGH ==> Value() == Take(old(Value()), req.user, res)
      ensures v != LET_THROUGH ==> res == NOTHING && Value() == old(Value())
    {
      assert req.(source := "credit") == req;
      if req.model.value.publicId == "" || req.cost.None? || !req.cost.value.isActive {
        return NOTHING, Verdict(402, "credit_cost_not_configured");
      }
      var cost := req.cost.value;
      if cost.isFree || cost.price <= 0 {
        if credit.Some? && credit.value.balance > 0 {
          return NOTHING.(mode := "credit_package"), LET_THROUGH;
        }
        return NOTHING, Verdict(402, "insufficient_credit_balance");
      }
      var reservedCredits := CreditPricing.ReservedCredits(cost.price, req.estimate.total);
      var error := ReserveRequestCredits(reservedCredits, req.faults.credit);
      if error.Some? {
        match error.value
        case LimitReached => return NOTHING, Verdict(402, "insufficient_credit_balance");
        case Unavailable => return NOTHING, Verdict(500, "credit_reservation_failed");
      }
      res := NOTHING.(mode := "credit_package", requestCredits := reservedCredits, creditPrice := cost.price);
      return res, LET_THROUGH;
    }

    method TryPayg(req: Request) returns (res: Reservation, v: Verdict)
      requires req.source == "payg" && req.model.Some? && req.estimate.total >= 1
      modifies this`payg
      ensures v == PaygVerdict(req, old(Value()))
      ensures v == LET_THROUGH ==> Admits(req, old(Value())) && res == Granted(req, old(Value()))
      ensures v == LET_THROUGH ==> Value() == Take(old(Value()), req.user, res)
      ensures v != LET_THROUGH ==> res == NOTHING && Value() == old(Value())
    {
      assert req.(source := "payg") == req;
      if !req.model.value.paygExposed {
        return NOTHING, Verdict(402, "payg_model_not_published");
      }
      if req.price.None? {
        return NOTHING, Verdict(402, "payg_price_not_configured");
      }
      var price := req.price.value;
      if !req.estimate.bounded && price.output > 0 {
        return NOTHING, Verdict(400, "max_tokens_required");
      }
      var reserve := req.estimate.prompt * PromptPrice(price) + req.estimate.completion * price.output;
      if reserve <= 0 {
        if payg.Some? && payg.value.balance > 0 {
          return NOTHING.(mode := "payg_topup"), LET_THROUGH;
        }
        return NOTHING, Verdict(402, "insufficient_balance");
      }
      var error := ReservePaygUsdBalance(reserve, req.faults.payg);
      if error.Some? {
        match error.value
        case LimitReached => return NOTHING, Verdict(402, "insufficient_balance");
        case Unavailable => return NOTHING, Verdict(500, "payg_reservation_failed");
      }
      return NOTHING.(mode := "payg_topup", paygUnits := reserve), LET_THROUGH;
    }

    /** All or nothing: a refusal leaves every counter as it was; otherwise the reservation names
        its source and records exactly what was taken. */
    method TryPriorityBilling(req: Request) returns (res: Reservation, v: Verdict)
      requires req.estimate.total >= 1
      modifies this
      ensures req.model.None? ==> res == NOTHING && v == LET_THROUGH && Value() == old(Value())
      ensures req.model.Some? ==> v == Decide(req, old(Value())) && (v == LET_THROUGH <==> Admits(req, old(Value())))
      ensures req.model.Some? && v == LET_THROUGH ==> res == Granted(req, old(Value())) && res.mode != ""
      ensures req.model.Some? && v == LET_THROUGH ==> Value() == Take(old(Value()), req.user, res)
      ensures v != LET_THROUGH ==> res == NOTHING && Same(Value(), old(Value()))
    {
      if req.model.None? {
        return NOTHING, LET_THROUGH;
      }
      RefusesUnlessAdmitted(req, Value());
      var source := req.source;
      if source == "" {
        source := "subscription";
      }
      if source == "subscription" {
        res, v := TrySubscription(req);
      } else if source == "credit" {
        res, v := TryCredit(req);
      } else if source == "payg" {
        res, v := TryPayg(req);
      } else {
        return NOTHING, Verdict(402, "billing_source_not_applicable");
      }
    }

    /** One write of a finalization. */
    method FinalizeCounter(user: string, res: Reservation, st: Settlement, w: Counter)
      requires if w == QuotaRow then res.quotaTokens > 0 || st.countRequest else AmountOf(res, w) > 0
      modifies this
      ensures Value() == WriteOne(old(Value()), user, res, st, w)
    {
      var usedTokens, actualUnits, actualCredits := 0, 0, 0;
      if st.chargeUsage {
        usedTokens, actualUnits, actualCredits := st.totalTokens, st.costUnits, st.actualCredits;
      }
      match w
      case QuotaRow => FinalizeQuotaTokens(QuotaKey(user, res), res.quotaTokens, usedTokens, st.countRequest);
      case DayCount => FinalizePlanCreditRPD(res.planKey, res.creditsPerDay, actualCredits);
      case PeriodCount => FinalizePlanCreditsPerPeriod(res.planKey, res.creditsPerPeriod, actualCredits);
      case CreditRow => FinalizeRequestCredits(res.requestCredits, actualCredits);
      case PaygRow => FinalizePaygUsdBalance(res.paygUnits, actualUnits);
    }

    /** The write of one counter if it applies.  `done` are the writes made before it, of a
        finalization whose first `stored` writes succeed. */
    method FinalizeIf(user: string, res: Reservation, st: Settlement, w: Counter, applies: bool, left: nat,
        ghost start: Counters, ghost done: seq<Counter>, ghost stored: nat)
      returns (ok: bool, left': nat)
      requires applies == if w == QuotaRow then res.quotaTokens > 0 || st.countRequest else AmountOf(res, w) > 0
      requires Value() == WriteAll(start, user, res, st, done) && left == stored - |done|
      requires done + OneIf(w, applies) <= Writes(res, st.countRequest)
      modifies this
      ensures ok <==> |done + OneIf(w, applies)| <= stored
      ensures ok ==> Value() == WriteAll(start, user, res, st, done + OneIf(w, applies))
      ensures ok ==> left' == stored - |done + OneIf(w, applies)|
      ensures !ok ==> Value() == SettlePart(start, user, res, st, stored)
    {
      ok, left' := true, left;
      if applies {
        if left == 0 {
          assert Writes(res, st.countRequest)[..stored] == done;
          return false, 0;
        }
        FinalizeCounter(user, res, st, w);
        left' := left - 1;
      }
      SnocWrite(start, user, res, st, done, w, applies);
    }

    /** The writes stop at the first that fails; `stored` says how many succeed before it. */
    method FinalizeRuntimeReservation(user: string, res: Reservation, st: Settlement, stored: nat) returns (ok: bool)
      modifies this
      ensures ok <==> stored >= |Writes(res, st.countRequest)|
      ensures Value() == SettlePart(old(Value()), user, res, st, stored)
      ensures ok ==> Value() == Settle(old(Value()), user, res, st)
    {
      ghost var c := Value();
      AllWritesSettle(c, user, res, st);
      InOrder(res, st.countRequest);
      ghost var q := OneIf(QuotaRow, res.quotaTokens > 0 || st.countRequest);
      var left;
      ok, left := FinalizeIf(user, res, st, QuotaRow, res.quotaTokens > 0 || st.countRequest, stored, c, [], stored);
      if !ok { return; }
      ok, left := FinalizeIf(user, res, st, DayCount, res.creditsPerDay > 0, left, c, q, stored);
      if !ok { return; }
      q := q + IfHeld(res, DayCount);
      ok, left := FinalizeIf(user, res, st, PeriodCount, res.creditsPerPeriod > 0, left, c, q, stored);
      if !ok { return; }
      q := q + IfHeld(res, PeriodCount);
      ok, left := FinalizeIf(user, res, st, CreditRow, res.requestCredits > 0, left, c, q, stored);
      if !ok { return; }
      q := q + IfHeld(res, CreditRow);
      ok, left := FinalizeIf(user, res, st, PaygRow, res.paygUnits > 0, left, c, q, stored);
    }
  }
}
