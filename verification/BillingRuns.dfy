/** Many requests of one user through the reservation chain, one statement at a time: what the
    counters hold at every moment, whatever the interleaving.

    A request reserves statement by statement, undoes an increment that passed its limit, gives back
    what it took when a later statement refuses it, and settles counter by counter.  Any statement
    may fail without effect. */
module BillingRuns {
  import opened Sums
  import opened PriorityBilling
  import CreditLedger
  import CreditPricing
  import QuotaCounter

  type Id = nat

  // ----- the program of a request -----

  /** A statement that takes an amount, a check that refuses, or the balance a free request needs. */
  datatype Item =
    | Reserve(w: Counter, amount: nat, limit: int)
    | Refuse(why: Verdict)
    | NeedBalance(w: Counter)

  function IfAny(w: Counter, amount: nat, limit: int): seq<Item> {
    if amount > 0 && limit > 0 then [Reserve(w, amount, limit)] else []
  }

  function SubscriptionPlan(req: Request): seq<Item> {
    if req.subscription.None? then [Refuse(Verdict(402, "no_active_subscription"))]
    else if !Covered(req.subscription.value) then [Refuse(Verdict(402, "subscription_not_covering_model"))]
    else
      var s := req.subscription.value;
      if s.quotaLimit > 0 && !req.estimate.bounded then [Refuse(Verdict(400, "max_tokens_required"))]
      else
        IfAny(QuotaRow, Max(req.estimate.total, 0), s.quotaLimit) + CreditItems(req)
  }

  /** The part of a plan that meters credits. */
  function CreditItems(req: Request): seq<Item>
    requires req.subscription.Some?
  {
    var s := req.subscription.value;
    if !MetersCredits(req) then []
    else if !CostConfigured(req.cost) then [Refuse(Verdict(500, "subscription_credit_cost_not_configured"))]
    else IfAny(DayCount, PlanCredits(req), s.creditsPerDay) + IfAny(PeriodCount, PlanCredits(req), s.creditsPerPeriod)
  }

  function CreditPlan(req: Request): seq<Item> {
    if req.model.None? || req.model.value.publicId == "" || !CostConfigured(req.cost) then
      [Refuse(Verdict(402, "credit_cost_not_configured"))]
    else if PlanPrice(req.cost.value) == 0 then [NeedBalance(CreditRow)]
    else IfAny(CreditRow, CreditPricing.ReservedCredits(req.cost.value.price, req.estimate.total), 1)
  }

  function PaygPlan(req: Request): seq<Item> {
    if req.model.None? || !req.model.value.paygExposed then [Refuse(Verdict(402, "payg_model_not_published"))]
    else if req.price.None? then [Refuse(Verdict(402, "payg_price_not_configured"))]
    else if !req.estimate.bounded && req.price.value.output > 0 then [Refuse(Verdict(400, "max_tokens_required"))]
    else if PaygUnits(req) <= 0 then [NeedBalance(PaygRow)]
    else [Reserve(PaygRow, PaygUnits(req), 1)]
  }

  function Plan(req: Request): seq<Item> {
    if req.source in {"", "subscription"} then SubscriptionPlan(req)
    else if req.source == "credit" then CreditPlan(req)
    else if req.source == "payg" then PaygPlan(req)
    else [Refuse(Verdict(402, "billing_source_not_applicable"))]
  }

  /** The answer when a reserve statement refuses, or fails. */
  function RefusedAt(w: Counter, amount: nat, limit: int, fault: bool): Verdict {
    match w
    case QuotaRow => if fault && amount <= limit then Verdict(500, "quota_reservation_failed") else Verdict(429, "quota_exceeded")
    case DayCount => Verdict(429, "plan_credit_rpd_exceeded")
    case PeriodCount => Verdict(429, "plan_credit_period_exceeded")
    case CreditRow => if fault then Verdict(500, "credit_reservation_failed") else Verdict(402, "insufficient_credit_balance")
    case PaygRow => if fault then Verdict(500, "payg_reservation_failed") else Verdict(402, "insufficient_balance")
  }

  // ----- a request in flight -----

  datatype Phase =
    | Reserving(next: nat)
    | Undoing(w: Counter, why: Verdict)
    | GivingBack(rest: seq<Counter>, why: Verdict)
    | Admitted
    | Settling(left: seq<Counter>, st: Settlement)
    | Refused(why: Verdict)
    | Settled(st: Settlement)
    | Stopped(st: Settlement)

  /** What settling has added for good, what it charged to the two balances, and what they lost. */
  datatype Spent = Spent(tokens: nat, requests: nat, day: int, period: int,
    creditCharge: nat, creditDebit: int, paygCharge: nat, paygDebit: int)

  const NONE_SPENT := Spent(0, 0, 0, 0, 0, 0, 0, 0)

  /** `held` is what the request holds of each counter at the moment; `clean` says that none of its
      undo, give-back or settlement statements failed. */
  datatype Proc = Proc(req: Request, held: Reservation, spent: Spent, phase: Phase, clean: bool)

  function Holding(res: Reservation, w: Counter, amount: nat): Reservation {
    match w
    case QuotaRow => res.(quotaTokens := amount)
    case DayCount => res.(creditsPerDay := amount)
    case PeriodCount => res.(creditsPerPeriod := amount)
    case CreditRow => res.(requestCredits := amount)
    case PaygRow => res.(paygUnits := amount)
  }

  /** The reservation a request is after. */
  function Full(req: Request): Reservation { if Configured(req) then FullReservation(req) else NOTHING }

  /** A reservation with nothing taken. */
  function Keys(res: Reservation): Reservation {
    res.(quotaTokens := 0, creditsPerDay := 0, creditsPerPeriod := 0, requestCredits := 0, paygUnits := 0)
  }

  function Blank(req: Request): Reservation { Keys(Full(req)) }

  function Begun(req: Request): Proc { Proc(req, Blank(req), NONE_SPENT, Reserving(0), true) }

  /** What is given back, in reverse order of taking. */
  function GiveBacks(held: Reservation, day: bool): seq<Counter> {
    OneIf(DayCount, day && held.creditsPerDay > 0) + OneIf(QuotaRow, held.quotaTokens > 0)
  }

  function TurnedAway(p: Proc, day: bool, why: Verdict): Proc { p.(phase := GivingBack(GiveBacks(p.held, day), why)) }

  function Row(c: Counters, w: Counter): Option<CreditLedger.Row> { if w == CreditRow then c.credit else c.payg }

  /** The atomic part of a reserve statement: whether it takes the amount, and the counters then. */
  predicate Takes(c: Counters, user: string, held: Reservation, i: Item)
    requires i.Reserve?
  {
    match i.w
    case QuotaRow => QuotaCounter.CanReserve(QuotaCounter.Lookup(c.quota, QuotaKey(user, held)), i.amount, i.limit)
    case DayCount => true
    case PeriodCount => true
    case _ => Row(c, i.w).Some? && CreditLedger.CanReserve(Row(c, i.w).value, i.amount)
  }

  function Taken(c: Counters, user: string, held: Reservation, w: Counter, amount: nat): Counters {
    match w
    case QuotaRow =>
      var k := QuotaKey(user, held);
      c.(quota := c.quota[k := QuotaCounter.Reserved(QuotaCounter.Lookup(c.quota, k), amount)])
    case DayCount => c.(day := Added(c.day, held.planKey, amount))
    case PeriodCount => c.(period := Added(c.period, held.planKey, amount))
    case CreditRow => c.(credit := HeldBack(c.credit, amount))
    case PaygRow => c.(payg := HeldBack(c.payg, amount))
  }

  /** An increment is compared with the limit afterwards. */
  predicate Passed(c: Counters, held: Reservation, i: Item)
    requires i.Reserve?
  {
    match i.w
    case DayCount => Count(c.day, held.planKey) > i.limit
    case PeriodCount => Count(c.period, held.planKey) > i.limit
    case _ => false
  }

  /** One item of the program; `ok` says whether its statement takes effect. */
  function Tried(c: Counters, p: Proc, user: string, ok: bool, i: Item): (Counters, Proc)
    requires p.phase.Reserving?
  {
    match i
    case Refuse(why) => (c, TurnedAway(p, true, why))
    case NeedBalance(w) =>
      if Row(c, w).Some? && Row(c, w).value.balance > 0 then (c, p.(phase := Reserving(p.phase.next + 1)))
      else (c, TurnedAway(p, true, RefusedAt(w, 0, 0, false)))
    case Reserve(w, amount, limit) =>
      if !ok || !Takes(c, user, p.held, i) then (c, TurnedAway(p, true, RefusedAt(w, amount, limit, !ok)))
      else
        var c' := Taken(c, user, p.held, w, amount);
        var p' := p.(held := Holding(p.held, w, amount));
        if Passed(c', p.held, i) then (c', p'.(phase := Undoing(w, RefusedAt(w, amount, limit, false))))
        else (c', p'.(phase := Reserving(p.phase.next + 1)))
  }

  function Reserved(c: Counters, p: Proc, user: string, ok: bool): (Counters, Proc)
    requires p.phase.Reserving?
  {
    if p.phase.next >= |Plan(p.req)| then (c, p.(phase := Admitted))
    else Tried(c, p, user, ok, Plan(p.req)[p.phase.next])
  }

  /** The decrement of an increment that passed its limit. */
  function Undone(c: Counters, held: Reservation, w: Counter): Counters {
    match w
    case DayCount => c.(day := Added(c.day, held.planKey, -held.creditsPerDay))
    case PeriodCount => c.(period := Added(c.period, held.planKey, -held.creditsPerPeriod))
    case _ => c
  }

  function Debit(row: Option<CreditLedger.Row>, actual: int): int {
    if row.None? then 0 else Min(Max(actual, 0), row.value.balance)
  }

  function Spending(c: Counters, s: Spent, st: Settlement, w: Counter): Spent {
    match w
    case QuotaRow => s.(tokens := s.tokens + Used(st), requests := s.requests + if st.countRequest then 1 else 0)
    case DayCount => s.(day := s.day + Credits(st))
    case PeriodCount => s.(period := s.period + Credits(st))
    case CreditRow =>
      s.(creditCharge := s.creditCharge + Max(Credits(st), 0), creditDebit := s.creditDebit + Debit(c.credit, Credits(st)))
    case PaygRow =>
      s.(paygCharge := s.paygCharge + Max(Units(st), 0), paygDebit := s.paygDebit + Debit(c.payg, Units(st)))
  }

  /** One statement of a request; `ok` says whether it takes effect. */
  function Advanced(c: Counters, p: Proc, user: string, ok: bool): (Counters, Proc) {
    match p.phase
    case Reserving(_) => Reserved(c, p, user, ok)
    case Undoing(w, why) =>
      if ok && w in {DayCount, PeriodCount}
      then (Undone(c, p.held, w), TurnedAway(p.(held := Holding(p.held, w, 0)), w == PeriodCount, why))
      else (c, TurnedAway(p.(clean := false), w == PeriodCount, why))
    case GivingBack(rest, why) =>
      if rest == [] then (c, p.(phase := Refused(why)))
      else if !ok then (c, p.(clean := false, phase := GivingBack(rest[1..], why)))
      else (WriteOne(c, user, p.held, NO_SETTLEMENT, rest[0]),
            p.(held := Holding(p.held, rest[0], 0), phase := GivingBack(rest[1..], why)))
    case Settling(left, st) =>
      if left == [] then (c, p.(phase := Settled(st)))
      else if !ok then (c, p.(clean := false, phase := Stopped(st)))
      else (WriteOne(c, user, p.held, st, left[0]),
            p.(held := Holding(p.held, left[0], 0), spent := Spending(c, p.spent, st, left[0]), phase := Settling(left[1..], st)))
    case _ => (c, p)
  }

  /** A request that was let through goes on to settle, one counter after the other. */
  function Finishing(p: Proc, st: Settlement): Proc { p.(phase := Settling(Writes(p.held, st.countRequest), st)) }

  // ----- the transition system -----

  datatype State = State(c: Counters, procs: map<Id, Proc>)

  datatype Step =
    | Begin(id: Id, req: Request)
    | Advance(id: Id, ok: bool)
    | Finish(id: Id, st: Settlement)

  function Next(s: State, step: Step, user: string): State {
    match step
    case Begin(id, req) =>
      if id in s.procs || req.user != user then s else s.(procs := s.procs[id := Begun(req)])
    case Advance(id, ok) =>
      if id !in s.procs then s
      else var (c', p') := Advanced(s.c, s.procs[id], user, ok); State(c', s.procs[id := p'])
    case Finish(id, st) =>
      if id !in s.procs || s.procs[id].phase != Admitted then s
      else s.(procs := s.procs[id := Finishing(s.procs[id], st)])
  }

  function Run(s: State, steps: seq<Step>, user: string): State
    decreases |steps|
  {
    if steps == [] then s else Run(Next(s, steps[0], user), steps[1..], user)
  }

  function Init(c: Counters): State { State(c, map[]) }

  // ----- what each request knows of itself -----

  function HeldAfter(req: Request, n: nat): Reservation
    requires n <= |Plan(req)|
  {
    if n == 0 then Blank(req)
    else
      var i := Plan(req)[n - 1];
      if i.Reserve? then Holding(HeldAfter(req, n - 1), i.w, i.amount) else HeldAfter(req, n - 1)
  }

  /** The first items of the program do not refuse. */
  predicate GotThrough(req: Request, n: nat) { n <= |Plan(req)| && forall i :: 0 <= i < n ==> !Plan(req)[i].Refuse? }

  predicate HoldsNothing(res: Reservation) { forall w: Counter :: AmountOf(res, w) == 0 }

  ghost predicate Covers(rest: seq<Counter>, held: Reservation) { forall w: Counter :: AmountOf(held, w) > 0 ==> w in rest }

  ghost predicate LocalOk(p: Proc) {
    && Proper(p.held)
    && match p.phase
       case Reserving(n) => GotThrough(p.req, n) && p.held == HeldAfter(p.req, n) && p.spent == NONE_SPENT && p.clean
       case Undoing(w, _) =>
         && w in {DayCount, PeriodCount} && p.spent == NONE_SPENT && p.clean
         && Covers([w] + GiveBacks(p.held, w == PeriodCount), p.held)
       case GivingBack(rest, _) => p.spent == NONE_SPENT && (p.clean ==> Covers(rest, p.held)) && Distinct(rest)
       case Admitted =>
         GotThrough(p.req, |Plan(p.req)|) && p.held == HeldAfter(p.req, |Plan(p.req)|) && p.spent == NONE_SPENT && p.clean
       case Settling(left, _) => p.clean && Covers(left, p.held) && Distinct(left)
       case Refused(_) => p.spent == NONE_SPENT && (p.clean ==> HoldsNothing(p.held))
       case Settled(_) => p.clean && HoldsNothing(p.held)
       case Stopped(_) => !p.clean
  }

  ghost predicate Distinct(ws: seq<Counter>) { forall i, j :: 0 <= i < j < |ws| ==> ws[i] != ws[j] }

  /** Only the last item of a program takes from the period counter or from a balance. */
  lemma LastTakesRest(req: Request, i: nat)
    requires i + 1 < |Plan(req)|
    ensures Plan(req)[i].Reserve? ==> Plan(req)[i].w in {QuotaRow, DayCount}
  {
  }

  lemma {:induction false} EarlyHolds(req: Request, n: nat)
    requires n < |Plan(req)|
    ensures var h := HeldAfter(req, n);
      h.creditsPerPeriod == 0 && h.requestCredits == 0 && h.paygUnits == 0
  {
    if n > 0 {
      EarlyHolds(req, n - 1);
      LastTakesRest(req, n - 1);
    }
  }

  lemma {:induction false} HeldAfterProper(req: Request, n: nat)
    requires n <= |Plan(req)|
    ensures Proper(HeldAfter(req, n))
  {
    if n > 0 {
      HeldAfterProper(req, n - 1);
    }
  }

  lemma GiveBacksCover(held: Reservation)
    requires Proper(held) && held.creditsPerPeriod == 0 && held.requestCredits == 0 && held.paygUnits == 0
    ensures Covers(GiveBacks(held, true), held) && Distinct(GiveBacks(held, true))
    ensures held.creditsPerDay == 0 ==> Covers(GiveBacks(held, false), held)
    ensures Distinct(GiveBacks(held, false))
  {
  }

  lemma WritesCover(held: Reservation, countRequest: bool)
    ensures Covers(Writes(held, countRequest), held)
  {
    forall w: Counter | AmountOf(held, w) > 0 ensures w in Writes(held, countRequest) {
      assert w != QuotaRow ==> w in IfHeld(held, w);
    }
  }

  predicate Ordered(ws: seq<Counter>) { forall i, j :: 0 <= i < j < |ws| ==> Rank(ws[i]) < Rank(ws[j]) }

  function Rank(w: Counter): nat {
    match w case QuotaRow => 0 case DayCount => 1 case PeriodCount => 2 case CreditRow => 3 case PaygRow => 4
  }

  lemma OrderedConcat(ws: seq<Counter>, w: Counter, b: bool)
    requires Ordered(ws) && forall v :: v in ws ==> Rank(v) < Rank(w)
    ensures Ordered(ws + OneIf(w, b)) && forall v :: v in ws + OneIf(w, b) ==> Rank(v) <= Rank(w)
  {
    assert forall i :: 0 <= i < |ws| ==> ws[i] in ws;
  }

  lemma WritesDistinct(held: Reservation, countRequest: bool)
    ensures Distinct(Writes(held, countRequest))
  {
    var ws := OneIf(QuotaRow, held.quotaTokens > 0 || countRequest);
    OrderedConcat(ws, DayCount, AmountOf(held, DayCount) > 0);
    ws := ws + IfHeld(held, DayCount);
    OrderedConcat(ws, PeriodCount, AmountOf(held, PeriodCount) > 0);
    ws := ws + IfHeld(held, PeriodCount);
    OrderedConcat(ws, CreditRow, AmountOf(held, CreditRow) > 0);
    ws := ws + IfHeld(held, CreditRow);
    OrderedConcat(ws, PaygRow, AmountOf(held, PaygRow) > 0);
  }

  lemma TurnedAwayOk(p: Proc, why: Verdict)
    requires LocalOk(p) && p.phase.Reserving? && p.phase.next < |Plan(p.req)|
    ensures LocalOk(TurnedAway(p, true, why))
  {
    EarlyHolds(p.req, p.phase.next);
    GiveBacksCover(p.held);
  }

  lemma GoneOnOk(p: Proc)
    requires LocalOk(p) && p.phase.Reserving? && p.phase.next < |Plan(p.req)| && !Plan(p.req)[p.phase.next].Refuse?
    ensures LocalOk(p.(held := HeldAfter(p.req, p.phase.next + 1), phase := Reserving(p.phase.next + 1)))
  {
    HeldAfterProper(p.req, p.phase.next + 1);
  }

  lemma PassedOk(p: Proc, why: Verdict)
    requires LocalOk(p) && p.phase.Reserving? && p.phase.next < |Plan(p.req)|
    requires Plan(p.req)[p.phase.next].Reserve? && Plan(p.req)[p.phase.next].w in {DayCount, PeriodCount}
    ensures var i := Plan(p.req)[p.phase.next];
      LocalOk(p.(held := Holding(p.held, i.w, i.amount), phase := Undoing(i.w, why)))
  {
    EarlyHolds(p.req, p.phase.next);
    HeldAfterProper(p.req, p.phase.next + 1);
  }

  lemma ReservedKeepsLocal(c: Counters, p: Proc, user: string, ok: bool)
    requires LocalOk(p) && p.phase.Reserving?
    ensures LocalOk(Reserved(c, p, user, ok).1)
  {
    var n := p.phase.next;
    if n < |Plan(p.req)| {
      match Plan(p.req)[n]
      case Refuse(why) => TurnedAwayOk(p, why);
      case NeedBalance(w) =>
        TurnedAwayOk(p, RefusedAt(w, 0, 0, false));
        GoneOnOk(p);
      case Reserve(w, amount, limit) =>
        TurnedAwayOk(p, RefusedAt(w, amount, limit, !ok));
        GoneOnOk(p);
        if w in {DayCount, PeriodCount} {
          PassedOk(p, RefusedAt(w, amount, limit, false));
        }
    }
  }

  lemma UndoneKeepsLocal(c: Counters, p: Proc, user: string, ok: bool)
    requires LocalOk(p) && p.phase.Undoing?
    ensures LocalOk(Advanced(c, p, user, ok).1)
  {
    var w := p.phase.w;
    var held := Holding(p.held, w, 0);
    assert GiveBacks(held, w == PeriodCount) == GiveBacks(p.held, w == PeriodCount);
    forall v: Counter | AmountOf(held, v) > 0 ensures v in GiveBacks(held, w == PeriodCount) {
      assert v in [w] + GiveBacks(p.held, w == PeriodCount);
    }
  }

  lemma RestCovers(ws: seq<Counter>, held: Reservation)
    requires ws != [] && Covers(ws, held) && Distinct(ws) && Proper(held)
    ensures Covers(ws[1..], Holding(held, ws[0], 0)) && Distinct(ws[1..]) && Proper(Holding(held, ws[0], 0))
  {
    var held' := Holding(held, ws[0], 0);
    forall v: Counter | AmountOf(held', v) > 0 ensures v in ws[1..] {
      assert v in ws;
    }
  }

  lemma AdvanceKeepsLocal(c: Counters, p: Proc, user: string, ok: bool)
    requires LocalOk(p)
    ensures LocalOk(Advanced(c, p, user, ok).1)
  {
    match p.phase
    case Reserving(_) => ReservedKeepsLocal(c, p, user, ok);
    case Undoing(_, _) => UndoneKeepsLocal(c, p, user, ok);
    case GivingBack(rest, _) =>
      if rest != [] && p.clean {
        RestCovers(rest, p.held);
      }
    case Settling(left, _) =>
      if left != [] {
        RestCovers(left, p.held);
      }
    case _ =>
  }

  // ----- what each request contributes to a counter -----

  predicate AtKey(p: Proc, k: QuotaCounter.Key) { p.held.start == k.start && p.held.end == k.end }

  function QuotaHeld(k: QuotaCounter.Key): Proc -> int { (p: Proc) => if AtKey(p, k) then p.held.quotaTokens else 0 }

  function TokensSpent(k: QuotaCounter.Key): Proc -> int { (p: Proc) => if AtKey(p, k) then p.spent.tokens else 0 }

  function RequestsSpent(k: QuotaCounter.Key): Proc -> int { (p: Proc) => if AtKey(p, k) then p.spent.requests else 0 }

  function DayIn(q: int): Proc -> int { (p: Proc) => if p.held.planKey == q then p.held.creditsPerDay + p.spent.day else 0 }

  function PeriodIn(q: int): Proc -> int {
    (p: Proc) => if p.held.planKey == q then p.held.creditsPerPeriod + p.spent.period else 0
  }

  function CreditsHeld(): Proc -> int { (p: Proc) => p.held.requestCredits }

  function CreditsLost(): Proc -> int { (p: Proc) => p.spent.creditDebit }

  function CreditsCharged(): Proc -> int { (p: Proc) => p.spent.creditCharge }

  function UnitsHeld(): Proc -> int { (p: Proc) => p.held.paygUnits }

  function UnitsLost(): Proc -> int { (p: Proc) => p.spent.paygDebit }

  function UnitsCharged(): Proc -> int { (p: Proc) => p.spent.paygCharge }

  /** The counters moved by exactly what the request's contributions did. */
  ghost predicate QuotaMoves(c: Counters, p: Proc, c': Counters, p': Proc, user: string, k: QuotaCounter.Key) {
    var r, r' := QuotaCounter.Read(c.quota, k), QuotaCounter.Read(c'.quota, k);
    if k.user != user then r' == r
    else
      && r'.reserved - r.reserved == QuotaHeld(k)(p') - QuotaHeld(k)(p)
      && r'.used - r.used == TokensSpent(k)(p') - TokensSpent(k)(p)
      && r'.requests - r.requests == RequestsSpent(k)(p') - RequestsSpent(k)(p)
  }

  ghost predicate CountsMove(c: Counters, p: Proc, c': Counters, p': Proc, q: int) {
    && Count(c'.day, q) - Count(c.day, q) == DayIn(q)(p') - DayIn(q)(p)
    && Count(c'.period, q) - Count(c.period, q) == PeriodIn(q)(p') - PeriodIn(q)(p)
  }

  ghost predicate RowMoves(row: Option<CreditLedger.Row>, row': Option<CreditLedger.Row>, held: int, lost: int) {
    && row.Some? == row'.Some?
    && (if row.Some? then
          && row'.value.reserved - row.value.reserved == held && row'.value.balance - row.value.balance == -lost
          && (row.value.balance >= 0 ==> row'.value.balance >= 0)
        else held == 0 && lost == 0)
  }

  ghost predicate QuotasMove(c: Counters, p: Proc, c': Counters, p': Proc, user: string) {
    forall k :: QuotaMoves(c, p, c', p', user, k)
  }

  ghost predicate AllCountsMove(c: Counters, p: Proc, c': Counters, p': Proc) { forall q :: CountsMove(c, p, c', p', q) }

  ghost predicate CreditMoves(c: Counters, p: Proc, c': Counters, p': Proc) {
    RowMoves(c.credit, c'.credit, p'.held.requestCredits - p.held.requestCredits, p'.spent.creditDebit - p.spent.creditDebit)
  }

  ghost predicate PaygMoves(c: Counters, p: Proc, c': Counters, p': Proc) {
    RowMoves(c.payg, c'.payg, p'.held.paygUnits - p.held.paygUnits, p'.spent.paygDebit - p.spent.paygDebit)
  }

  ghost predicate Moves(c: Counters, p: Proc, c': Counters, p': Proc, user: string) {
    QuotasMove(c, p, c', p', user) && AllCountsMove(c, p, c', p') && CreditMoves(c, p, c', p') && PaygMoves(c, p, c', p')
  }

  /** The counters hold at least what the request holds. */
  predicate RowEnough(row: Option<CreditLedger.Row>, held: int) {
    (row.Some? ==> row.value.balance >= 0) && (held > 0 ==> row.Some? && row.value.reserved >= held)
  }

  predicate Enough(c: Counters, p: Proc, user: string) {
    && QuotaCounter.Read(c.quota, QuotaKey(user, p.held)).reserved >= p.held.quotaTokens
    && RowEnough(c.credit, p.held.requestCredits) && RowEnough(c.payg, p.held.paygUnits)
  }

  lemma TakenMoves(c: Counters, p: Proc, user: string, w: Counter, amount: nat)
    requires AmountOf(p.held, w) == 0 && (w in {CreditRow, PaygRow} ==> Row(c, w).Some?)
    ensures Moves(c, p, Taken(c, user, p.held, w, amount), p.(held := Holding(p.held, w, amount)), user)
  {
  }

  lemma UndoneMoves(c: Counters, p: Proc, user: string, w: Counter)
    requires w in {DayCount, PeriodCount}
    ensures Moves(c, p, Undone(c, p.held, w), p.(held := Holding(p.held, w, 0)), user)
  {
  }

  lemma QuotaWrittenMoves(c: Counters, p: Proc, user: string, st: Settlement)
    requires Enough(c, p, user)
    ensures Moves(c, p, WriteOne(c, user, p.held, st, QuotaRow),
                  p.(held := Holding(p.held, QuotaRow, 0), spent := Spending(c, p.spent, st, QuotaRow)), user)
  {
  }

  lemma CountWrittenMoves(c: Counters, p: Proc, user: string, st: Settlement, w: Counter)
    requires w in {DayCount, PeriodCount} && AmountOf(p.held, w) > 0
    ensures Moves(c, p, WriteOne(c, user, p.held, st, w),
                  p.(held := Holding(p.held, w, 0), spent := Spending(c, p.spent, st, w)), user)
  {
  }

  lemma RowWrittenMoves(c: Counters, p: Proc, user: string, st: Settlement, w: Counter)
    requires w in {CreditRow, PaygRow} && AmountOf(p.held, w) > 0 && Enough(c, p, user)
    ensures Moves(c, p, WriteOne(c, user, p.held, st, w),
                  p.(held := Holding(p.held, w, 0), spent := Spending(c, p.spent, st, w)), user)
  {
  }

  lemma WrittenMoves(c: Counters, p: Proc, user: string, st: Settlement, w: Counter)
    requires Enough(c, p, user) && (w != QuotaRow ==> AmountOf(p.held, w) > 0)
    ensures Moves(c, p, WriteOne(c, user, p.held, st, w),
                  p.(held := Holding(p.held, w, 0), spent := Spending(c, p.spent, st, w)), user)
  {
    if w == QuotaRow {
      QuotaWrittenMoves(c, p, user, st);
    } else if w in {DayCount, PeriodCount} {
      CountWrittenMoves(c, p, user, st, w);
    } else {
      RowWrittenMoves(c, p, user, st, w);
    }
  }

  // ----- one statement moves the counters by what it changes in its request -----

  lemma PlanTakesOnce(req: Request, i: nat, j: nat)
    requires i < j < |Plan(req)| && Plan(req)[i].Reserve? && Plan(req)[j].Reserve?
    ensures Plan(req)[i].w != Plan(req)[j].w
  {
  }

  lemma {:induction false} NotYetTaken(req: Request, n: nat, w: Counter)
    requires n <= |Plan(req)| && forall i :: 0 <= i < n && Plan(req)[i].Reserve? ==> Plan(req)[i].w != w
    ensures AmountOf(HeldAfter(req, n), w) == 0
  {
    if n > 0 {
      NotYetTaken(req, n - 1, w);
    }
  }

  lemma ItemIsFresh(req: Request, n: nat)
    requires n < |Plan(req)| && Plan(req)[n].Reserve?
    ensures AmountOf(HeldAfter(req, n), Plan(req)[n].w) == 0
  {
    forall i | 0 <= i < n && Plan(req)[i].Reserve? ensures Plan(req)[i].w != Plan(req)[n].w {
      PlanTakesOnce(req, i, n);
    }
    NotYetTaken(req, n, Plan(req)[n].w);
  }

  /** Moves looks at what a request holds and has spent, not at its phase. */
  lemma PhaseDoesNotMove(c: Counters, p: Proc, c': Counters, p': Proc, p'': Proc, user: string)
    requires Moves(c, p, c', p', user) && p''.held == p'.held && p''.spent == p'.spent
    ensures Moves(c, p, c', p'', user)
  {
    forall k ensures QuotaMoves(c, p, c', p'', user, k) {
      assert QuotaMoves(c, p, c', p', user, k);
    }
    forall q ensures CountsMove(c, p, c', p'', q) {
      assert CountsMove(c, p, c', p', q);
    }
  }

  lemma StandsStill(c: Counters, p: Proc, p': Proc, user: string)
    requires p'.held == p.held && p'.spent == p.spent
    ensures Moves(c, p, c, p', user)
  {
  }

  lemma ReservedMoves(c: Counters, p: Proc, user: string, ok: bool)
    requires LocalOk(p) && p.phase.Reserving?
    ensures Moves(c, p, Reserved(c, p, user, ok).0, Reserved(c, p, user, ok).1, user)
  {
    var n := p.phase.next;
    var (c', p') := Reserved(c, p, user, ok);
    if n < |Plan(p.req)| && Plan(p.req)[n].Reserve? && ok && Takes(c, user, p.held, Plan(p.req)[n]) {
      var i := Plan(p.req)[n];
      ItemIsFresh(p.req, n);
      TakenMoves(c, p, user, i.w, i.amount);
      PhaseDoesNotMove(c, p, c', p.(held := Holding(p.held, i.w, i.amount)), p', user);
    } else {
      StandsStill(c, p, p', user);
    }
  }

  lemma ReleaseSpendsNothing(c: Counters, p: Proc, user: string, w: Counter)
    requires Enough(c, p, user)
    ensures Spending(c, p.spent, NO_SETTLEMENT, w) == p.spent
  {
  }

  lemma AdvanceMoves(c: Counters, p: Proc, user: string, ok: bool)
    requires LocalOk(p) && Enough(c, p, user)
    requires p.phase.GivingBack? ==> WritesHeld(p.phase.rest, p.held)
    requires p.phase.Settling? ==> WritesHeld(p.phase.left, p.held)
    ensures Moves(c, p, Advanced(c, p, user, ok).0, Advanced(c, p, user, ok).1, user)
  {
    var (c', p') := Advanced(c, p, user, ok);
    match p.phase
    case Reserving(_) => ReservedMoves(c, p, user, ok);
    case Undoing(w, _) =>
      if ok {
        UndoneMoves(c, p, user, w);
        PhaseDoesNotMove(c, p, c', p.(held := Holding(p.held, w, 0)), p', user);
      } else {
        StandsStill(c, p, p', user);
      }
    case GivingBack(rest, _) =>
      if rest != [] && ok {
        WrittenMoves(c, p, user, NO_SETTLEMENT, rest[0]);
        ReleaseSpendsNothing(c, p, user, rest[0]);
        var moved := p.(held := Holding(p.held, rest[0], 0), spent := Spending(c, p.spent, NO_SETTLEMENT, rest[0]));
        PhaseDoesNotMove(c, p, c', moved, p', user);
      } else {
        StandsStill(c, p, p', user);
      }
    case Settling(left, st) =>
      if left != [] && ok {
        WrittenMoves(c, p, user, st, left[0]);
        var moved := p.(held := Holding(p.held, left[0], 0), spent := Spending(c, p.spent, st, left[0]));
        PhaseDoesNotMove(c, p, c', moved, p', user);
      } else {
        StandsStill(c, p, p', user);
      }
    case _ => StandsStill(c, p, p', user);
  }

  /** The writes still to come are of counters that the request holds, or of its quota row. */
  predicate WritesHeld(ws: seq<Counter>, held: Reservation) {
    forall i :: 0 <= i < |ws| ==> ws[i] == QuotaRow || AmountOf(held, ws[i]) > 0
  }

  predicate PhaseWritesHeld(p: Proc) {
    && (p.phase.GivingBack? ==> WritesHeld(p.phase.rest, p.held))
    && (p.phase.Settling? ==> WritesHeld(p.phase.left, p.held))
  }

  lemma TurnedAwayWritesHeld(p: Proc, day: bool, why: Verdict)
    ensures PhaseWritesHeld(TurnedAway(p, day, why))
  {
  }

  lemma ReservedWritesHeld(c: Counters, p: Proc, user: string, ok: bool)
    requires p.phase.Reserving?
    ensures PhaseWritesHeld(Reserved(c, p, user, ok).1)
  {
    if p.phase.next < |Plan(p.req)| {
      match Plan(p.req)[p.phase.next]
      case Refuse(why) => TurnedAwayWritesHeld(p, true, why);
      case NeedBalance(w) => TurnedAwayWritesHeld(p, true, RefusedAt(w, 0, 0, false));
      case Reserve(w, amount, limit) => TurnedAwayWritesHeld(p, true, RefusedAt(w, amount, limit, !ok));
    }
  }

  lemma RestIsHeld(ws: seq<Counter>, held: Reservation)
    requires ws != [] && Distinct(ws) && WritesHeld(ws, held)
    ensures WritesHeld(ws[1..], held) && WritesHeld(ws[1..], Holding(held, ws[0], 0))
  {
  }

  lemma AdvanceKeepsWritesHeld(c: Counters, p: Proc, user: string, ok: bool)
    requires LocalOk(p) && PhaseWritesHeld(p)
    ensures PhaseWritesHeld(Advanced(c, p, user, ok).1)
  {
    match p.phase
    case Reserving(_) => ReservedWritesHeld(c, p, user, ok);
    case Undoing(w, why) =>
      TurnedAwayWritesHeld(p.(held := Holding(p.held, w, 0)), w == PeriodCount, why);
      TurnedAwayWritesHeld(p.(clean := false), w == PeriodCount, why);
    case GivingBack(rest, _) =>
      if rest != [] {
        RestIsHeld(rest, p.held);
      }
    case Settling(left, _) =>
      if left != [] {
        RestIsHeld(left, p.held);
      }
    case _ =>
  }

  // ----- the account of every counter -----

  ghost predicate QuotaAccount(s: State, base: Counters, user: string, k: QuotaCounter.Key) {
    var now, was := QuotaCounter.Read(s.c.quota, k), QuotaCounter.Read(base.quota, k);
    if k.user != user then now == was
    else
      && now.reserved == was.reserved + Sum(s.procs, QuotaHeld(k))
      && now.used == was.used + Sum(s.procs, TokensSpent(k))
      && now.requests == was.requests + Sum(s.procs, RequestsSpent(k))
  }

  ghost predicate CountAccount(s: State, base: Counters, q: int) {
    && Count(s.c.day, q) == Count(base.day, q) + Sum(s.procs, DayIn(q))
    && Count(s.c.period, q) == Count(base.period, q) + Sum(s.procs, PeriodIn(q))
  }

  ghost predicate RowAccount(row: Option<CreditLedger.Row>, base: Option<CreditLedger.Row>, held: int, lost: int) {
    && row.Some? == base.Some?
    && (if row.Some? then
          && row.value.reserved == base.value.reserved + held
          && row.value.balance == base.value.balance - lost && row.value.balance >= 0
        else held == 0 && lost == 0)
  }

  ghost predicate CreditAccount(s: State, base: Counters) {
    RowAccount(s.c.credit, base.credit, Sum(s.procs, CreditsHeld()), Sum(s.procs, CreditsLost()))
  }

  ghost predicate PaygAccount(s: State, base: Counters) {
    RowAccount(s.c.payg, base.payg, Sum(s.procs, UnitsHeld()), Sum(s.procs, UnitsLost()))
  }

  ghost predicate QuotaAccounts(s: State, base: Counters, user: string) { forall k :: QuotaAccount(s, base, user, k) }

  ghost predicate CountAccounts(s: State, base: Counters) { forall q :: CountAccount(s, base, q) }

  ghost predicate Accounts(s: State, base: Counters, user: string) {
    QuotaAccounts(s, base, user) && CountAccounts(s, base) && CreditAccount(s, base) && PaygAccount(s, base)
  }

  /** Requests keep the keys of their counters. */
  predicate Anchored(p: Proc) {
    Keys(p.held) == Blank(p.req)
  }

  ghost predicate ProcOk(p: Proc, user: string) {
    p.req.user == user && LocalOk(p) && Anchored(p) && PhaseWritesHeld(p) && SpentOk(p)
  }

  ghost predicate ProcsOk(procs: map<Id, Proc>, user: string) { forall id :: id in procs ==> ProcOk(procs[id], user) }

  ghost predicate Inv(s: State, base: Counters, user: string) {
    Valid(base) && Accounts(s, base, user) && ProcsOk(s.procs, user)
  }

  // ----- what settling spends -----

  /** Whether a settlement writes a counter, and what it then adds to it or charges to it. */
  predicate Applies(res: Reservation, st: Settlement, w: Counter) {
    AmountOf(res, w) > 0 || (w == QuotaRow && st.countRequest)
  }

  function Owed(res: Reservation, st: Settlement, w: Counter): int {
    if !Applies(res, st, w) then 0
    else match w
      case QuotaRow => Used(st)
      case DayCount => Credits(st)
      case PeriodCount => Credits(st)
      case CreditRow => Max(Credits(st), 0)
      case PaygRow => Max(Units(st), 0)
  }

  function SpentAt(s: Spent, w: Counter): int {
    match w
    case QuotaRow => s.tokens
    case DayCount => s.day
    case PeriodCount => s.period
    case CreditRow => s.creditCharge
    case PaygRow => s.paygCharge
  }

  /** A settlement with the writes `left` to come has spent what it owes of the others. */
  predicate SpentBy(p: Proc, left: seq<Counter>, st: Settlement, w: Counter) {
    && (w in left ==> Applies(Full(p.req), st, w))
    && SpentAt(p.spent, w) == if w in left then 0 else Owed(Full(p.req), st, w)
  }

  ghost predicate SpentSoFar(p: Proc, left: seq<Counter>, st: Settlement) {
    && (forall w: Counter :: SpentBy(p, left, st, w))
    && p.spent.requests == if QuotaRow in left || !st.countRequest then 0 else 1
  }

  predicate DebitsOk(s: Spent) { 0 <= s.creditDebit <= s.creditCharge && 0 <= s.paygDebit <= s.paygCharge }

  ghost predicate SpentOk(p: Proc) {
    && DebitsOk(p.spent)
    && (p.phase.Settling? ==> SpentSoFar(p, p.phase.left, p.phase.st))
    && (p.phase.Settled? ==> SpentSoFar(p, [], p.phase.st))
  }

  lemma WriteSpends(c: Counters, p: Proc, user: string)
    requires p.phase.Settling? && p.phase.left != [] && SpentOk(p) && Distinct(p.phase.left)
    requires RowEnough(c.credit, 0) && RowEnough(c.payg, 0)
    ensures SpentOk(Advanced(c, p, user, true).1)
  {
    var left, st := p.phase.left, p.phase.st;
    var p' := Advanced(c, p, user, true).1;
    forall w: Counter ensures SpentBy(p', left[1..], st, w) {
      assert SpentBy(p, left, st, w);
      assert w in left <==> w == left[0] || w in left[1..];
    }
  }

  lemma TriedSpendsNothing(c: Counters, p: Proc, user: string, ok: bool, i: Item)
    requires p.phase.Reserving?
    ensures var p' := Tried(c, p, user, ok, i).1; p'.spent == p.spent && !p'.phase.Settling? && !p'.phase.Settled?
  {
  }

  lemma AdvanceKeepsSpent(c: Counters, p: Proc, user: string, ok: bool)
    requires LocalOk(p) && SpentOk(p)
    requires RowEnough(c.credit, 0) && RowEnough(c.payg, 0)
    ensures SpentOk(Advanced(c, p, user, ok).1)
  {
    match p.phase
    case Reserving(n) =>
      if n < |Plan(p.req)| {
        TriedSpendsNothing(c, p, user, ok, Plan(p.req)[n]);
      }
    case Settling(left, st) =>
      if left != [] && ok {
        WriteSpends(c, p, user);
      } else if left == [] {
        forall w: Counter ensures SpentBy(p.(phase := Settled(st)), [], st, w) {
          assert SpentBy(p, left, st, w);
        }
      }
    case _ =>
  }

  // ----- every step keeps every account -----

  lemma PartOfSum(m: map<Id, Proc>, id: Id, f: Proc -> int)
    requires id in m && forall j :: j in m ==> f(m[j]) >= 0
    ensures f(m[id]) <= Sum(m, f)
  {
    SumDelete(m, id, f);
    SumMapNonNeg(Column(m - {id}, f));
  }

  lemma InvGivesEnough(s: State, base: Counters, user: string, id: Id)
    requires Inv(s, base, user) && id in s.procs
    ensures Enough(s.c, s.procs[id], user)
  {
    var p := s.procs[id];
    var k := QuotaKey(user, p.held);
    assert QuotaAccount(s, base, user, k);
    forall j | j in s.procs ensures Proper(s.procs[j].held) {
      assert ProcOk(s.procs[j], user);
    }
    PartOfSum(s.procs, id, QuotaHeld(k));
    PartOfSum(s.procs, id, CreditsHeld());
    PartOfSum(s.procs, id, UnitsHeld());
  }

  lemma QuotaFollows(s: State, id: Id, c': Counters, p': Proc, base: Counters, user: string, k: QuotaCounter.Key)
    requires id in s.procs && QuotaAccount(s, base, user, k) && QuotaMoves(s.c, s.procs[id], c', p', user, k)
    ensures QuotaAccount(State(c', s.procs[id := p']), base, user, k)
  {
    SumWrite(s.procs, id, p', QuotaHeld(k));
    SumWrite(s.procs, id, p', TokensSpent(k));
    SumWrite(s.procs, id, p', RequestsSpent(k));
  }

  lemma QuotasFollow(s: State, id: Id, c': Counters, p': Proc, base: Counters, user: string)
    requires id in s.procs && QuotaAccounts(s, base, user) && QuotasMove(s.c, s.procs[id], c', p', user)
    ensures QuotaAccounts(State(c', s.procs[id := p']), base, user)
  {
    var s' := State(c', s.procs[id := p']);
    forall k ensures QuotaAccount(s', base, user, k) {
      QuotaFollows(s, id, c', p', base, user, k);
    }
  }

  lemma CountFollows(s: State, id: Id, c': Counters, p': Proc, base: Counters, q: int)
    requires id in s.procs && CountAccount(s, base, q) && CountsMove(s.c, s.procs[id], c', p', q)
    ensures CountAccount(State(c', s.procs[id := p']), base, q)
  {
    SumWrite(s.procs, id, p', DayIn(q));
    SumWrite(s.procs, id, p', PeriodIn(q));
  }

  lemma CountsFollow(s: State, id: Id, c': Counters, p': Proc, base: Counters)
    requires id in s.procs && CountAccounts(s, base) && AllCountsMove(s.c, s.procs[id], c', p')
    ensures CountAccounts(State(c', s.procs[id := p']), base)
  {
    var s' := State(c', s.procs[id := p']);
    forall q ensures CountAccount(s', base, q) {
      CountFollows(s, id, c', p', base, q);
    }
  }

  lemma CreditFollows(s: State, id: Id, c': Counters, p': Proc, base: Counters)
    requires id in s.procs && CreditAccount(s, base) && CreditMoves(s.c, s.procs[id], c', p')
    ensures CreditAccount(State(c', s.procs[id := p']), base)
  {
    SumWrite(s.procs, id, p', CreditsHeld());
    SumWrite(s.procs, id, p', CreditsLost());
  }

  lemma PaygFollows(s: State, id: Id, c': Counters, p': Proc, base: Counters)
    requires id in s.procs && PaygAccount(s, base) && PaygMoves(s.c, s.procs[id], c', p')
    ensures PaygAccount(State(c', s.procs[id := p']), base)
  {
    SumWrite(s.procs, id, p', UnitsHeld());
    SumWrite(s.procs, id, p', UnitsLost());
  }

  lemma MoveKeepsInv(s: State, id: Id, c': Counters, p': Proc, base: Counters, user: string)
    requires Inv(s, base, user) && id in s.procs && Moves(s.c, s.procs[id], c', p', user) && ProcOk(p', user)
    ensures Inv(State(c', s.procs[id := p']), base, user)
  {
    QuotasFollow(s, id, c', p', base, user);
    CountsFollow(s, id, c', p', base);
    CreditFollows(s, id, c', p', base);
    PaygFollows(s, id, c', p', base);
  }

  lemma TriedKeepsRequest(c: Counters, p: Proc, user: string, ok: bool, i: Item)
    requires p.phase.Reserving?
    ensures Tried(c, p, user, ok, i).1.req == p.req
  {
  }

  lemma AdvanceKeepsRequest(c: Counters, p: Proc, user: string, ok: bool)
    ensures Advanced(c, p, user, ok).1.req == p.req
  {
    if p.phase.Reserving? && p.phase.next < |Plan(p.req)| {
      TriedKeepsRequest(c, p, user, ok, Plan(p.req)[p.phase.next]);
    }
  }

  lemma TriedKeepsAnchor(c: Counters, p: Proc, user: string, ok: bool, i: Item)
    requires p.phase.Reserving?
    ensures Keys(Tried(c, p, user, ok, i).1.held) == Keys(p.held)
  {
  }

  lemma KeysStay(c: Counters, p: Proc, user: string, ok: bool)
    ensures Keys(Advanced(c, p, user, ok).1.held) == Keys(p.held)
  {
    if p.phase.Reserving? && p.phase.next < |Plan(p.req)| {
      TriedKeepsAnchor(c, p, user, ok, Plan(p.req)[p.phase.next]);
    }
  }

  lemma AdvanceKeepsAnchor(c: Counters, p: Proc, user: string, ok: bool)
    requires Anchored(p)
    ensures Anchored(Advanced(c, p, user, ok).1)
  {
    AdvanceKeepsRequest(c, p, user, ok);
    KeysStay(c, p, user, ok);
  }

  lemma AdvanceKeepsProc(c: Counters, p: Proc, user: string, ok: bool)
    requires ProcOk(p, user) && Enough(c, p, user)
    ensures ProcOk(Advanced(c, p, user, ok).1, user)
  {
    AdvanceKeepsRequest(c, p, user, ok);
    AdvanceKeepsAnchor(c, p, user, ok);
    AdvanceKeepsLocal(c, p, user, ok);
    AdvanceKeepsWritesHeld(c, p, user, ok);
    AdvanceKeepsSpent(c, p, user, ok);
  }

  lemma AdvanceKeepsInv(s: State, id: Id, ok: bool, base: Counters, user: string)
    requires Inv(s, base, user) && id in s.procs
    ensures Inv(Next(s, Advance(id, ok), user), base, user)
  {
    var p := s.procs[id];
    assert ProcOk(p, user);
    InvGivesEnough(s, base, user, id);
    AdvanceMoves(s.c, p, user, ok);
    AdvanceKeepsProc(s.c, p, user, ok);
    MoveKeepsInv(s, id, Advanced(s.c, p, user, ok).0, Advanced(s.c, p, user, ok).1, base, user);
  }

  /** A request that holds and has spent nothing. */
  predicate Idle(p: Proc) { HoldsNothing(p.held) && p.spent == NONE_SPENT }

  lemma QuotaJoined(s: State, id: Id, p: Proc, base: Counters, user: string, k: QuotaCounter.Key)
    requires id !in s.procs && Idle(p) && QuotaAccount(s, base, user, k)
    ensures QuotaAccount(s.(procs := s.procs[id := p]), base, user, k)
  {
    assert AmountOf(p.held, QuotaRow) == 0;
    SumWrite(s.procs, id, p, QuotaHeld(k));
    SumWrite(s.procs, id, p, TokensSpent(k));
    SumWrite(s.procs, id, p, RequestsSpent(k));
  }

  lemma CountJoined(s: State, id: Id, p: Proc, base: Counters, q: int)
    requires id !in s.procs && Idle(p) && CountAccount(s, base, q)
    ensures CountAccount(s.(procs := s.procs[id := p]), base, q)
  {
    assert AmountOf(p.held, DayCount) == 0 && AmountOf(p.held, PeriodCount) == 0;
    SumWrite(s.procs, id, p, DayIn(q));
    SumWrite(s.procs, id, p, PeriodIn(q));
  }

  lemma RowsJoined(s: State, id: Id, p: Proc, base: Counters)
    requires id !in s.procs && Idle(p) && CreditAccount(s, base) && PaygAccount(s, base)
    ensures CreditAccount(s.(procs := s.procs[id := p]), base) && PaygAccount(s.(procs := s.procs[id := p]), base)
  {
    assert AmountOf(p.held, CreditRow) == 0 && AmountOf(p.held, PaygRow) == 0;
    SumWrite(s.procs, id, p, CreditsHeld());
    SumWrite(s.procs, id, p, CreditsLost());
    SumWrite(s.procs, id, p, UnitsHeld());
    SumWrite(s.procs, id, p, UnitsLost());
  }

  lemma JoinKeepsAccounts(s: State, id: Id, p: Proc, base: Counters, user: string)
    requires id !in s.procs && Idle(p) && Accounts(s, base, user)
    ensures Accounts(s.(procs := s.procs[id := p]), base, user)
  {
    var s' := s.(procs := s.procs[id := p]);
    forall k ensures QuotaAccount(s', base, user, k) {
      QuotaJoined(s, id, p, base, user, k);
    }
    forall q ensures CountAccount(s', base, q) {
      CountJoined(s, id, p, base, q);
    }
    RowsJoined(s, id, p, base);
  }

  lemma BegunOk(req: Request)
    ensures Idle(Begun(req)) && ProcOk(Begun(req), req.user)
  {
  }

  lemma BeginKeepsInv(s: State, id: Id, req: Request, base: Counters, user: string)
    requires Inv(s, base, user) && id !in s.procs && req.user == user
    ensures Inv(Next(s, Begin(id, req), user), base, user)
  {
    BegunOk(req);
    JoinKeepsAccounts(s, id, Begun(req), base, user);
  }

  lemma InOneOf(ws: seq<Counter>, vs: seq<Counter>, w: Counter)
    ensures w in ws + vs <==> w in ws || w in vs
  {
  }

  lemma WritesWhatApplies(res: Reservation, st: Settlement, w: Counter)
    ensures w in Writes(res, st.countRequest) <==> Applies(res, st, w)
  {
    var ws := OneIf(QuotaRow, res.quotaTokens > 0 || st.countRequest);
    InOneOf(ws, IfHeld(res, DayCount), w);
    ws := ws + IfHeld(res, DayCount);
    InOneOf(ws, IfHeld(res, PeriodCount), w);
    ws := ws + IfHeld(res, PeriodCount);
    InOneOf(ws, IfHeld(res, CreditRow), w);
    ws := ws + IfHeld(res, CreditRow);
    InOneOf(ws, IfHeld(res, PaygRow), w);
  }

  lemma FinishingOk(p: Proc, st: Settlement, user: string)
    requires ProcOk(p, user) && p.phase == Admitted
    ensures ProcOk(Finishing(p, st), user)
  {
    var left := Writes(p.held, st.countRequest);
    PlanTakesAll(p.req);
    WritesCover(p.held, st.countRequest);
    WritesDistinct(p.held, st.countRequest);
    forall i | 0 <= i < |left| ensures left[i] == QuotaRow || AmountOf(p.held, left[i]) > 0 {
      WritesWhatApplies(p.held, st, left[i]);
    }
    forall w: Counter ensures SpentBy(Finishing(p, st), left, st, w) {
      WritesWhatApplies(p.held, st, w);
    }
    WritesWhatApplies(p.held, st, QuotaRow);
  }

  lemma FinishStep(s: State, id: Id, st: Settlement, user: string)
    requires id in s.procs && s.procs[id].phase == Admitted
    ensures Next(s, Finish(id, st), user) == State(s.c, s.procs[id := Finishing(s.procs[id], st)])
    ensures Moves(s.c, s.procs[id], s.c, Finishing(s.procs[id], st), user)
  {
    StandsStill(s.c, s.procs[id], Finishing(s.procs[id], st), user);
  }

  lemma FinishKeepsInv(s: State, id: Id, st: Settlement, base: Counters, user: string)
    requires Inv(s, base, user) && id in s.procs && s.procs[id].phase == Admitted
    ensures Inv(Next(s, Finish(id, st), user), base, user)
  {
    FinishingOk(s.procs[id], st, user);
    FinishStep(s, id, st, user);
    MoveKeepsInv(s, id, s.c, Finishing(s.procs[id], st), base, user);
  }

  lemma NextKeepsInv(s: State, step: Step, base: Counters, user: string)
    requires Inv(s, base, user)
    ensures Inv(Next(s, step, user), base, user)
  {
    match step
    case Begin(id, req) =>
      if id !in s.procs && req.user == user {
        BeginKeepsInv(s, id, req, base, user);
      }
    case Advance(id, ok) =>
      if id in s.procs {
        AdvanceKeepsInv(s, id, ok, base, user);
      }
    case Finish(id, st) =>
      if id in s.procs && s.procs[id].phase == Admitted {
        FinishKeepsInv(s, id, st, base, user);
      }
  }

  lemma {:induction false} RunKeepsInv(s: State, steps: seq<Step>, base: Counters, user: string)
    requires Inv(s, base, user)
    ensures Inv(Run(s, steps, user), base, user)
    decreases |steps|
  {
    if steps != [] {
      NextKeepsInv(s, steps[0], base, user);
      RunKeepsInv(Next(s, steps[0], user), steps[1..], base, user);
    }
  }

  lemma InitQuota(c: Counters, user: string, k: QuotaCounter.Key)
    ensures QuotaAccount(Init(c), c, user, k)
  {
    SumEmpty(Init(c).procs, QuotaHeld(k));
    SumEmpty(Init(c).procs, TokensSpent(k));
    SumEmpty(Init(c).procs, RequestsSpent(k));
  }

  lemma InitCount(c: Counters, q: int)
    ensures CountAccount(Init(c), c, q)
  {
    SumEmpty(Init(c).procs, DayIn(q));
    SumEmpty(Init(c).procs, PeriodIn(q));
  }

  lemma InitRows(c: Counters)
    requires Valid(c)
    ensures CreditAccount(Init(c), c) && PaygAccount(Init(c), c)
  {
    SumEmpty(Init(c).procs, CreditsHeld());
    SumEmpty(Init(c).procs, CreditsLost());
    SumEmpty(Init(c).procs, UnitsHeld());
    SumEmpty(Init(c).procs, UnitsLost());
  }

  lemma InitKeepsAccounts(c: Counters, user: string)
    requires Valid(c)
    ensures Inv(Init(c), c, user)
  {
    forall k ensures QuotaAccount(Init(c), c, user, k) {
      InitQuota(c, user, k);
    }
    forall q ensures CountAccount(Init(c), c, q) {
      InitCount(c, q);
    }
    InitRows(c);
  }

  /** After every statement of every interleaving, every quota row, day and period counter and
      balance row holds exactly what the requests hold of it at that moment and what settling has
      added or taken away, and nothing else. */
  lemma EveryRunKeepsAccounts(c: Counters, steps: seq<Step>, user: string)
    requires Valid(c)
    ensures Accounts(Run(Init(c), steps, user), c, user)
    ensures Inv(Run(Init(c), steps, user), c, user)
  {
    InitKeepsAccounts(c, user);
    RunKeepsInv(Init(c), steps, c, user);
  }

  // ----- all or nothing, in every interleaving -----

  lemma PlanAmount(req: Request, i: nat)
    requires i < |Plan(req)| && Plan(req)[i].Reserve? && GotThrough(req, |Plan(req)|)
    ensures Configured(req) && Plan(req)[i].amount == AmountOf(Full(req), Plan(req)[i].w)
  {
    assert !Plan(req)[0].Refuse?;
  }

  /** The statement that takes from a counter, if the reservation holds any of it. */
  function ItemFor(req: Request, w: Counter): nat {
    if req.source !in {"", "subscription"} || req.subscription.None? then 0
    else
      var s := req.subscription.value;
      var q := |IfAny(QuotaRow, Max(req.estimate.total, 0), s.quotaLimit)|;
      match w
      case DayCount => q
      case PeriodCount => q + |IfAny(DayCount, PlanCredits(req), s.creditsPerDay)|
      case _ => 0
  }

  lemma PlanTakesFrom(req: Request, w: Counter)
    requires GotThrough(req, |Plan(req)|) && AmountOf(Full(req), w) != 0
    ensures ItemFor(req, w) < |Plan(req)| && Plan(req)[ItemFor(req, w)].Reserve? && Plan(req)[ItemFor(req, w)].w == w
  {
    assert |Plan(req)| > 0 ==> !Plan(req)[0].Refuse?;
  }

  lemma {:induction false} TakenIsHeld(req: Request, n: nat, i: nat)
    requires i < n <= |Plan(req)| && Plan(req)[i].Reserve?
    ensures AmountOf(HeldAfter(req, n), Plan(req)[i].w) == Plan(req)[i].amount
  {
    if i < n - 1 {
      TakenIsHeld(req, n - 1, i);
      if Plan(req)[n - 1].Reserve? {
        PlanTakesOnce(req, i, n - 1);
      }
    }
  }

  lemma {:induction false} OnlyAmountsChange(req: Request, n: nat)
    requires n <= |Plan(req)|
    ensures Keys(HeldAfter(req, n)) == Blank(req)
  {
    if n > 0 {
      OnlyAmountsChange(req, n - 1);
    }
  }

  lemma SameReservation(a: Reservation, b: Reservation)
    requires forall w: Counter :: AmountOf(a, w) == AmountOf(b, w)
    requires Keys(a) == Keys(b)
    ensures a == b
  {
    assert AmountOf(a, QuotaRow) == AmountOf(b, QuotaRow) && AmountOf(a, DayCount) == AmountOf(b, DayCount)
        && AmountOf(a, PeriodCount) == AmountOf(b, PeriodCount) && AmountOf(a, CreditRow) == AmountOf(b, CreditRow)
        && AmountOf(a, PaygRow) == AmountOf(b, PaygRow);
  }

  lemma ThroughIsConfigured(req: Request)
    requires GotThrough(req, |Plan(req)|)
    ensures Configured(req)
  {
    assert |Plan(req)| > 0 ==> !Plan(req)[0].Refuse?;
  }

  lemma PlanTakesAll(req: Request)
    requires GotThrough(req, |Plan(req)|)
    ensures Configured(req) && HeldAfter(req, |Plan(req)|) == FullReservation(req)
  {
    var n := |Plan(req)|;
    ThroughIsConfigured(req);
    forall w: Counter ensures AmountOf(HeldAfter(req, n), w) == AmountOf(Full(req), w) {
      HeldIsPlanned(req, w);
    }
    OnlyAmountsChange(req, n);
    SameReservation(HeldAfter(req, n), Full(req));
  }

  lemma HeldIsPlanned(req: Request, w: Counter)
    requires GotThrough(req, |Plan(req)|)
    ensures AmountOf(HeldAfter(req, |Plan(req)|), w) == AmountOf(Full(req), w)
  {
    var n := |Plan(req)|;
    if i: nat :| i < n && Plan(req)[i].Reserve? && Plan(req)[i].w == w {
      TakenIsHeld(req, n, i);
      PlanAmount(req, i);
    } else {
      NotYetTaken(req, n, w);
      if AmountOf(Full(req), w) != 0 {
        PlanTakesFrom(req, w);
      }
    }
  }

  /** A refused request whose undo and give-back statements took effect ends holding and having
      spent nothing; an admitted one holds its whole reservation and nothing else; a settled one
      holds nothing and has spent what its settlement owes. */
  lemma AllOrNothing(c: Counters, steps: seq<Step>, user: string, id: Id)
    requires Valid(c) && id in Run(Init(c), steps, user).procs
    ensures var p := Run(Init(c), steps, user).procs[id];
      && (p.phase.Refused? && p.clean ==> Idle(p))
      && (p.phase == Admitted ==> Configured(p.req) && p.held == FullReservation(p.req) && p.spent == NONE_SPENT)
      && (p.phase.Settled? ==>
            HoldsNothing(p.held) && forall w: Counter :: SpentAt(p.spent, w) == Owed(Full(p.req), p.phase.st, w))
  {
    EveryRunKeepsAccounts(c, steps, user);
    var p := Run(Init(c), steps, user).procs[id];
    assert ProcOk(p, user);
    if p.phase == Admitted {
      PlanTakesAll(p.req);
    }
    if p.phase.Settled? {
      forall w: Counter ensures SpentAt(p.spent, w) == Owed(Full(p.req), p.phase.st, w) {
        assert SpentBy(p, [], p.phase.st, w);
      }
    }
  }
}
