/** A request that no other interrupts: the statement program of `BillingRuns` then decides and takes
    exactly what the reservation chain of `PriorityBilling` does. */
module BillingAlone {
  import opened Sums
  import opened PriorityBilling
  import opened BillingRuns
  import CreditLedger
  import QuotaCounter

  predicate Fault(f: Faults, w: Counter) {
    match w
    case QuotaRow => f.quota
    case DayCount => f.day
    case PeriodCount => f.period
    case CreditRow => f.credit
    case PaygRow => f.payg
  }

  /** The reserve statements fail as the request says, no other does. */
  predicate Works(p: Proc) {
    if p.phase.Reserving? && p.phase.next < |Plan(p.req)| && Plan(p.req)[p.phase.next].Reserve?
    then !Fault(p.req.faults, Plan(p.req)[p.phase.next].w) else true
  }

  /** The next statement of a request. */
  function Stepped(c: Counters, p: Proc): (Counters, Proc) { Advanced(c, p, p.req.user, Works(p)) }

  /** `n` statements of one request in a row, no other in between. */
  function Solo(c: Counters, p: Proc, n: nat): (Counters, Proc)
    decreases n
  {
    if n == 0 then (c, p) else var (c', p') := Solo(c, p, n - 1); Stepped(c', p')
  }

  // ----- what the counters become -----

  lemma MovesTwice(c: Counters, p: Proc, c': Counters, p': Proc, c'': Counters, p'': Proc, user: string)
    requires Moves(c, p, c', p', user) && Moves(c', p', c'', p'', user)
    ensures Moves(c, p, c'', p'', user)
  {
    forall k ensures QuotaMoves(c, p, c'', p'', user, k) {
      QuotaTwice(c, p, c', p', c'', p'', user, k);
    }
    forall q ensures CountsMove(c, p, c'', p'', q) {
      CountsTwice(c, p, c', p', c'', p'', q);
    }
  }

  lemma QuotaTwice(c: Counters, p: Proc, c': Counters, p': Proc, c'': Counters, p'': Proc, user: string, k: QuotaCounter.Key)
    requires QuotaMoves(c, p, c', p', user, k) && QuotaMoves(c', p', c'', p'', user, k)
    ensures QuotaMoves(c, p, c'', p'', user, k)
  {
  }

  lemma CountsTwice(c: Counters, p: Proc, c': Counters, p': Proc, c'': Counters, p'': Proc, q: int)
    requires CountsMove(c, p, c', p', q) && CountsMove(c', p', c'', p'', q)
    ensures CountsMove(c, p, c'', p'', q)
  {
  }

  predicate RowHolds(row: Option<CreditLedger.Row>, held: int) {
    if row.Some? then row.value.balance >= 0 && row.value.reserved >= held else held == 0
  }

  predicate Backed(c: Counters, p: Proc, user: string) {
    && QuotaCounter.Read(c.quota, QuotaKey(user, p.held)).reserved >= p.held.quotaTokens
    && RowHolds(c.credit, p.held.requestCredits) && RowHolds(c.payg, p.held.paygUnits)
  }

  lemma StaysBacked(c: Counters, p: Proc, c': Counters, p': Proc, user: string)
    requires Backed(c, p, user) && Moves(c, p, c', p', user) && Keys(p.held) == Keys(p'.held)
    ensures Backed(c', p', user)
  {
    assert Keys(p.held).start == Keys(p'.held).start && Keys(p.held).end == Keys(p'.held).end;
    assert QuotaMoves(c, p, c', p', user, QuotaKey(user, p.held));
  }

  lemma SoloStep(c: Counters, p: Proc)
    requires ProcOk(p, p.req.user) && Backed(c, p, p.req.user)
    ensures var (c', p') := Stepped(c, p);
      Moves(c, p, c', p', p.req.user) && ProcOk(p', p.req.user) && Backed(c', p', p.req.user) && p'.req == p.req
  {
    var user := p.req.user;
    assert Enough(c, p, user);
    AdvanceMoves(c, p, user, Works(p));
    AdvanceKeepsProc(c, p, user, Works(p));
    AdvanceKeepsRequest(c, p, user, Works(p));
    KeysStay(c, p, user, Works(p));
    StaysBacked(c, p, Stepped(c, p).0, Stepped(c, p).1, user);
  }

  lemma {:induction false} SoloMoves(c: Counters, p: Proc, n: nat)
    requires ProcOk(p, p.req.user) && Backed(c, p, p.req.user)
    ensures var (c', p') := Solo(c, p, n);
      Moves(c, p, c', p', p.req.user) && ProcOk(p', p.req.user) && p'.req == p.req && Backed(c', p', p.req.user)
    decreases n
  {
    if n == 0 {
      StandsStill(c, p, p, p.req.user);
    } else {
      SoloMoves(c, p, n - 1);
      var (c', p') := Solo(c, p, n - 1);
      SoloStep(c', p');
      MovesTwice(c, p, c', p', Solo(c, p, n).0, Solo(c, p, n).1, p.req.user);
    }
  }

  // ----- which phase it ends in -----

  /** Whether an item lets the request go on, seen from the counters before the request. */
  predicate Passes(c: Counters, req: Request, i: Item) {
    match i
    case Refuse(_) => false
    case NeedBalance(w) => Row(c, w).Some? && Row(c, w).value.balance > 0
    case Reserve(w, amount, limit) =>
      && !Fault(req.faults, w) && Takes(c, req.user, Blank(req), i)
      && !Passed(Taken(c, req.user, Blank(req), w, amount), Blank(req), i)
  }

  /** The answer of an item that does not. */
  function Answer(req: Request, i: Item): Verdict {
    match i
    case Refuse(why) => why
    case NeedBalance(w) => RefusedAt(w, 0, 0, false)
    case Reserve(w, amount, limit) => RefusedAt(w, amount, limit, Fault(req.faults, w))
  }

  /** The counters after the first `n` items. */
  function TakenUpTo(c: Counters, req: Request, n: nat): Counters
    requires n <= |Plan(req)|
  {
    if n == 0 then c
    else TakenBy(TakenUpTo(c, req, n - 1), req.user, HeldAfter(req, n - 1), Plan(req)[n - 1])
  }

  function TakenBy(c: Counters, user: string, held: Reservation, i: Item): Counters {
    if i.Reserve? then Taken(c, user, held, i.w, i.amount) else c
  }

  lemma OthersUntaken(c: Counters, user: string, held: Reservation, i: Item, w: Counter)
    requires i.Reserve? ==> i.w != w
    ensures SameAt(TakenBy(c, user, held, i), c, w)
  {
  }

  predicate SameAt(a: Counters, b: Counters, w: Counter) {
    match w
    case QuotaRow => a.quota == b.quota
    case DayCount => a.day == b.day
    case PeriodCount => a.period == b.period
    case CreditRow => a.credit == b.credit
    case PaygRow => a.payg == b.payg
  }

  lemma {:induction false} NotYetChanged(c: Counters, req: Request, n: nat, w: Counter)
    requires n <= |Plan(req)| && forall i :: 0 <= i < n && Plan(req)[i].Reserve? ==> Plan(req)[i].w != w
    ensures SameAt(TakenUpTo(c, req, n), c, w)
  {
    if n > 0 {
      NotYetChanged(c, req, n - 1, w);
      OthersUntaken(TakenUpTo(c, req, n - 1), req.user, HeldAfter(req, n - 1), Plan(req)[n - 1], w);
    }
  }

  /** An item decides as it would have before the request began. */
  lemma PassesLater(c: Counters, req: Request, n: nat)
    requires n < |Plan(req)| && Plan(req)[n].Reserve?
    ensures var i, was, held := Plan(req)[n], TakenUpTo(c, req, n), HeldAfter(req, n);
      && (Takes(was, req.user, held, i) <==> Takes(c, req.user, Blank(req), i))
      && (Passed(Taken(was, req.user, held, i.w, i.amount), held, i)
          <==> Passed(Taken(c, req.user, Blank(req), i.w, i.amount), Blank(req), i))
  {
    forall j | 0 <= j < n && Plan(req)[j].Reserve? ensures Plan(req)[j].w != Plan(req)[n].w {
      PlanTakesOnce(req, j, n);
    }
    NotYetChanged(c, req, n, Plan(req)[n].w);
    OnlyAmountsChange(req, n);
    DecidesAlike(c, TakenUpTo(c, req, n), req.user, Blank(req), HeldAfter(req, n), Plan(req)[n]);
  }

  lemma DecidesAlike(a: Counters, b: Counters, user: string, held: Reservation, held': Reservation, i: Item)
    requires i.Reserve? && SameAt(b, a, i.w) && Keys(held') == held
    ensures Takes(b, user, held', i) <==> Takes(a, user, held, i)
    ensures Passed(Taken(b, user, held', i.w, i.amount), held', i) <==> Passed(Taken(a, user, held, i.w, i.amount), held, i)
  {
    assert held'.start == held.start && held'.end == held.end && held'.planKey == held.planKey;
  }

  function Ready(req: Request, n: nat): Proc
    requires n <= |Plan(req)|
  {
    Proc(req, HeldAfter(req, n), NONE_SPENT, Reserving(n), true)
  }

  lemma ItemGoesOn(c: Counters, req: Request, n: nat)
    requires n < |Plan(req)| && Passes(c, req, Plan(req)[n])
    ensures Stepped(TakenUpTo(c, req, n), Ready(req, n)) == (TakenUpTo(c, req, n + 1), Ready(req, n + 1))
  {
    if Plan(req)[n].Reserve? {
      PassesLater(c, req, n);
    } else {
      BalanceLater(c, req, n);
    }
  }

  lemma BalanceLater(c: Counters, req: Request, n: nat)
    requires n < |Plan(req)| && !Plan(req)[n].Reserve?
    ensures Plan(req)[n].NeedBalance? ==> n == 0 && Plan(req)[n].w in {CreditRow, PaygRow}
  {
  }

  lemma {:induction false} SoloGoesOn(c: Counters, req: Request, n: nat)
    requires n <= |Plan(req)| && forall i :: 0 <= i < n ==> Passes(c, req, Plan(req)[i])
    ensures Solo(c, Begun(req), n) == (TakenUpTo(c, req, n), Ready(req, n))
  {
    if n > 0 {
      SoloGoesOn(c, req, n - 1);
      ItemGoesOn(c, req, n - 1);
    }
  }

  /** On the way to a refusal, with at most `left` statements to come. */
  predicate TurningBack(p: Proc, why: Verdict, left: nat) {
    p.clean && match p.phase
      case Undoing(w, v) => w in {DayCount, PeriodCount} && v == why && left >= 4
      case GivingBack(rest, v) => v == why && left > |rest|
      case Refused(v) => v == why
      case _ => false
  }

  lemma ItemTurnsBack(c: Counters, req: Request, n: nat)
    requires n < |Plan(req)| && !Passes(c, req, Plan(req)[n])
    ensures TurningBack(Stepped(TakenUpTo(c, req, n), Ready(req, n)).1, Answer(req, Plan(req)[n]), 4)
  {
    if Plan(req)[n].Reserve? {
      PassesLater(c, req, n);
    } else {
      BalanceLater(c, req, n);
    }
  }

  lemma StepTurnsBack(c: Counters, p: Proc, why: Verdict, left: nat)
    requires TurningBack(p, why, left) && left > 0
    ensures TurningBack(Stepped(c, p).1, why, left - 1)
  {
  }

  lemma {:induction false} SoloTurnsBack(c: Counters, p: Proc, m: nat, why: Verdict, left: nat, n: nat)
    requires TurningBack(Solo(c, p, m).1, why, left) && n >= m
    ensures TurningBack(Solo(c, p, n).1, why, Max(left - (n - m), 0))
    decreases n
  {
    if n > m {
      SoloTurnsBack(c, p, m, why, left, n - 1);
      var (c', p') := Solo(c, p, n - 1);
      if left - (n - 1 - m) > 0 {
        StepTurnsBack(c', p', why, left - (n - 1 - m));
      }
    }
  }

  lemma SoloRefused(c: Counters, req: Request, m: nat, n: nat)
    requires m < |Plan(req)| && !Passes(c, req, Plan(req)[m]) && n >= m + 5
    requires forall i :: 0 <= i < m ==> Passes(c, req, Plan(req)[i])
    ensures var p' := Solo(c, Begun(req), n).1; p'.clean && p'.phase == Refused(Answer(req, Plan(req)[m]))
  {
    SoloGoesOn(c, req, m);
    ItemTurnsBack(c, req, m);
    SoloTurnsBack(c, Begun(req), m + 1, Answer(req, Plan(req)[m]), 4, n);
  }

  predicate LetIn(p: Proc) { p.phase == Admitted }

  lemma AdmittedNext(c: Counters, p: Proc)
    requires LetIn(p) || p.phase == Reserving(|Plan(p.req)|)
    ensures LetIn(Stepped(c, p).1)
  {
  }

  lemma {:induction false} SoloStaysAdmitted(c: Counters, p: Proc, m: nat, n: nat)
    requires LetIn(Solo(c, p, m).1) && n >= m
    ensures LetIn(Solo(c, p, n).1)
    decreases n
  {
    if n > m {
      SoloStaysAdmitted(c, p, m, n - 1);
      var (c', p') := Solo(c, p, n - 1);
      AdmittedNext(c', p');
    }
  }

  lemma SoloAdmitted(c: Counters, req: Request, n: nat)
    requires (forall i :: 0 <= i < |Plan(req)| ==> Passes(c, req, Plan(req)[i])) && n > |Plan(req)|
    ensures Solo(c, Begun(req), n).1.phase == Admitted
  {
    var m := |Plan(req)|;
    SoloGoesOn(c, req, m);
    AdmittedNext(TakenUpTo(c, req, m), Ready(req, m));
    SoloStaysAdmitted(c, Begun(req), m + 1, n);
  }

  // ----- the decision is the chain's -----

  /** The first item of a list that does not let the request go on, or the length of the list. */
  function Stop(c: Counters, req: Request, items: seq<Item>): (m: nat)
    ensures m <= |items| && (forall i :: 0 <= i < m ==> Passes(c, req, items[i]))
    ensures m < |items| ==> !Passes(c, req, items[m])
    decreases |items|
  {
    if items == [] || !Passes(c, req, items[0]) then 0 else 1 + Stop(c, req, items[1..])
  }

  /** The answer of the first item in a list that does not, or none. */
  function Outcome(c: Counters, req: Request, items: seq<Item>): Verdict
    decreases |items|
  {
    if items == [] then LET_THROUGH
    else if !Passes(c, req, items[0]) then Answer(req, items[0])
    else Outcome(c, req, items[1..])
  }

  lemma {:induction false} OutcomeOfConcat(c: Counters, req: Request, a: seq<Item>, b: seq<Item>)
    ensures Outcome(c, req, a + b) ==
            if forall i :: i in a ==> Passes(c, req, i) then Outcome(c, req, b) else Outcome(c, req, a)
    decreases |a|
  {
    if a == [] {
      assert a + b == b;
    } else {
      assert (a + b)[1..] == a[1..] + b;
      assert forall i :: i in a <==> i == a[0] || i in a[1..];
      OutcomeOfConcat(c, req, a[1..], b);
    }
  }

  lemma {:induction false} StopDecides(c: Counters, req: Request, items: seq<Item>)
    ensures var m := Stop(c, req, items);
      Outcome(c, req, items) == if m == |items| then LET_THROUGH else Answer(req, items[m])
    decreases |items|
  {
    if items != [] && Passes(c, req, items[0]) {
      StopDecides(c, req, items[1..]);
    }
  }

  lemma OutcomeOfOne(c: Counters, req: Request, i: Item)
    ensures Outcome(c, req, [i]) == if Passes(c, req, i) then LET_THROUGH else Answer(req, i)
  {
    assert [i][1..] == [];
  }

  /** The statement for the quota, and those for the two credit counters. */
  lemma QuotaDecides(c: Counters, req: Request)
    requires req.source in {"", "subscription"} && req.subscription.Some? && Covered(req.subscription.value)
    requires req.estimate.total >= 1 && (req.subscription.value.quotaLimit > 0 ==> req.estimate.bounded)
    ensures var items := IfAny(QuotaRow, Max(req.estimate.total, 0), req.subscription.value.quotaLimit);
      && Outcome(c, req, items) == QuotaVerdict(req, c)
      && ((forall i :: i in items ==> Passes(c, req, i)) <==> QuotaVerdict(req, c) == LET_THROUGH)
  {
    var s := req.subscription.value;
    if s.quotaLimit > 0 {
      var i := Reserve(QuotaRow, Max(req.estimate.total, 0), s.quotaLimit);
      OutcomeOfOne(c, req, i);
      assert i in IfAny(QuotaRow, Max(req.estimate.total, 0), s.quotaLimit);
    }
  }

  lemma CountDecides(c: Counters, req: Request, w: Counter, limit: int)
    requires req.source in {"", "subscription"} && req.subscription.Some? && w in {DayCount, PeriodCount}
    requires MetersCredits(req) && CostConfigured(req.cost)
    ensures var items := IfAny(w, PlanCredits(req), limit);
      var counts := if w == DayCount then c.day else c.period;
      var fits := CreditsFit(counts, req.subscription.value.start, PlanCredits(req), limit, Fault(req.faults, w));
      && Outcome(c, req, items) == (if fits then LET_THROUGH else RefusedAt(w, 0, 0, false))
      && ((forall i :: i in items ==> Passes(c, req, i)) <==> fits)
  {
    if PlanCredits(req) > 0 && limit > 0 {
      var i := Reserve(w, PlanCredits(req), limit);
      assert Blank(req).planKey == req.subscription.value.start;
      OutcomeOfOne(c, req, i);
      assert i in IfAny(w, PlanCredits(req), limit);
    }
  }

  lemma PlanDecides(c: Counters, req: Request)
    requires req.source in {"", "subscription"} && req.subscription.Some?
    requires MetersCredits(req) && CostConfigured(req.cost)
    ensures Outcome(c, req, CreditItems(req)) == PlanVerdict(req, c.day, c.period)
  {
    var s := req.subscription.value;
    CountDecides(c, req, DayCount, s.creditsPerDay);
    CountDecides(c, req, PeriodCount, s.creditsPerPeriod);
    OutcomeOfConcat(c, req, IfAny(DayCount, PlanCredits(req), s.creditsPerDay),
                    IfAny(PeriodCount, PlanCredits(req), s.creditsPerPeriod));
  }

  lemma SubscriptionOutcome(c: Counters, req: Request)
    requires req.source in {"", "subscription"} && req.estimate.total >= 1
    ensures Outcome(c, req, SubscriptionPlan(req)) == SubscriptionVerdict(req, c)
  {
    if req.subscription.Some? && Covered(req.subscription.value)
       && (req.subscription.value.quotaLimit > 0 ==> req.estimate.bounded) {
      QuotaDecides(c, req);
      var quota := IfAny(QuotaRow, Max(req.estimate.total, 0), req.subscription.value.quotaLimit);
      OutcomeOfConcat(c, req, quota, CreditItems(req));
      if MetersCredits(req) && CostConfigured(req.cost) {
        PlanDecides(c, req);
      }
    }
  }

  lemma CreditOutcome(c: Counters, req: Request)
    requires req.source == "credit" && req.model.Some?
    ensures Outcome(c, req, CreditPlan(req)) == CreditVerdict(req, c)
  {
    assert req.(source := "credit") == req;
    if CreditPlan(req) != [] {
      OutcomeOfOne(c, req, CreditPlan(req)[0]);
    }
  }

  lemma PaygOutcome(c: Counters, req: Request)
    requires req.source == "payg" && req.model.Some?
    ensures Outcome(c, req, PaygPlan(req)) == PaygVerdict(req, c)
  {
    assert req.(source := "payg") == req;
    OutcomeOfOne(c, req, PaygPlan(req)[0]);
  }

  lemma OutcomeIsDecided(c: Counters, req: Request)
    requires req.model.Some? && req.estimate.total >= 1
    ensures Outcome(c, req, Plan(req)) == Decide(req, c)
  {
    if req.source in {"", "subscription"} {
      SubscriptionOutcome(c, req);
    } else if req.source == "credit" {
      CreditOutcome(c, req);
    } else if req.source == "payg" {
      PaygOutcome(c, req);
    }
  }

  lemma MovesNothing(c: Counters, req: Request, c': Counters, p: Proc)
    requires Moves(c, Begun(req), c', p, req.user) && Idle(p)
    ensures Same(c', c)
  {
    assert AmountOf(p.held, QuotaRow) == AmountOf(p.held, DayCount) == AmountOf(p.held, PeriodCount) == 0;
    assert AmountOf(p.held, CreditRow) == AmountOf(p.held, PaygRow) == 0;
    forall k ensures QuotaCounter.Read(c'.quota, k) == QuotaCounter.Read(c.quota, k) {
      assert QuotaMoves(c, Begun(req), c', p, req.user, k);
    }
    forall q ensures Count(c'.day, q) == Count(c.day, q) && Count(c'.period, q) == Count(c.period, q) {
      assert CountsMove(c, Begun(req), c', p, q);
    }
  }

  lemma MovesTake(c: Counters, req: Request, c': Counters, p: Proc)
    requires Moves(c, Begun(req), c', p, req.user) && p.spent == NONE_SPENT && Keys(p.held) == Blank(req) && Proper(p.held)
    ensures Same(c', Take(c, req.user, p.held))
  {
    var t := Take(c, req.user, p.held);
    assert Blank(req).start == p.held.start && Blank(req).end == p.held.end && Blank(req).planKey == p.held.planKey;
    forall k ensures QuotaCounter.Read(c'.quota, k) == QuotaCounter.Read(t.quota, k) {
      assert QuotaMoves(c, Begun(req), c', p, req.user, k);
    }
    forall q ensures Count(c'.day, q) == Count(t.day, q) && Count(c'.period, q) == Count(t.period, q) {
      assert CountsMove(c, Begun(req), c', p, q);
    }
  }

  lemma BegunIsBacked(c: Counters, req: Request)
    requires Valid(c)
    ensures Backed(c, Begun(req), req.user)
  {
  }

  lemma AloneAdmitted(c: Counters, req: Request, n: nat)
    requires Valid(c) && n > |Plan(req)| && Stop(c, req, Plan(req)) == |Plan(req)|
    ensures var (c', p) := Solo(c, Begun(req), n);
      p.phase == Admitted && Configured(req) && p.held == FullReservation(req) && Same(c', Take(c, req.user, p.held))
  {
    var (c', p) := Solo(c, Begun(req), n);
    BegunOk(req);
    BegunIsBacked(c, req);
    SoloMoves(c, Begun(req), n);
    SoloAdmitted(c, req, n);
    PlanTakesAll(req);
    MovesTake(c, req, c', p);
  }

  lemma AloneRefused(c: Counters, req: Request, n: nat)
    requires Valid(c) && n >= |Plan(req)| + 4 && Stop(c, req, Plan(req)) < |Plan(req)|
    ensures var (c', p) := Solo(c, Begun(req), n);
      p.phase == Refused(Answer(req, Plan(req)[Stop(c, req, Plan(req))])) && Idle(p) && Same(c', c)
  {
    var (c', p) := Solo(c, Begun(req), n);
    BegunOk(req);
    BegunIsBacked(c, req);
    SoloMoves(c, Begun(req), n);
    SoloRefused(c, req, Stop(c, req, Plan(req)), n);
    MovesNothing(c, req, c', p);
  }

  lemma AnswersRefuse(c: Counters, req: Request)
    requires req.model.Some? && req.estimate.total >= 1
    ensures Stop(c, req, Plan(req)) == |Plan(req)| <==> Admits(req, c)
    ensures !Admits(req, c) ==> Answer(req, Plan(req)[Stop(c, req, Plan(req))]) == Decide(req, c)
  {
    StopDecides(c, req, Plan(req));
    OutcomeIsDecided(c, req);
    RefusesUnlessAdmitted(req, c);
    if Stop(c, req, Plan(req)) < |Plan(req)| {
      AnswerRefuses(req, Stop(c, req, Plan(req)));
    }
  }

  lemma AnswerRefuses(req: Request, i: nat)
    requires i < |Plan(req)|
    ensures Answer(req, Plan(req)[i]) != LET_THROUGH
  {
  }

  /** Left alone, a request is let through exactly when the chain admits it, then holding what the
      chain grants with the counters as the chain leaves them; otherwise it is refused with the
      chain's answer and every counter is as it was. */
  lemma AloneIsTheChain(c: Counters, req: Request, n: nat)
    requires req.model.Some? && req.estimate.total >= 1 && Valid(c) && n >= |Plan(req)| + 4
    ensures var (c', p) := Solo(c, Begun(req), n);
      && (Admits(req, c) ==> p.phase == Admitted && p.held == Granted(req, c) && Same(c', Take(c, req.user, p.held)))
      && (!Admits(req, c) ==> p.phase == Refused(Decide(req, c)) && Idle(p) && Same(c', c))
  {
    AnswersRefuse(c, req);
    if Stop(c, req, Plan(req)) == |Plan(req)| {
      AloneAdmitted(c, req, n);
    } else {
      AloneRefused(c, req, n);
    }
  }
}
