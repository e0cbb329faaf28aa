/** What the runs of `BillingRuns` leave behind: what the two balances lose at every moment, and
    what every counter holds once all requests are refused or settled. */
module BillingSettled {
  import opened Sums
  import opened PriorityBilling
  import opened BillingRuns
  import CreditLedger
  import QuotaCounter

  // ----- what the balances lose -----

  predicate RowCovered(row: Option<CreditLedger.Row>) { row.Some? ==> row.value.reserved <= row.value.balance }

  /** The settlement charges a balance no more than was reserved from it. */
  predicate FitsHeld(held: Reservation, st: Settlement) {
    && (held.requestCredits > 0 ==> Credits(st) <= held.requestCredits)
    && (held.paygUnits > 0 ==> Units(st) <= held.paygUnits)
  }

  predicate Fair(s: State, step: Step) {
    step.Finish? && step.id in s.procs && s.procs[step.id].phase == Admitted ==> FitsHeld(s.procs[step.id].held, step.st)
  }

  predicate AllFair(s: State, steps: seq<Step>, user: string)
    decreases |steps|
  {
    steps == [] || (Fair(s, steps[0]) && AllFair(Next(s, steps[0], user), steps[1..], user))
  }

  /** No debit was clamped, and none will be. */
  predicate Whole(p: Proc) {
    && p.spent.creditDebit == p.spent.creditCharge && p.spent.paygDebit == p.spent.paygCharge
    && (p.phase.Settling? ==> FitsHeld(p.held, p.phase.st))
  }

  ghost predicate AllWhole(s: State) {
    RowCovered(s.c.credit) && RowCovered(s.c.payg) && forall id :: id in s.procs ==> Whole(s.procs[id])
  }

  lemma TriedCovers(c: Counters, p: Proc, user: string, ok: bool, i: Item)
    requires p.phase.Reserving? && Whole(p) && RowCovered(c.credit) && RowCovered(c.payg)
    ensures var (c', p') := Tried(c, p, user, ok, i); Whole(p') && RowCovered(c'.credit) && RowCovered(c'.payg)
  {
  }

  lemma WriteCovers(c: Counters, p: Proc, user: string, st: Settlement, w: Counter)
    requires Enough(c, p, user) && (w != QuotaRow ==> AmountOf(p.held, w) > 0) && FitsHeld(p.held, st)
    requires RowCovered(c.credit) && RowCovered(c.payg)
    ensures var c' := WriteOne(c, user, p.held, st, w); RowCovered(c'.credit) && RowCovered(c'.payg)
  {
  }

  lemma WriteDebitsCharge(c: Counters, p: Proc, user: string, st: Settlement, w: Counter)
    requires Enough(c, p, user) && (w != QuotaRow ==> AmountOf(p.held, w) > 0) && FitsHeld(p.held, st)
    requires RowCovered(c.credit) && RowCovered(c.payg)
    requires p.spent.creditDebit == p.spent.creditCharge && p.spent.paygDebit == p.spent.paygCharge
    ensures var s := Spending(c, p.spent, st, w); s.creditDebit == s.creditCharge && s.paygDebit == s.paygCharge
  {
  }

  lemma AdvanceCovers(c: Counters, p: Proc, user: string, ok: bool)
    requires ProcOk(p, user) && Enough(c, p, user) && Whole(p) && RowCovered(c.credit) && RowCovered(c.payg)
    ensures var (c', p') := Advanced(c, p, user, ok); Whole(p') && RowCovered(c'.credit) && RowCovered(c'.payg)
  {
    match p.phase
    case Reserving(n) =>
      if n < |Plan(p.req)| {
        TriedCovers(c, p, user, ok, Plan(p.req)[n]);
      }
    case GivingBack(rest, _) =>
      if rest != [] && ok {
        WriteCovers(c, p, user, NO_SETTLEMENT, rest[0]);
      }
    case Settling(left, st) =>
      if left != [] && ok {
        WriteCovers(c, p, user, st, left[0]);
        WriteDebitsCharge(c, p, user, st, left[0]);
      }
    case _ =>
  }

  lemma NextKeepsWhole(s: State, step: Step, base: Counters, user: string)
    requires Inv(s, base, user) && AllWhole(s) && Fair(s, step)
    ensures AllWhole(Next(s, step, user))
  {
    match step
    case Begin(id, req) =>
    case Advance(id, ok) =>
      if id in s.procs {
        assert ProcOk(s.procs[id], user) && Whole(s.procs[id]);
        InvGivesEnough(s, base, user, id);
        AdvanceCovers(s.c, s.procs[id], user, ok);
      }
    case Finish(id, st) =>
      if id in s.procs {
        assert Whole(s.procs[id]);
      }
  }

  lemma {:induction false} RunKeepsWhole(s: State, steps: seq<Step>, base: Counters, user: string)
    requires Inv(s, base, user) && AllWhole(s) && AllFair(s, steps, user)
    ensures AllWhole(Run(s, steps, user))
    decreases |steps|
  {
    if steps != [] {
      NextKeepsInv(s, steps[0], base, user);
      NextKeepsWhole(s, steps[0], base, user);
      RunKeepsWhole(Next(s, steps[0], user), steps[1..], base, user);
    }
  }

  function Lost(row: Option<CreditLedger.Row>, row': Option<CreditLedger.Row>): int
    requires row.Some? == row'.Some?
  {
    if row.Some? then row.value.balance - row'.value.balance else 0
  }

  /** At every moment of every interleaving the two balances have lost no more than settlements
      charged to them, and exactly that if they covered their reservations at the start and no
      settlement charges more than its request reserved; then they still cover them. */
  lemma BalancesLoseCharges(c: Counters, steps: seq<Step>, user: string)
    requires Valid(c)
    ensures var s := Run(Init(c), steps, user);
      && s.c.credit.Some? == c.credit.Some? && 0 <= Lost(c.credit, s.c.credit) <= Sum(s.procs, CreditsCharged())
      && s.c.payg.Some? == c.payg.Some? && 0 <= Lost(c.payg, s.c.payg) <= Sum(s.procs, UnitsCharged())
      && (RowCovered(c.credit) && RowCovered(c.payg) && AllFair(Init(c), steps, user) ==>
            && Lost(c.credit, s.c.credit) == Sum(s.procs, CreditsCharged()) && RowCovered(s.c.credit)
            && Lost(c.payg, s.c.payg) == Sum(s.procs, UnitsCharged()) && RowCovered(s.c.payg))
  {
    InitKeepsAccounts(c, user);
    EveryRunKeepsAccounts(c, steps, user);
    var s := Run(Init(c), steps, user);
    DebitsWithinCharges(s, user);
    if RowCovered(c.credit) && RowCovered(c.payg) && AllFair(Init(c), steps, user) {
      RunKeepsWhole(Init(c), steps, c, user);
      SumAlike(s.procs, CreditsLost(), CreditsCharged());
      SumAlike(s.procs, UnitsLost(), UnitsCharged());
    }
  }

  lemma DebitsWithinCharges(s: State, user: string)
    requires ProcsOk(s.procs, user)
    ensures 0 <= Sum(s.procs, CreditsLost()) <= Sum(s.procs, CreditsCharged())
    ensures 0 <= Sum(s.procs, UnitsLost()) <= Sum(s.procs, UnitsCharged())
  {
    forall id | id in s.procs ensures DebitsOk(s.procs[id].spent) {
      assert ProcOk(s.procs[id], user);
    }
    SumMapNonNeg(Column(s.procs, CreditsLost()));
    SumMapNonNeg(Column(s.procs, UnitsLost()));
    SumBelow(s.procs, CreditsLost(), CreditsCharged());
    SumBelow(s.procs, UnitsLost(), UnitsCharged());
  }

  // ----- what is left when all are done -----

  predicate Done(p: Proc) { p.clean && (p.phase.Refused? || p.phase.Settled?) }

  /** What the settlement of a request owes to a counter. */
  function OwedTo(p: Proc, w: Counter): int {
    if p.phase.Settled? then Owed(Full(p.req), p.phase.st, w) else 0
  }

  predicate ReservesAt(req: Request, k: QuotaCounter.Key) { Full(req).start == k.start && Full(req).end == k.end }

  function TokensUsed(k: QuotaCounter.Key): Proc -> int {
    (p: Proc) => if ReservesAt(p.req, k) then OwedTo(p, QuotaRow) else 0
  }

  function RequestsCounted(k: QuotaCounter.Key): Proc -> int {
    (p: Proc) => if ReservesAt(p.req, k) && p.phase.Settled? && p.phase.st.countRequest then 1 else 0
  }

  function CreditsUsed(q: int, w: Counter): Proc -> int {
    (p: Proc) => if Full(p.req).planKey == q then OwedTo(p, w) else 0
  }

  function Charged(w: Counter): Proc -> int { (p: Proc) => OwedTo(p, w) }

  lemma DoneHoldsNothing(p: Proc, user: string)
    requires ProcOk(p, user) && Done(p)
    ensures HoldsNothing(p.held) && AtKeysOf(p)
    ensures forall w: Counter :: SpentAt(p.spent, w) == OwedTo(p, w)
    ensures p.spent.requests == if p.phase.Settled? && p.phase.st.countRequest then 1 else 0
  {
    if p.phase.Settled? {
      forall w: Counter ensures SpentAt(p.spent, w) == OwedTo(p, w) {
        assert SpentBy(p, [], p.phase.st, w);
      }
    }
  }

  predicate AtKeysOf(p: Proc) {
    p.held.start == Full(p.req).start && p.held.end == Full(p.req).end && p.held.planKey == Full(p.req).planKey
  }

  ghost predicate QuotaGrown(s: State, c: Counters, user: string, k: QuotaCounter.Key) {
    var now, was := QuotaCounter.Read(s.c.quota, k), QuotaCounter.Read(c.quota, k);
    if k.user != user then now == was
    else
      && now.reserved == was.reserved && now.used == was.used + Sum(s.procs, TokensUsed(k))
      && now.requests == was.requests + Sum(s.procs, RequestsCounted(k))
  }

  ghost predicate CountsGrown(s: State, c: Counters, q: int) {
    && Count(s.c.day, q) == Count(c.day, q) + Sum(s.procs, CreditsUsed(q, DayCount))
    && Count(s.c.period, q) == Count(c.period, q) + Sum(s.procs, CreditsUsed(q, PeriodCount))
  }

  ghost predicate NoneHeld(row: Option<CreditLedger.Row>, row': Option<CreditLedger.Row>) {
    row.Some? == row'.Some? && (row.Some? ==> row'.value.reserved == row.value.reserved)
  }

  lemma NothingSums(procs: map<Id, Proc>, f: Proc -> int)
    requires forall id :: id in procs ==> f(procs[id]) == 0
    ensures Sum(procs, f) == 0
  {
    SumMapNonNeg(Column(procs, f));
  }

  ghost predicate AllDone(s: State, user: string) {
    ProcsOk(s.procs, user) && forall id :: id in s.procs ==> Done(s.procs[id])
  }

  lemma DoneContributes(p: Proc, user: string, k: QuotaCounter.Key, q: int)
    requires ProcOk(p, user) && Done(p)
    ensures QuotaHeld(k)(p) == 0 && TokensSpent(k)(p) == TokensUsed(k)(p) && RequestsSpent(k)(p) == RequestsCounted(k)(p)
    ensures DayIn(q)(p) == CreditsUsed(q, DayCount)(p) && PeriodIn(q)(p) == CreditsUsed(q, PeriodCount)(p)
    ensures CreditsHeld()(p) == 0 && CreditsCharged()(p) == Charged(CreditRow)(p)
    ensures UnitsHeld()(p) == 0 && UnitsCharged()(p) == Charged(PaygRow)(p)
  {
    DoneHoldsNothing(p, user);
    assert AmountOf(p.held, QuotaRow) == AmountOf(p.held, DayCount) == AmountOf(p.held, PeriodCount) == 0;
    assert AmountOf(p.held, CreditRow) == AmountOf(p.held, PaygRow) == 0;
    assert SpentAt(p.spent, QuotaRow) == OwedTo(p, QuotaRow) && SpentAt(p.spent, DayCount) == OwedTo(p, DayCount);
    assert SpentAt(p.spent, PeriodCount) == OwedTo(p, PeriodCount) && SpentAt(p.spent, CreditRow) == OwedTo(p, CreditRow);
    assert SpentAt(p.spent, PaygRow) == OwedTo(p, PaygRow);
  }

  lemma DoneQuota(s: State, c: Counters, user: string, k: QuotaCounter.Key)
    requires AllDone(s, user) && QuotaAccount(s, c, user, k)
    ensures QuotaGrown(s, c, user, k)
  {
    forall id | id in s.procs
      ensures QuotaHeld(k)(s.procs[id]) == 0 && TokensSpent(k)(s.procs[id]) == TokensUsed(k)(s.procs[id])
      ensures RequestsSpent(k)(s.procs[id]) == RequestsCounted(k)(s.procs[id])
    {
      DoneContributes(s.procs[id], user, k, 0);
    }
    NothingSums(s.procs, QuotaHeld(k));
    SumAlike(s.procs, TokensSpent(k), TokensUsed(k));
    SumAlike(s.procs, RequestsSpent(k), RequestsCounted(k));
  }

  lemma DoneCounts(s: State, c: Counters, user: string, q: int)
    requires AllDone(s, user) && CountAccount(s, c, q)
    ensures CountsGrown(s, c, q)
  {
    forall id | id in s.procs
      ensures DayIn(q)(s.procs[id]) == CreditsUsed(q, DayCount)(s.procs[id])
      ensures PeriodIn(q)(s.procs[id]) == CreditsUsed(q, PeriodCount)(s.procs[id])
    {
      DoneContributes(s.procs[id], user, QuotaCounter.Key(user, 0, 0), q);
    }
    SumAlike(s.procs, DayIn(q), CreditsUsed(q, DayCount));
    SumAlike(s.procs, PeriodIn(q), CreditsUsed(q, PeriodCount));
  }

  lemma DoneRows(s: State, c: Counters, user: string)
    requires AllDone(s, user) && CreditAccount(s, c) && PaygAccount(s, c)
    ensures NoneHeld(c.credit, s.c.credit) && NoneHeld(c.payg, s.c.payg)
    ensures Sum(s.procs, CreditsCharged()) == Sum(s.procs, Charged(CreditRow))
    ensures Sum(s.procs, UnitsCharged()) == Sum(s.procs, Charged(PaygRow))
  {
    forall id | id in s.procs
      ensures CreditsHeld()(s.procs[id]) == 0 && CreditsCharged()(s.procs[id]) == Charged(CreditRow)(s.procs[id])
      ensures UnitsHeld()(s.procs[id]) == 0 && UnitsCharged()(s.procs[id]) == Charged(PaygRow)(s.procs[id])
    {
      DoneContributes(s.procs[id], user, QuotaCounter.Key(user, 0, 0), 0);
    }
    NothingSums(s.procs, CreditsHeld());
    NothingSums(s.procs, UnitsHeld());
    SumAlike(s.procs, CreditsCharged(), Charged(CreditRow));
    SumAlike(s.procs, UnitsCharged(), Charged(PaygRow));
  }

  /** When every request is refused or settled and all its statements took effect, nothing is held
      back, every counter has grown by exactly what the settlements owe it, and the balances have
      lost at most what they owe, or exactly that if no settlement passes its reservation. */
  lemma QuiescentCounters(c: Counters, steps: seq<Step>, user: string)
    requires Valid(c) && forall id :: id in Run(Init(c), steps, user).procs ==> Done(Run(Init(c), steps, user).procs[id])
    ensures var s := Run(Init(c), steps, user);
      && (forall k :: QuotaGrown(s, c, user, k)) && (forall q :: CountsGrown(s, c, q))
      && NoneHeld(c.credit, s.c.credit) && Lost(c.credit, s.c.credit) <= Sum(s.procs, Charged(CreditRow))
      && NoneHeld(c.payg, s.c.payg) && Lost(c.payg, s.c.payg) <= Sum(s.procs, Charged(PaygRow))
      && (RowCovered(c.credit) && RowCovered(c.payg) && AllFair(Init(c), steps, user) ==>
            && Lost(c.credit, s.c.credit) == Sum(s.procs, Charged(CreditRow))
            && Lost(c.payg, s.c.payg) == Sum(s.procs, Charged(PaygRow)))
  {
    EveryRunKeepsAccounts(c, steps, user);
    var s := Run(Init(c), steps, user);
    forall k ensures QuotaGrown(s, c, user, k) {
      DoneQuota(s, c, user, k);
    }
    forall q ensures CountsGrown(s, c, q) {
      DoneCounts(s, c, user, q);
    }
    DoneRows(s, c, user);
    BalancesLoseCharges(c, steps, user);
  }
}
