/** The requests of `BillingRuns` beside everything else that writes their counters: sweeps of stale
    reservations, balances pushed by the billing application, and finalizations that are repeated.

    What is held back is then bounded by what is outstanding, and no usage is lost. */
module BillingUpkeep {
  import opened Sums
  import opened PriorityBilling
  import opened BillingRuns
  import CreditLedger
  import QuotaCounter

  datatype Event =
    | Statement(step: Step)
    | SweepQuota(stale: set<QuotaCounter.Key>)
    | SweepCredit
    | SweepPayg
    | SyncCredit(balance: int)
    | SyncPayg(balance: int)
    | ReleaseAgain(id: Id, w: Counter)

  function SweptRow(row: Option<CreditLedger.Row>): Option<CreditLedger.Row> {
    if row.Some? then Some(CreditLedger.Swept(row.value)) else row
  }

  function SyncedRow(row: Option<CreditLedger.Row>, balance: int): Option<CreditLedger.Row> {
    if row.Some? then Some(CreditLedger.Synced(row.value, balance)) else row
  }

  function SweptQuota(t: QuotaCounter.Table, stale: set<QuotaCounter.Key>): QuotaCounter.Table {
    map k | k in t :: if k in stale then t[k].(reserved := 0) else t[k]
  }

  /** A request that has settled, whole or in part, may release a counter of its reservation again. */
  predicate MayRelease(s: State, id: Id, w: Counter) {
    id in s.procs && (s.procs[id].phase.Settled? || s.procs[id].phase.Stopped?) && AmountOf(Full(s.procs[id].req), w) > 0
  }

  function Happened(s: State, e: Event, user: string): State {
    match e
    case Statement(step) => Next(s, step, user)
    case SweepQuota(stale) => s.(c := s.c.(quota := SweptQuota(s.c.quota, stale)))
    case SweepCredit => s.(c := s.c.(credit := SweptRow(s.c.credit)))
    case SweepPayg => s.(c := s.c.(payg := SweptRow(s.c.payg)))
    case SyncCredit(balance) => s.(c := s.c.(credit := SyncedRow(s.c.credit, balance)))
    case SyncPayg(balance) => s.(c := s.c.(payg := SyncedRow(s.c.payg, balance)))
    case ReleaseAgain(id, w) =>
      if !MayRelease(s, id, w) then s else s.(c := WriteOne(s.c, user, Full(s.procs[id].req), NO_SETTLEMENT, w))
  }

  function History(s: State, events: seq<Event>, user: string): State
    decreases |events|
  {
    if events == [] then s else History(Happened(s, events[0], user), events[1..], user)
  }

  // ----- what is bounded -----

  ghost predicate QuotaBound(s: State, base: Counters, user: string, k: QuotaCounter.Key) {
    var now, was := QuotaCounter.Read(s.c.quota, k), QuotaCounter.Read(base.quota, k);
    if k.user != user then now.reserved <= was.reserved && now.used == was.used && now.requests == was.requests
    else
      && now.reserved <= was.reserved + Sum(s.procs, QuotaHeld(k))
      && now.used == was.used + Sum(s.procs, TokensSpent(k))
      && now.requests == was.requests + Sum(s.procs, RequestsSpent(k))
  }

  ghost predicate CountBound(s: State, base: Counters, q: int) {
    && Count(s.c.day, q) <= Count(base.day, q) + Sum(s.procs, DayIn(q))
    && Count(s.c.period, q) <= Count(base.period, q) + Sum(s.procs, PeriodIn(q))
  }

  /** With `synced` the balance has been replaced. */
  predicate RowBound(row: Option<CreditLedger.Row>, base: Option<CreditLedger.Row>, held: int, lost: int, synced: bool) {
    && row.Some? == base.Some?
    && (if row.Some? then
          && 0 <= row.value.reserved <= base.value.reserved + held && row.value.balance >= 0
          && (synced || row.value.balance == base.value.balance - lost)
        else held == 0)
  }

  ghost predicate CreditBound(s: State, base: Counters, synced: bool) {
    RowBound(s.c.credit, base.credit, Sum(s.procs, CreditsHeld()), Sum(s.procs, CreditsLost()), synced)
  }

  ghost predicate PaygBound(s: State, base: Counters, synced: bool) {
    RowBound(s.c.payg, base.payg, Sum(s.procs, UnitsHeld()), Sum(s.procs, UnitsLost()), synced)
  }

  ghost predicate QuotaBounds(s: State, base: Counters, user: string) { forall k :: QuotaBound(s, base, user, k) }

  ghost predicate CountBounds(s: State, base: Counters) { forall q :: CountBound(s, base, q) }

  ghost predicate Bounds(s: State, base: Counters, user: string, synced: bool) {
    QuotaBounds(s, base, user) && CountBounds(s, base) && CreditBound(s, base, synced) && PaygBound(s, base, synced)
  }

  ghost predicate Kept(s: State, base: Counters, user: string, synced: bool) {
    Valid(base) && ProcsOk(s.procs, user) && Bounds(s, base, user, synced)
  }

  // ----- what one statement of a request does -----

  predicate LooseQuota(c: Counters, p: Proc, c': Counters, p': Proc, user: string, k: QuotaCounter.Key) {
    var r, r' := QuotaCounter.Read(c.quota, k), QuotaCounter.Read(c'.quota, k);
    if k.user != user then r' == r
    else
      && r'.reserved <= Max(r.reserved + QuotaHeld(k)(p') - QuotaHeld(k)(p), 0)
      && r'.used - r.used == TokensSpent(k)(p') - TokensSpent(k)(p)
      && r'.requests - r.requests == RequestsSpent(k)(p') - RequestsSpent(k)(p)
  }

  predicate LooseRow(row: Option<CreditLedger.Row>, row': Option<CreditLedger.Row>, held: int, lost: int) {
    && row.Some? == row'.Some?
    && (if row.Some? then
          && 0 <= row'.value.reserved <= Max(row.value.reserved + held, 0)
          && row'.value.balance == row.value.balance - lost && row'.value.balance >= 0
        else held == 0)
  }

  predicate LooseRows(c: Counters, p: Proc, c': Counters, p': Proc) {
    && LooseRow(c.credit, c'.credit, p'.held.requestCredits - p.held.requestCredits, p'.spent.creditDebit - p.spent.creditDebit)
    && LooseRow(c.payg, c'.payg, p'.held.paygUnits - p.held.paygUnits, p'.spent.paygDebit - p.spent.paygDebit)
  }

  ghost predicate Loose(c: Counters, p: Proc, c': Counters, p': Proc, user: string) {
    (forall k :: LooseQuota(c, p, c', p', user, k)) && AllCountsMove(c, p, c', p') && LooseRows(c, p, c', p')
  }

  /** The balance rows are sound, and there where the request holds something of them. */
  predicate RowThere(row: Option<CreditLedger.Row>, held: int) {
    if row.Some? then row.value.balance >= 0 && row.value.reserved >= 0 else held == 0
  }

  predicate RowsThere(c: Counters, p: Proc) { RowThere(c.credit, p.held.requestCredits) && RowThere(c.payg, p.held.paygUnits) }

  /** Taking, undoing and standing still move the counters exactly. */
  lemma ExactIsLoose(c: Counters, p: Proc, c': Counters, p': Proc, user: string)
    requires Moves(c, p, c', p', user) && RowsThere(c, p)
    requires p'.held.requestCredits >= p.held.requestCredits && p'.held.paygUnits >= p.held.paygUnits
    ensures Loose(c, p, c', p', user)
  {
    forall k ensures LooseQuota(c, p, c', p', user, k) {
      assert QuotaMoves(c, p, c', p', user, k);
    }
  }

  function Written(c: Counters, p: Proc, st: Settlement, w: Counter): Proc {
    p.(held := Holding(p.held, w, 0), spent := Spending(c, p.spent, st, w))
  }

  lemma QuotaWrittenLoose(c: Counters, p: Proc, user: string, st: Settlement)
    requires RowsThere(c, p)
    ensures Loose(c, p, WriteOne(c, user, p.held, st, QuotaRow), Written(c, p, st, QuotaRow), user)
  {
    var c', p' := WriteOne(c, user, p.held, st, QuotaRow), Written(c, p, st, QuotaRow);
    forall k ensures LooseQuota(c, p, c', p', user, k) {
    }
  }

  lemma CountWrittenLoose(c: Counters, p: Proc, user: string, st: Settlement, w: Counter)
    requires w in {DayCount, PeriodCount} && AmountOf(p.held, w) > 0 && RowsThere(c, p)
    ensures Loose(c, p, WriteOne(c, user, p.held, st, w), Written(c, p, st, w), user)
  {
    CountWrittenMoves(c, p, user, st, w);
    ExactIsLoose(c, p, WriteOne(c, user, p.held, st, w), Written(c, p, st, w), user);
  }

  lemma RowWrittenLoose(c: Counters, p: Proc, user: string, st: Settlement, w: Counter)
    requires w in {CreditRow, PaygRow} && AmountOf(p.held, w) > 0 && RowsThere(c, p)
    ensures Loose(c, p, WriteOne(c, user, p.held, st, w), Written(c, p, st, w), user)
  {
    var c', p' := WriteOne(c, user, p.held, st, w), Written(c, p, st, w);
    forall k ensures LooseQuota(c, p, c', p', user, k) {
    }
  }

  lemma WrittenLoose(c: Counters, p: Proc, user: string, st: Settlement, w: Counter)
    requires (w != QuotaRow ==> AmountOf(p.held, w) > 0) && RowsThere(c, p)
    ensures Loose(c, p, WriteOne(c, user, p.held, st, w), Written(c, p, st, w), user)
  {
    if w == QuotaRow {
      QuotaWrittenLoose(c, p, user, st);
    } else if w in {DayCount, PeriodCount} {
      CountWrittenLoose(c, p, user, st, w);
    } else {
      RowWrittenLoose(c, p, user, st, w);
    }
  }

  /** Loose looks at what a request holds and has spent, not at its phase. */
  lemma PhaseStaysLoose(c: Counters, p: Proc, c': Counters, p': Proc, p'': Proc, user: string)
    requires Loose(c, p, c', p', user) && p''.held == p'.held && p''.spent == p'.spent
    ensures Loose(c, p, c', p'', user)
  {
    forall k ensures LooseQuota(c, p, c', p'', user, k) {
      assert LooseQuota(c, p, c', p', user, k);
    }
    forall q ensures CountsMove(c, p, c', p'', q) {
      assert CountsMove(c, p, c', p', q);
    }
  }

  lemma StillIsLoose(c: Counters, p: Proc, p': Proc, user: string)
    requires p'.held == p.held && p'.spent == p.spent && RowsThere(c, p)
    ensures Loose(c, p, c, p', user)
  {
    StandsStill(c, p, p', user);
    ExactIsLoose(c, p, c, p', user);
  }

  lemma ReservedHoldsMore(c: Counters, p: Proc, user: string, ok: bool)
    requires LocalOk(p) && p.phase.Reserving?
    ensures var p' := Reserved(c, p, user, ok).1;
      p'.held.requestCredits >= p.held.requestCredits && p'.held.paygUnits >= p.held.paygUnits
  {
    if p.phase.next < |Plan(p.req)| {
      if Plan(p.req)[p.phase.next].Reserve? {
        ItemIsFresh(p.req, p.phase.next);
      }
      TriedHoldsMore(c, p, user, ok, Plan(p.req)[p.phase.next]);
    }
  }

  lemma TriedHoldsMore(c: Counters, p: Proc, user: string, ok: bool, i: Item)
    requires p.phase.Reserving? && (i.Reserve? ==> AmountOf(p.held, i.w) == 0)
    ensures var p' := Tried(c, p, user, ok, i).1;
      p'.held.requestCredits >= p.held.requestCredits && p'.held.paygUnits >= p.held.paygUnits
  {
  }

  lemma AdvanceIsLoose(c: Counters, p: Proc, user: string, ok: bool)
    requires LocalOk(p) && PhaseWritesHeld(p) && SpentOk(p) && RowsThere(c, p)
    ensures Loose(c, p, Advanced(c, p, user, ok).0, Advanced(c, p, user, ok).1, user)
  {
    var (c', p') := Advanced(c, p, user, ok);
    match p.phase
    case Reserving(_) =>
      ReservedMoves(c, p, user, ok);
      ReservedHoldsMore(c, p, user, ok);
      ExactIsLoose(c, p, c', p', user);
    case Undoing(w, _) => UndoIsLoose(c, p, user, ok);
    case GivingBack(rest, _) =>
      if rest != [] && ok {
        WrittenLoose(c, p, user, NO_SETTLEMENT, rest[0]);
        NothingSpent(c, p, rest[0]);
        PhaseStaysLoose(c, p, c', Written(c, p, NO_SETTLEMENT, rest[0]), p', user);
      } else {
        StillIsLoose(c, p, p', user);
      }
    case Settling(left, st) =>
      if left != [] && ok {
        WrittenLoose(c, p, user, st, left[0]);
        PhaseStaysLoose(c, p, c', Written(c, p, st, left[0]), p', user);
      } else {
        StillIsLoose(c, p, p', user);
      }
    case _ => StillIsLoose(c, p, p', user);
  }

  lemma UndoIsLoose(c: Counters, p: Proc, user: string, ok: bool)
    requires LocalOk(p) && p.phase.Undoing? && RowsThere(c, p)
    ensures Loose(c, p, Advanced(c, p, user, ok).0, Advanced(c, p, user, ok).1, user)
  {
    var (c', p') := Advanced(c, p, user, ok);
    if ok {
      UndoneMoves(c, p, user, p.phase.w);
      var undone := p.(held := Holding(p.held, p.phase.w, 0));
      ExactIsLoose(c, p, c', undone, user);
      PhaseStaysLoose(c, p, c', undone, p', user);
    } else {
      StillIsLoose(c, p, p', user);
    }
  }

  lemma NothingSpent(c: Counters, p: Proc, w: Counter)
    requires RowsThere(c, p)
    ensures Spending(c, p.spent, NO_SETTLEMENT, w) == p.spent
  {
  }

  // ----- every event keeps the bounds -----

  lemma HeldNonNeg(procs: map<Id, Proc>, user: string, k: QuotaCounter.Key)
    requires ProcsOk(procs, user)
    ensures Sum(procs, QuotaHeld(k)) >= 0 && Sum(procs, CreditsHeld()) >= 0 && Sum(procs, UnitsHeld()) >= 0
  {
    forall id | id in procs ensures Proper(procs[id].held) {
      assert ProcOk(procs[id], user);
    }
    SumMapNonNeg(Column(procs, QuotaHeld(k)));
    SumMapNonNeg(Column(procs, CreditsHeld()));
    SumMapNonNeg(Column(procs, UnitsHeld()));
  }

  lemma BoundsGiveRows(s: State, base: Counters, user: string, synced: bool, id: Id)
    requires Kept(s, base, user, synced) && id in s.procs
    ensures RowsThere(s.c, s.procs[id])
  {
    forall j | j in s.procs ensures Proper(s.procs[j].held) {
      assert ProcOk(s.procs[j], user);
    }
    PartOfSum(s.procs, id, CreditsHeld());
    PartOfSum(s.procs, id, UnitsHeld());
  }

  lemma QuotaStaysBound(s: State, id: Id, c': Counters, p': Proc, base: Counters, user: string, k: QuotaCounter.Key)
    requires id in s.procs && QuotaBound(s, base, user, k) && LooseQuota(s.c, s.procs[id], c', p', user, k)
    requires Sum(s.procs[id := p'], QuotaHeld(k)) >= 0
    ensures QuotaBound(State(c', s.procs[id := p']), base, user, k)
  {
    SumWrite(s.procs, id, p', QuotaHeld(k));
    SumWrite(s.procs, id, p', TokensSpent(k));
    SumWrite(s.procs, id, p', RequestsSpent(k));
  }

  lemma QuotasStayBound(s: State, id: Id, c': Counters, p': Proc, base: Counters, user: string)
    requires id in s.procs && QuotaBounds(s, base, user) && (forall k :: LooseQuota(s.c, s.procs[id], c', p', user, k))
    requires ProcsOk(s.procs[id := p'], user)
    ensures QuotaBounds(State(c', s.procs[id := p']), base, user)
  {
    var s' := State(c', s.procs[id := p']);
    forall k ensures QuotaBound(s', base, user, k) {
      HeldNonNeg(s.procs[id := p'], user, k);
      QuotaStaysBound(s, id, c', p', base, user, k);
    }
  }

  lemma CountStaysBound(s: State, id: Id, c': Counters, p': Proc, base: Counters, q: int)
    requires id in s.procs && CountBound(s, base, q) && CountsMove(s.c, s.procs[id], c', p', q)
    ensures CountBound(State(c', s.procs[id := p']), base, q)
  {
    SumWrite(s.procs, id, p', DayIn(q));
    SumWrite(s.procs, id, p', PeriodIn(q));
  }

  lemma CountsStayBound(s: State, id: Id, c': Counters, p': Proc, base: Counters)
    requires id in s.procs && CountBounds(s, base) && AllCountsMove(s.c, s.procs[id], c', p')
    ensures CountBounds(State(c', s.procs[id := p']), base)
  {
    var s' := State(c', s.procs[id := p']);
    forall q ensures CountBound(s', base, q) {
      CountStaysBound(s, id, c', p', base, q);
    }
  }

  lemma RowsStayBound(s: State, id: Id, c': Counters, p': Proc, base: Counters, user: string, synced: bool)
    requires CreditBound(s, base, synced) && PaygBound(s, base, synced)
    requires Valid(base) && id in s.procs && LooseRows(s.c, s.procs[id], c', p') && ProcsOk(s.procs[id := p'], user)
    ensures CreditBound(State(c', s.procs[id := p']), base, synced) && PaygBound(State(c', s.procs[id := p']), base, synced)
  {
    SumWrite(s.procs, id, p', CreditsHeld());
    SumWrite(s.procs, id, p', CreditsLost());
    SumWrite(s.procs, id, p', UnitsHeld());
    SumWrite(s.procs, id, p', UnitsLost());
    HeldNonNeg(s.procs[id := p'], user, QuotaCounter.Key(user, 0, 0));
  }

  lemma LooseKeeps(s: State, id: Id, c': Counters, p': Proc, base: Counters, user: string, synced: bool)
    requires Kept(s, base, user, synced) && id in s.procs && Loose(s.c, s.procs[id], c', p', user) && ProcOk(p', user)
    ensures Kept(State(c', s.procs[id := p']), base, user, synced)
  {
    QuotasStayBound(s, id, c', p', base, user);
    CountsStayBound(s, id, c', p', base);
    RowsStayBound(s, id, c', p', base, user, synced);
  }

  lemma AdvanceKeepsProcOk(c: Counters, p: Proc, user: string, ok: bool)
    requires ProcOk(p, user) && RowsThere(c, p)
    ensures ProcOk(Advanced(c, p, user, ok).1, user)
  {
    AdvanceKeepsRequest(c, p, user, ok);
    AdvanceKeepsAnchor(c, p, user, ok);
    AdvanceKeepsLocal(c, p, user, ok);
    AdvanceKeepsWritesHeld(c, p, user, ok);
    AdvanceKeepsSpent(c, p, user, ok);
  }

  lemma JoinKeeps(s: State, id: Id, p: Proc, base: Counters, user: string, synced: bool)
    requires Kept(s, base, user, synced) && id !in s.procs && Idle(p) && ProcOk(p, user)
    ensures Kept(s.(procs := s.procs[id := p]), base, user, synced)
  {
    QuotasJoin(s, id, p, base, user);
    CountsJoin(s, id, p, base);
    RowsJoin(s, id, p, base, synced);
  }

  lemma QuotasJoin(s: State, id: Id, p: Proc, base: Counters, user: string)
    requires id !in s.procs && Idle(p) && QuotaBounds(s, base, user)
    ensures QuotaBounds(s.(procs := s.procs[id := p]), base, user)
  {
    var s' := s.(procs := s.procs[id := p]);
    forall k ensures QuotaBound(s', base, user, k) {
      QuotaJoins(s, id, p, base, user, k);
    }
  }

  lemma CountsJoin(s: State, id: Id, p: Proc, base: Counters)
    requires id !in s.procs && Idle(p) && CountBounds(s, base)
    ensures CountBounds(s.(procs := s.procs[id := p]), base)
  {
    var s' := s.(procs := s.procs[id := p]);
    forall q ensures CountBound(s', base, q) {
      CountJoins(s, id, p, base, q);
    }
  }

  lemma RowsJoin(s: State, id: Id, p: Proc, base: Counters, synced: bool)
    requires id !in s.procs && Idle(p) && CreditBound(s, base, synced) && PaygBound(s, base, synced)
    ensures CreditBound(s.(procs := s.procs[id := p]), base, synced) && PaygBound(s.(procs := s.procs[id := p]), base, synced)
  {
    assert AmountOf(p.held, CreditRow) == 0 && AmountOf(p.held, PaygRow) == 0;
    SumWrite(s.procs, id, p, CreditsHeld());
    SumWrite(s.procs, id, p, CreditsLost());
    SumWrite(s.procs, id, p, UnitsHeld());
    SumWrite(s.procs, id, p, UnitsLost());
  }

  lemma QuotaJoins(s: State, id: Id, p: Proc, base: Counters, user: string, k: QuotaCounter.Key)
    requires id !in s.procs && Idle(p) && QuotaBound(s, base, user, k)
    ensures QuotaBound(s.(procs := s.procs[id := p]), base, user, k)
  {
    assert AmountOf(p.held, QuotaRow) == 0;
    SumWrite(s.procs, id, p, QuotaHeld(k));
    SumWrite(s.procs, id, p, TokensSpent(k));
    SumWrite(s.procs, id, p, RequestsSpent(k));
  }

  lemma CountJoins(s: State, id: Id, p: Proc, base: Counters, q: int)
    requires id !in s.procs && Idle(p) && CountBound(s, base, q)
    ensures CountBound(s.(procs := s.procs[id := p]), base, q)
  {
    assert AmountOf(p.held, DayCount) == 0 && AmountOf(p.held, PeriodCount) == 0;
    SumWrite(s.procs, id, p, DayIn(q));
    SumWrite(s.procs, id, p, PeriodIn(q));
  }

  lemma StatementKeeps(s: State, step: Step, base: Counters, user: string, synced: bool)
    requires Kept(s, base, user, synced)
    ensures Kept(Next(s, step, user), base, user, synced)
  {
    match step
    case Begin(id, req) =>
      if id !in s.procs && req.user == user {
        BegunOk(req);
        JoinKeeps(s, id, Begun(req), base, user, synced);
      }
    case Advance(id, ok) =>
      if id in s.procs {
        AdvanceKeeps(s, id, ok, base, user, synced);
      }
    case Finish(id, st) =>
      if id in s.procs && s.procs[id].phase == Admitted {
        FinishKeeps(s, id, st, base, user, synced);
      }
  }

  lemma AdvanceKeeps(s: State, id: Id, ok: bool, base: Counters, user: string, synced: bool)
    requires Kept(s, base, user, synced) && id in s.procs
    ensures Kept(Next(s, Advance(id, ok), user), base, user, synced)
  {
    var p := s.procs[id];
    assert ProcOk(p, user);
    BoundsGiveRows(s, base, user, synced, id);
    AdvanceIsLoose(s.c, p, user, ok);
    AdvanceKeepsProcOk(s.c, p, user, ok);
    LooseKeeps(s, id, Advanced(s.c, p, user, ok).0, Advanced(s.c, p, user, ok).1, base, user, synced);
  }

  lemma FinishKeeps(s: State, id: Id, st: Settlement, base: Counters, user: string, synced: bool)
    requires Kept(s, base, user, synced) && id in s.procs && s.procs[id].phase == Admitted
    ensures Kept(Next(s, Finish(id, st), user), base, user, synced)
  {
    FinishingOk(s.procs[id], st, user);
    FinishStep(s, id, st, user);
    BoundsGiveRows(s, base, user, synced, id);
    StillIsLoose(s.c, s.procs[id], Finishing(s.procs[id], st), user);
    LooseKeeps(s, id, s.c, Finishing(s.procs[id], st), base, user, synced);
  }

  /** What an event that is no statement of a request may do to the counters. */
  ghost predicate Lowers(c: Counters, c': Counters, synced: bool) {
    && (forall k :: QuotaLowers(c, c', k))
    && (forall q :: Count(c'.day, q) <= Count(c.day, q) && Count(c'.period, q) <= Count(c.period, q))
    && RowLowers(c.credit, c'.credit, synced) && RowLowers(c.payg, c'.payg, synced)
  }

  predicate QuotaLowers(c: Counters, c': Counters, k: QuotaCounter.Key) {
    var r, r' := QuotaCounter.Read(c.quota, k), QuotaCounter.Read(c'.quota, k);
    r'.reserved <= r.reserved && r'.used == r.used && r'.requests == r.requests
  }

  predicate RowLowers(row: Option<CreditLedger.Row>, row': Option<CreditLedger.Row>, synced: bool) {
    && row.Some? == row'.Some?
    && (row.Some? && row.value.reserved >= 0 && row.value.balance >= 0 ==>
          && 0 <= row'.value.reserved <= row.value.reserved && row'.value.balance >= 0
          && (synced || row'.value.balance == row.value.balance))
  }

  lemma LoweringKeeps(s: State, c': Counters, base: Counters, user: string, synced: bool)
    requires Kept(s, base, user, synced) && Lowers(s.c, c', synced)
    ensures Kept(s.(c := c'), base, user, synced)
  {
    var s' := s.(c := c');
    forall k ensures QuotaBound(s', base, user, k) {
      assert QuotaBound(s, base, user, k) && QuotaLowers(s.c, c', k);
    }
    forall q ensures CountBound(s', base, q) {
      assert CountBound(s, base, q);
    }
  }

  lemma ReleaseLowers(c: Counters, user: string, res: Reservation, w: Counter, synced: bool)
    requires AmountOf(res, w) > 0
    ensures Lowers(c, WriteOne(c, user, res, NO_SETTLEMENT, w), synced)
  {
  }

  predicate IsSync(e: Event) { e.SyncCredit? || e.SyncPayg? }

  lemma EventKeeps(s: State, e: Event, base: Counters, user: string, synced: bool)
    requires Kept(s, base, user, synced) && (IsSync(e) ==> synced)
    ensures Kept(Happened(s, e, user), base, user, synced)
  {
    match e
    case Statement(step) => StatementKeeps(s, step, base, user, synced);
    case ReleaseAgain(id, w) =>
      if MayRelease(s, id, w) {
        ReleaseLowers(s.c, user, Full(s.procs[id].req), w, synced);
        LoweringKeeps(s, WriteOne(s.c, user, Full(s.procs[id].req), NO_SETTLEMENT, w), base, user, synced);
      }
    case _ =>
      UpkeepLowers(s, e, user, synced);
      LoweringKeeps(s, Happened(s, e, user).c, base, user, synced);
  }

  lemma UpkeepLowers(s: State, e: Event, user: string, synced: bool)
    requires !e.Statement? && !e.ReleaseAgain? && (IsSync(e) ==> synced)
    ensures Lowers(s.c, Happened(s, e, user).c, synced) && Happened(s, e, user) == s.(c := Happened(s, e, user).c)
  {
    var c, c' := s.c, Happened(s, e, user).c;
    forall k ensures QuotaLowers(c, c', k) {
    }
  }

  /** In every interleaving of any requests' statements with sweeps, balance syncs and repeated
      releases: no row holds back more than what was held back before and what requests hold at
      that moment, no day or period counter counts more than that and what settlements added, the
      tokens and requests used are exactly those that settlements added, and balances never turn
      negative and lose, but for syncs, exactly what was debited. */
  lemma {:induction false} HistoryKeepsBounds(s: State, events: seq<Event>, base: Counters, user: string, synced: bool)
    requires Kept(s, base, user, synced) && forall e :: e in events && IsSync(e) ==> synced
    ensures Kept(History(s, events, user), base, user, synced)
    decreases |events|
  {
    if events != [] {
      assert events[0] in events && forall e :: e in events[1..] ==> e in events;
      EventKeeps(s, events[0], base, user, synced);
      HistoryKeepsBounds(Happened(s, events[0], user), events[1..], base, user, synced);
    }
  }

  lemma EveryHistoryKeepsBounds(c: Counters, events: seq<Event>, user: string, synced: bool)
    requires Valid(c) && forall e :: e in events && IsSync(e) ==> synced
    ensures Bounds(History(Init(c), events, user), c, user, synced)
  {
    InitIsBound(c, user, synced);
    HistoryKeepsBounds(Init(c), events, c, user, synced);
  }

  lemma InitIsBound(c: Counters, user: string, synced: bool)
    requires Valid(c)
    ensures Kept(Init(c), c, user, synced)
  {
    forall k ensures QuotaBound(Init(c), c, user, k) {
      InitQuota(c, user, k);
    }
    forall q ensures CountBound(Init(c), c, q) {
      InitCount(c, q);
    }
    InitRows(c);
  }
}
