/** The token limit over a whole period: several ends may have rows, requests reserve and settle at
    the end they saw, settlements may be repeated, and sweeps and migrations come at any time. */
module QuotaPeriod {
  import opened Sums
  import opened QuotaCounter

  type Id = nat

  datatype Hold = Hold(k: Key, tokens: nat)

  /** `issued` and `open` are the reservations ever granted and those not settled yet.  The bound
      can be passed in three ways, and each has its account: `overshoot` what settlements used
      beyond their reservation, `spill` the most that other ends held when a reservation was
      granted, `dropped` the reservations that sweeps, migrations and repeated settlements removed. */
  datatype State = State(t: Table, issued: map<Id, Hold>, open: map<Id, Hold>, overshoot: int, spill: int, dropped: int)

  datatype Step =
    | Ask(id: Id, k: Key, tokens: nat)
    | Settle(id: Id, used: nat, count: bool)
    | Charge(k: Key, tokens: nat)
    | Clear(stale: set<Key>)
    | Fold(newEnd: int)

  /** The one period of the model. */
  datatype Scope = Scope(user: string, start: int, limit: nat)

  function UsedOf(): Counter -> int { (c: Counter) => c.used }

  function ReservedOf(): Counter -> int { (c: Counter) => c.reserved }

  function LoadOf(): Counter -> int { (c: Counter) => c.used + c.reserved }

  function TokensOf(): Hold -> int { (h: Hold) => h.tokens }

  /** What the rows at other ends hold. */
  ghost function Elsewhere(t: Table, k: Key): int { Sum(t - {k}, LoadOf()) }

  ghost function HeldAt(t: Table, keys: set<Key>): int { SumMap(HeldColumn(t, keys)) }

  predicate Grants(s: State, step: Step, p: Scope)
    requires step.Ask?
  {
    step.id !in s.issued && InPeriod(step.k, p.user, p.start) && step.tokens > 0 && p.limit > 0
    && CanReserve(Lookup(s.t, step.k), step.tokens, p.limit)
  }

  ghost function Next(s: State, step: Step, p: Scope): State {
    match step
    case Ask(id, k, tokens) =>
      if !Grants(s, step, p) then s
      else s.(t := s.t[k := Reserved(Lookup(s.t, k), tokens)],
              issued := s.issued[id := Hold(k, tokens)], open := s.open[id := Hold(k, tokens)],
              spill := Max(s.spill, Elsewhere(s.t, k)))
    case Settle(id, used, count) =>
      if id !in s.issued then s
      else
        var h := s.issued[id];
        var t' := s.t[h.k := Finalized(Lookup(s.t, h.k), h.tokens, used, count)];
        if id in s.open then s.(t := t', open := s.open - {id}, overshoot := s.overshoot + Max(used - h.tokens, 0))
        else s.(t := t', overshoot := s.overshoot + used, dropped := s.dropped + Min(Read(s.t, h.k).reserved, h.tokens))
    case Charge(k, tokens) =>
      if !InPeriod(k, p.user, p.start) || tokens == 0 then s
      else s.(t := QuotaCounter.Next(s.t, Increment(k, tokens)), overshoot := s.overshoot + tokens)
    case Clear(stale) =>
      s.(t := QuotaCounter.Next(s.t, Sweep(stale)), dropped := s.dropped + HeldAt(s.t, stale))
    case Fold(newEnd) =>
      s.(t := Migrated(s.t, p.user, p.start, newEnd),
         dropped := s.dropped + HeldAt(s.t, OtherEnds(s.t, p.user, p.start, newEnd)))
  }

  ghost function Run(s: State, steps: seq<Step>, p: Scope): State
    decreases |steps|
  {
    if steps == [] then s else Run(Next(s, steps[0], p), steps[1..], p)
  }

  const EMPTY := State(map[], map[], map[], 0, 0, 0)

  // ----- the invariant -----

  ghost predicate Inv(s: State, p: Scope) {
    && (forall k :: k in s.t ==> InPeriod(k, p.user, p.start))
    && (forall id :: id in s.open ==> id in s.issued && s.open[id] == s.issued[id])
    && (forall id :: id in s.issued ==> InPeriod(s.issued[id].k, p.user, p.start))
    && s.overshoot >= 0 && s.spill >= 0 && s.dropped >= 0
    && Sum(s.open, TokensOf()) - Sum(s.t, ReservedOf()) <= s.dropped
    && Sum(s.t, UsedOf()) + Sum(s.open, TokensOf()) <= p.limit + s.overshoot + s.spill + s.dropped
  }

  lemma {:induction false} LoadSplits(t: Table)
    ensures Sum(t, LoadOf()) == Sum(t, UsedOf()) + Sum(t, ReservedOf())
    decreases |t|
  {
    if t == map[] {
      SumEmpty(t, LoadOf());
      SumEmpty(t, UsedOf());
      SumEmpty(t, ReservedOf());
    } else {
      var k :| k in t;
      LoadSplits(t - {k});
      SumDelete(t, k, LoadOf());
      SumDelete(t, k, UsedOf());
      SumDelete(t, k, ReservedOf());
    }
  }

  /** All that the rows hold is what one row holds and what is held elsewhere. */
  lemma RowAndElsewhere(t: Table, k: Key)
    ensures Sum(t, LoadOf()) == Read(t, k).used + Read(t, k).reserved + Elsewhere(t, k)
  {
    if k in t {
      SumDelete(t, k, LoadOf());
    } else {
      assert t - {k} == t;
    }
  }

  lemma AskKeepsInv(s: State, id: Id, k: Key, tokens: nat, p: Scope)
    requires Inv(s, p) && Grants(s, Step.Ask(id, k, tokens), p)
    ensures Inv(Next(s, Step.Ask(id, k, tokens), p), p)
  {
    var row := Reserved(Lookup(s.t, k), tokens);
    SumWrite(s.t, k, row, UsedOf());
    SumWrite(s.t, k, row, ReservedOf());
    SumWrite(s.open, id, Hold(k, tokens), TokensOf());
    LoadSplits(s.t);
    RowAndElsewhere(s.t, k);
  }

  lemma SettleKeepsInv(s: State, id: Id, used: nat, count: bool, p: Scope)
    requires Inv(s, p) && id in s.issued
    ensures Inv(Next(s, Step.Settle(id, used, count), p), p)
  {
    var h := s.issued[id];
    var row := Finalized(Lookup(s.t, h.k), h.tokens, used, count);
    SumWrite(s.t, h.k, row, UsedOf());
    SumWrite(s.t, h.k, row, ReservedOf());
    if id in s.open {
      SumDelete(s.open, id, TokensOf());
    }
  }

  lemma ChargeKeepsInv(s: State, k: Key, tokens: nat, p: Scope)
    requires Inv(s, p) && InPeriod(k, p.user, p.start) && tokens > 0
    ensures Inv(Next(s, Charge(k, tokens), p), p)
  {
    var row := Finalized(Lookup(s.t, k), 0, tokens, true);
    SumWrite(s.t, k, row, UsedOf());
    SumWrite(s.t, k, row, ReservedOf());
  }

  /** Zeroing the reservations of some rows takes away what they held. */
  lemma ClearTakesHeld(t: Table, stale: set<Key>)
    ensures var t' := QuotaCounter.Next(t, Sweep(stale));
      Sum(t', UsedOf()) == Sum(t, UsedOf()) && Sum(t', ReservedOf()) == Sum(t, ReservedOf()) - HeldAt(t, stale)
  {
    var t' := QuotaCounter.Next(t, Sweep(stale));
    assert Column(t', UsedOf()) == Column(t, UsedOf());
    SumMapSplit(Column(t, ReservedOf()), stale);
    SumMapSplit(Column(t', ReservedOf()), stale);
    assert Column(t', ReservedOf()) - stale == Column(t, ReservedOf()) - stale;
    assert (map k | k in Column(t, ReservedOf()) && k in stale :: Column(t, ReservedOf())[k]) == HeldColumn(t, stale);
    SumMapNonNeg(map k | k in Column(t', ReservedOf()) && k in stale :: Column(t', ReservedOf())[k]);
  }

  /** In a table of one period a migration keeps what was used and drops what other ends held. */
  lemma FoldTakesHeld(t: Table, p: Scope, newEnd: int)
    requires forall k :: k in t ==> InPeriod(k, p.user, p.start)
    ensures var t' := Migrated(t, p.user, p.start, newEnd);
      Sum(t', UsedOf()) == Sum(t, UsedOf())
      && Sum(t', ReservedOf()) == Sum(t, ReservedOf()) - HeldAt(t, OtherEnds(t, p.user, p.start, newEnd))
  {
    var t' := Migrated(t, p.user, p.start, newEnd);
    MigratedColumn(t, p.user, p.start, newEnd, QuotaCounter.Used);
    MigrationDropsOthers(t, p.user, p.start, newEnd);
    PeriodIsAll(t, p);
    PeriodIsAll(t', p);
  }

  lemma PeriodIsAll(t: Table, p: Scope)
    requires forall k :: k in t ==> InPeriod(k, p.user, p.start)
    ensures Total(t, p.user, p.start, QuotaCounter.Used) == Sum(t, UsedOf())
    ensures HeldTotal(t, p.user, p.start) == Sum(t, ReservedOf())
  {
    assert PeriodColumn(t, p.user, p.start, QuotaCounter.Used) == Column(t, UsedOf());
    assert HeldColumn(t, PeriodKeys(t, p.user, p.start)) == Column(t, ReservedOf());
  }

  lemma HeldNonNeg(t: Table, keys: set<Key>)
    ensures HeldAt(t, keys) >= 0
  {
    SumMapNonNeg(HeldColumn(t, keys));
  }

  lemma NextKeepsInv(s: State, step: Step, p: Scope)
    requires Inv(s, p)
    ensures Inv(Next(s, step, p), p)
  {
    match step
    case Ask(id, k, tokens) =>
      if Grants(s, step, p) {
        AskKeepsInv(s, id, k, tokens, p);
      }
    case Settle(id, used, count) =>
      if id in s.issued {
        SettleKeepsInv(s, id, used, count, p);
      }
    case Charge(k, tokens) =>
      if InPeriod(k, p.user, p.start) && tokens > 0 {
        ChargeKeepsInv(s, k, tokens, p);
      }
    case Clear(stale) =>
      ClearTakesHeld(s.t, stale);
      HeldNonNeg(s.t, stale);
    case Fold(newEnd) =>
      FoldTakesHeld(s.t, p, newEnd);
      HeldNonNeg(s.t, OtherEnds(s.t, p.user, p.start, newEnd));
  }

  /** In every run, used plus outstanding tokens of the period stay within the limit plus the three
      accounts. */
  lemma {:induction false} RunStaysWithin(s: State, steps: seq<Step>, p: Scope)
    requires Inv(s, p)
    ensures Inv(Run(s, steps, p), p)
    decreases |steps|
  {
    if steps != [] {
      NextKeepsInv(s, steps[0], p);
      RunStaysWithin(Next(s, steps[0], p), steps[1..], p);
    }
  }

  // ----- when the limit itself holds -----

  /** Sweeps and migrations find nothing reserved where they clear, no settlement is repeated, and
      reservations are granted only while no other end of the period holds anything. */
  ghost predicate Tidy(s: State, step: Step, p: Scope) {
    match step
    case Ask(_, k, _) => Grants(s, step, p) ==> Elsewhere(s.t, k) == 0
    case Settle(id, _, _) => id in s.issued ==> id in s.open
    case Charge(_, _) => true
    case Clear(stale) => forall k :: k in s.t && k in stale ==> s.t[k].reserved == 0
    case Fold(newEnd) => forall k :: k in OtherEnds(s.t, p.user, p.start, newEnd) ==> s.t[k].reserved == 0
  }

  ghost predicate AllTidy(s: State, steps: seq<Step>, p: Scope)
    decreases |steps|
  {
    steps == [] || (Tidy(s, steps[0], p) && AllTidy(Next(s, steps[0], p), steps[1..], p))
  }

  lemma NothingHeld(t: Table, keys: set<Key>)
    requires forall k :: k in t && k in keys ==> t[k].reserved == 0
    ensures HeldAt(t, keys) == 0
  {
    SumMapNonNeg(HeldColumn(t, keys));
  }

  lemma {:induction false} TidyRunsDropNothing(s: State, steps: seq<Step>, p: Scope)
    requires AllTidy(s, steps, p) && s.spill == 0 && s.dropped == 0
    ensures Run(s, steps, p).spill == 0 && Run(s, steps, p).dropped == 0
    decreases |steps|
  {
    if steps != [] {
      match steps[0] {
        case Clear(stale) => NothingHeld(s.t, stale);
        case Fold(newEnd) => NothingHeld(s.t, OtherEnds(s.t, p.user, p.start, newEnd));
        case Ask(_, _, _) =>
        case Settle(_, _, _) =>
        case Charge(_, _) =>
      }
      TidyRunsDropNothing(Next(s, steps[0], p), steps[1..], p);
    }
  }

  /** Then used plus outstanding tokens exceed the limit by no more than settlements overshot, with
      any number of migrations. */
  lemma TidyRunsStayWithin(steps: seq<Step>, p: Scope)
    requires AllTidy(EMPTY, steps, p)
    ensures var s := Run(EMPTY, steps, p);
            Sum(s.t, UsedOf()) + Sum(s.open, TokensOf()) <= p.limit + s.overshoot
  {
    SumEmpty(EMPTY.t, UsedOf());
    SumEmpty(EMPTY.t, ReservedOf());
    SumEmpty(EMPTY.open, TokensOf());
    RunStaysWithin(EMPTY, steps, p);
    TidyRunsDropNothing(EMPTY, steps, p);
  }
}
