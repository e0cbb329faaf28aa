/** The request slots taken before a request goes upstream: the plan's period and daily counters
    and a free model's minute and daily counters.  One UTC day is fixed. */
module RequestSlots {
  import opened Sums

  datatype Counts = Counts(period: int, day: int, freeMinute: int, freeDay: int)

  const NO_COUNTS := Counts(0, 0, 0, 0)

  function Plus(a: Counts, b: Counts): Counts {
    Counts(a.period + b.period, a.day + b.day, a.freeMinute + b.freeMinute, a.freeDay + b.freeDay)
  }

  function Minus(a: Counts, b: Counts): Counts {
    Counts(a.period - b.period, a.day - b.day, a.freeMinute - b.freeMinute, a.freeDay - b.freeDay)
  }

  /** What decides about a request: whether the plan pays for it (a free model's requests are not
      metered), the period cap with its window multiplier and the debt of a flagged user, the
      daily cap, the free model's caps, and the counter commands that fail. */
  datatype Gate = Gate(metered: bool, cap: int, windows: nat, flagged: bool, debt: nat, daily: int,
    free: bool, freePerMinute: int, freePerDay: int,
    periodFault: bool, dayFault: bool, minuteFault: bool, freeDayFault: bool)

  // ----- the cap of a user who repays a debt -----

  /** Three quarters, rounded half up. */
  function ThreeQuarters(n: nat): nat { (3 * n + 2) / 4 }

  function EffectiveCap(g: Gate): int {
    var full := g.cap * g.windows;
    if !g.flagged || g.debt == 0 || g.cap <= 0 then full
    else Max(full - Min(g.debt, ThreeQuarters(g.cap) * g.windows), 0)
  }

  lemma ProductPositive(a: nat, b: nat)
    ensures a * b >= 0 && (a > 0 && b > 0 ==> a * b > 0)
  {
  }

  /** Repayment leaves some requests usable, except under a cap of one or two when the debt takes
      the whole window. */
  lemma EffectiveCapIsPositiveIff(g: Gate)
    requires g.cap > 0 && g.windows > 0
    ensures EffectiveCap(g) > 0 <==> !(g.flagged && g.cap <= 2 && g.debt >= g.cap * g.windows)
    ensures EffectiveCap(g) <= g.cap * g.windows
  {
    ProductPositive(g.cap, g.windows);
    if g.cap <= 2 {
      assert ThreeQuarters(g.cap) == g.cap;
    } else {
      assert ThreeQuarters(g.cap) < g.cap;
      ProductPositive(g.cap - ThreeQuarters(g.cap), g.windows);
      assert (g.cap - ThreeQuarters(g.cap)) * g.windows == g.cap * g.windows - ThreeQuarters(g.cap) * g.windows;
    }
  }

  // ----- what is taken, and what the tracker marks as taken -----

  predicate PeriodApplies(g: Gate) { g.metered && g.cap > 0 }

  predicate DayApplies(g: Gate) { g.metered && g.daily > 0 }

  predicate MinuteApplies(g: Gate) { g.free && g.freePerMinute > 0 }

  predicate FreeDayApplies(g: Gate) { g.free && g.freePerDay > 0 }

  function One(b: bool): int { if b then 1 else 0 }

  /** The counters the tracker will undo. */
  function Marked(g: Gate): Counts {
    Counts(One(PeriodApplies(g)), One(DayApplies(g)), One(MinuteApplies(g)), One(FreeDayApplies(g)))
  }

  /** A cap of zero does not limit, and then nothing is counted although the tracker marks it. */
  predicate Uncounted(g: Gate) { PeriodApplies(g) && EffectiveCap(g) <= 0 }

  function Taken(g: Gate): Counts { Marked(g).(period := One(PeriodApplies(g) && !Uncounted(g))) }

  predicate Fits(count: int, limit: int, fault: bool) { limit <= 0 || (!fault && count + 1 <= limit) }

  /** Every limit that applies has room. */
  predicate Admits(g: Gate, c: Counts) {
    && (PeriodApplies(g) ==> Fits(c.period, EffectiveCap(g), g.periodFault))
    && (DayApplies(g) ==> Fits(c.day, g.daily, g.dayFault))
    && (MinuteApplies(g) ==> Fits(c.freeMinute, g.freePerMinute, g.minuteFault))
    && (FreeDayApplies(g) ==> Fits(c.freeDay, g.freePerDay, g.freeDayFault))
  }

  function PlanRefusal(g: Gate, c: Counts): string {
    if PeriodApplies(g) && !Fits(c.period, EffectiveCap(g), g.periodFault) then
      if g.flagged && g.debt > 0 then "plan_debt_repayment" else "plan_period_limit_exceeded"
    else if DayApplies(g) && !Fits(c.day, g.daily, g.dayFault) then "plan_rpd_exceeded"
    else ""
  }

  function FreeRefusal(g: Gate, c: Counts): string {
    if MinuteApplies(g) && !Fits(c.freeMinute, g.freePerMinute, g.minuteFault) then "free_model_rpm_exceeded"
    else if FreeDayApplies(g) && !Fits(c.freeDay, g.freePerDay, g.freeDayFault) then "free_model_rpd_exceeded"
    else ""
  }

  /** The first limit without room. */
  function Refusal(g: Gate, c: Counts): string {
    if PlanRefusal(g, c) != "" then PlanRefusal(g, c) else FreeRefusal(g, c)
  }

  /** Taking and undoing restores the counters exactly when nothing marked went uncounted. */
  lemma UndoRestoresIff(g: Gate, c: Counts)
    ensures Minus(Plus(c, Taken(g)), Marked(g)) == c <==> !Uncounted(g)
    ensures Uncounted(g) ==> Minus(Plus(c, Taken(g)), Marked(g)).period == c.period - 1
  {
  }

  /** In terms of the gate: it fails only for a flagged user with a cap of one or two. */
  lemma UncountedIff(g: Gate)
    requires g.windows > 0
    ensures Uncounted(g) <==> g.metered && 0 < g.cap <= 2 && g.flagged && g.debt >= g.cap * g.windows
  {
    if g.cap > 0 {
      EffectiveCapIsPositiveIff(g);
      ProductPositive(g.cap, g.windows);
    }
  }

  // ----- the tracker -----

  class Tracker {
    var period: int
    var day: int
    var freeMinute: int
    var freeDay: int
    var periodConsumed: bool
    var dayConsumed: bool
    var freeMinuteConsumed: bool
    var freeDayConsumed: bool
    var committed: bool

    function Counters(): Counts
      reads this
    {
      Counts(period, day, freeMinute, freeDay)
    }

    function Marks(): Counts
      reads this
    {
      Counts(One(periodConsumed), One(dayConsumed), One(freeMinuteConsumed), One(freeDayConsumed))
    }

    predicate Fresh()
      reads this
    {
      Marks() == NO_COUNTS && !committed
    }

    /** Undoes every marked increment, unless the request has committed. */
    method Rollback()
      modifies this
      ensures committed == old(committed)
      ensures committed ==> Counters() == old(Counters()) && Marks() == old(Marks())
      ensures !committed ==> Counters() == Minus(old(Counters()), old(Marks())) && Marks() == NO_COUNTS
    {
      if committed {
        return;
      }
      if periodConsumed {
        period, periodConsumed := period - 1, false;
      }
      if dayConsumed {
        day, dayConsumed := day - 1, false;
      }
      if freeMinuteConsumed {
        freeMinute, freeMinuteConsumed := freeMinute - 1, false;
      }
      if freeDayConsumed {
        freeDay, freeDayConsumed := freeDay - 1, false;
      }
    }

    /** A cancelled context does not commit. */
    method Commit(cancelled: bool)
      modifies this`committed
      ensures committed == (old(committed) || !cancelled)
    {
      if cancelled {
        return;
      }
      committed := true;
    }

    method CheckRequestsPerPeriod(limit: int, fault: bool) returns (ok: bool)
      modifies this`period
      ensures ok == Fits(old(period), limit, fault)
      ensures period == old(period) + One(ok && limit > 0)
    {
      if limit <= 0 {
        return true;
      }
      if fault {
        return false;
      }
      period := period + 1;
      if period > limit {
        period := period - 1;
        return false;
      }
      return true;
    }

    method CheckPlanRPD(limit: int, fault: bool) returns (ok: bool)
      modifies this`day
      ensures ok == Fits(old(day), limit, fault)
      ensures day == old(day) + One(ok && limit > 0)
    {
      if limit <= 0 {
        return true;
      }
      if fault {
        return false;
      }
      day := day + 1;
      if day > limit {
        day := day - 1;
        return false;
      }
      return true;
    }

    method CheckFreeModelRPM(limit: int, fault: bool) returns (ok: bool)
      modifies this`freeMinute
      ensures ok == Fits(old(freeMinute), limit, fault)
      ensures freeMinute == old(freeMinute) + One(ok && limit > 0)
    {
      if limit <= 0 {
        return true;
      }
      if fault {
        return false;
      }
      freeMinute := freeMinute + 1;
      if freeMinute > limit {
        freeMinute := freeMinute - 1;
        return false;
      }
      return true;
    }

    method CheckFreeModelRPD(limit: int, fault: bool) returns (ok: bool)
      modifies this`freeDay
      ensures ok == Fits(old(freeDay), limit, fault)
      ensures freeDay == old(freeDay) + One(ok && limit > 0)
    {
      if limit <= 0 {
        return true;
      }
      if fault {
        return false;
      }
      freeDay := freeDay + 1;
      if freeDay > limit {
        freeDay := freeDay - 1;
        return false;
      }
      return true;
    }

    static method RepaidCap(g: Gate) returns (effective: int, repaying: bool)
      requires g.cap > 0
      ensures effective == EffectiveCap(g) && repaying == (g.flagged && g.debt > 0)
    {
      effective, repaying := g.cap * g.windows, false;
      if g.flagged && g.debt > 0 {
        var reserve := Min(g.debt, ThreeQuarters(g.cap) * g.windows);
        effective := effective - reserve;
        if effective < 0 {
          effective := 0;
        }
        repaying := true;
      } else {
        ProductPositive(g.cap, g.windows);
      }
    }

    method ApplyPlanLimits(g: Gate) returns (code: string)
      requires Fresh()
      modifies this
      ensures code == PlanRefusal(g, old(Counters()))
      ensures freeMinute == old(freeMinute) && freeDay == old(freeDay) && !committed
      ensures !freeMinuteConsumed && !freeDayConsumed
      ensures code == "" ==> periodConsumed == PeriodApplies(g) && dayConsumed == DayApplies(g)
      ensures code == "" ==> period == old(period) + Taken(g).period && day == old(day) + Taken(g).day
      ensures code != "" ==> Marks() == NO_COUNTS && period == old(period) - One(Uncounted(g)) && day == old(day)
    {
      if g.metered && g.cap > 0 {
        var effective, repaying := RepaidCap(g);
        var ok := CheckRequestsPerPeriod(effective, g.periodFault);
        if !ok {
          return if repaying then "plan_debt_repayment" else "plan_period_limit_exceeded";
        }
        periodConsumed := true;
      }
      if g.metered && g.daily > 0 {
        var ok := CheckPlanRPD(g.daily, g.dayFault);
        if !ok {
          Rollback();
          return "plan_rpd_exceeded";
        }
        dayConsumed := true;
      }
      return "";
    }

    method ApplyFreeModelLimits(g: Gate) returns (code: string)
      requires !committed && !freeMinuteConsumed && !freeDayConsumed
      modifies this
      ensures code == FreeRefusal(g, old(Counters()))
      ensures !committed
      ensures code == "" ==> freeMinuteConsumed == MinuteApplies(g) && freeDayConsumed == FreeDayApplies(g)
      ensures code == "" ==> periodConsumed == old(periodConsumed) && dayConsumed == old(dayConsumed)
      ensures code == "" ==> Counters() == Plus(old(Counters()), Counts(0, 0, Marked(g).freeMinute, Marked(g).freeDay))
      ensures code != "" ==> Marks() == NO_COUNTS && Counters() == Minus(old(Counters()), old(Marks()))
    {
      if g.free {
        if g.freePerMinute > 0 {
          var ok := CheckFreeModelRPM(g.freePerMinute, g.minuteFault);
          if !ok {
            Rollback();
            return "free_model_rpm_exceeded";
          }
          freeMinuteConsumed := true;
        }
        if g.freePerDay > 0 {
          var ok := CheckFreeModelRPD(g.freePerDay, g.freeDayFault);
          if !ok {
            Rollback();
            return "free_model_rpd_exceeded";
          }
          freeDayConsumed := true;
        }
      }
      return "";
    }

    /** Lets a request through exactly when every limit has room, and then has taken one slot of
        each; a refusal leaves the counters as they were, but for a marked increment that was
        never made. */
    method ApplyPreRequestLimits(g: Gate) returns (code: string, status: int)
      requires Fresh()
      modifies this
      ensures code == Refusal(g, old(Counters())) && status == (if code == "" then 0 else 429)
      ensures status == 0 <==> Admits(g, old(Counters()))
      ensures status == 0 ==> Counters() == Plus(old(Counters()), Taken(g)) && Marks() == Marked(g)
      ensures status != 0 ==> Marks() == NO_COUNTS && Counters() == old(Counters()).(period := old(period) - One(Uncounted(g)))
      ensures !committed
    {
      code := ApplyPlanLimits(g);
      if code != "" {
        return code, 429;
      }
      code := ApplyFreeModelLimits(g);
      return code, if code == "" then 0 else 429;
    }
  }
}
