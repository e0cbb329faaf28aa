/** The shared counters that are incremented first, compared afterwards and undone on
    rejection: requests per period or per day, and plan credits per period or per day.

    Increment, compare, undo, rollback and settlement are separate steps of any number of
    concurrent requests.  A request counter is the case where every amount is one. */
module SlotCounters {
  import opened Sums

  type Id = nat

  /** Where a request stands: it has incremented and holds the result, it was admitted, it was
      rejected but has not undone its increment, or it settled at what it really used. */
  datatype Phase = Incremented(result: int) | Admitted | Rejected | Settled(actual: nat)

  datatype Request = Request(amount: nat, phase: Phase)

  datatype State = State(counter: int, requests: map<Id, Request>)

  datatype Step =
    | Incr(id: Id, amount: nat)
    | Compare(id: Id)
    | Undo(id: Id)
    | Rollback(id: Id)
    | Settle(id: Id, actual: nat)

  function Next(s: State, step: Step, limit: int): State {
    var here := step.id in s.requests;
    match step
    case Incr(id, amount) =>
      if here || amount == 0 then s
      else State(s.counter + amount, s.requests[id := Request(amount, Incremented(s.counter + amount))])
    case Compare(id) =>
      if !here || !s.requests[id].phase.Incremented? then s
      else
        var r := s.requests[id];
        s.(requests := s.requests[id := r.(phase := if r.phase.result > limit then Rejected else Admitted)])
    case Undo(id) =>
      if !here || !s.requests[id].phase.Rejected? then s
      else State(s.counter - s.requests[id].amount, s.requests - {id})
    case Rollback(id) =>
      if !here || !s.requests[id].phase.Admitted? then s
      else State(s.counter - s.requests[id].amount, s.requests - {id})
    case Settle(id, actual) =>
      if !here || !s.requests[id].phase.Admitted? then s
      else State(s.counter + actual - s.requests[id].amount,
                 s.requests[id := s.requests[id].(phase := Settled(actual))])
  }

  function Run(s: State, steps: seq<Step>, limit: int): State
    decreases |steps|
  {
    if steps == [] then s else Run(Next(s, steps[0], limit), steps[1..], limit)
  }

  // ----- the counter is the sum of what every request put in it -----

  function Holds(r: Request): nat { if r.phase.Settled? then r.phase.actual else r.amount }

  function Held(): Request -> int { (r: Request) => Holds(r) }

  /** What counts against the limit: admitted, settled, or about to be admitted. */
  function Granted(limit: int): Request -> int {
    (r: Request) =>
      if r.phase.Rejected? || (r.phase.Incremented? && r.phase.result > limit) then 0 else Holds(r)
  }

  /** Admitted or settled. */
  function Spent(): Request -> int {
    (r: Request) => if r.phase.Admitted? || r.phase.Settled? then Holds(r) else 0
  }

  /** What a settlement used beyond its reservation. */
  function Overshot(): Request -> int {
    (r: Request) => if r.phase.Settled? then Max(r.phase.actual - r.amount, 0) else 0
  }

  /** `base` was in the counter before any of these requests. */
  ghost predicate Inv(s: State, base: int, limit: int) {
    && s.counter == base + Sum(s.requests, Held())
    && base + Sum(s.requests, Granted(limit)) <= Max(base, limit) + Sum(s.requests, Overshot())
  }

  lemma NextKeepsInv(s: State, step: Step, base: int, limit: int)
    requires Inv(s, base, limit)
    ensures Inv(Next(s, step, limit), base, limit)
  {
    var s' := Next(s, step, limit);
    if s' != s {
      if step.Undo? || step.Rollback? {
        LeavingKeepsInv(s, step.id, base, limit);
      } else {
        var r := s'.requests[step.id];
        assert s'.requests == s.requests[step.id := r];
        SumWrite(s.requests, step.id, r, Held());
        SumWrite(s.requests, step.id, r, Granted(limit));
        SumWrite(s.requests, step.id, r, Overshot());
        SumBelow(s'.requests, Granted(limit), Held());
        OvershotNonNeg(s'.requests);
      }
    }
  }

  lemma LeavingKeepsInv(s: State, id: Id, base: int, limit: int)
    requires Inv(s, base, limit) && id in s.requests && !s.requests[id].phase.Settled?
    ensures Inv(State(s.counter - s.requests[id].amount, s.requests - {id}), base, limit)
  {
    SumDelete(s.requests, id, Held());
    SumDelete(s.requests, id, Granted(limit));
    SumDelete(s.requests, id, Overshot());
  }

  lemma OvershotNonNeg(rs: map<Id, Request>)
    ensures Sum(rs, Overshot()) >= 0
  {
    SumMapNonNeg(Column(rs, Overshot()));
  }

  lemma {:induction false} RunKeepsInv(s: State, steps: seq<Step>, base: int, limit: int)
    requires Inv(s, base, limit)
    ensures Inv(Run(s, steps, limit), base, limit)
    decreases |steps|
  {
    if steps != [] {
      NextKeepsInv(s, steps[0], base, limit);
      RunKeepsInv(Next(s, steps[0], limit), steps[1..], base, limit);
    }
  }

  function Init(base: int): State { State(base, map[]) }

  lemma ReachableInv(base: int, steps: seq<Step>, limit: int)
    ensures Inv(Run(Init(base), steps, limit), base, limit)
  {
    SumEmpty(Init(base).requests, Held());
    SumEmpty(Init(base).requests, Granted(limit));
    SumEmpty(Init(base).requests, Overshot());
    RunKeepsInv(Init(base), steps, base, limit);
  }

  // ----- what the limit is worth -----

  /** In every interleaving, settled plus in-flight credits exceed the limit by no more than
      the settlements overshot their reservations. */
  lemma SpentWithinLimit(base: int, steps: seq<Step>, limit: int)
    requires base <= limit
    ensures var s := Run(Init(base), steps, limit);
            base + Sum(s.requests, Spent()) <= limit + Sum(s.requests, Overshot())
  {
    ReachableInv(base, steps, limit);
    SumBelow(Run(Init(base), steps, limit).requests, Spent(), Granted(limit));
  }

  /** A counter that was lowered below what is really spent, as by releasing a reservation twice,
      admits as much more: the limit is passed without any settlement overshooting. */
  lemma LoweredCounterAdmitsMore(lost: int, limit: int)
    requires lost > 0 && limit > 0
    ensures var s := Run(Init(0 - lost), [Incr(1, limit), Compare(1), Incr(2, lost), Compare(2)], limit);
            Sum(s.requests, Spent()) == limit + lost && Sum(s.requests, Overshot()) == 0
  {
    var steps := [Incr(1, limit), Compare(1), Incr(2, lost), Compare(2)];
    var s2 := Next(Next(Init(0 - lost), steps[0], limit), steps[1], limit);
    var s4 := Next(Next(s2, steps[2], limit), steps[3], limit);
    assert s2 == State(limit - lost, map[1 := Request(limit, Admitted)]);
    assert s4.requests == map[1 := Request(limit, Admitted)][2 := Request(lost, Admitted)];
    var empty: map<Id, Request> := map[];
    SumEmpty(empty, Spent());
    SumEmpty(empty, Overshot());
    SumWrite(empty, 1, Request(limit, Admitted), Spent());
    SumWrite(empty, 1, Request(limit, Admitted), Overshot());
    SumWrite(s2.requests, 2, Request(lost, Admitted), Spent());
    SumWrite(s2.requests, 2, Request(lost, Admitted), Overshot());
    RunOfFour(Init(0 - lost), steps[0], steps[1], steps[2], steps[3], limit);
  }

  lemma RunOfFour(s: State, a: Step, b: Step, c: Step, d: Step, limit: int)
    ensures Run(s, [a, b, c, d], limit) == Next(Next(Next(Next(s, a, limit), b, limit), c, limit), d, limit)
  {
    RunOfTwo(Next(Next(s, a, limit), b, limit), c, d, limit);
    assert [a, b, c, d][1..] == [b, c, d] && [b, c, d][1..] == [c, d];
    assert Run(Next(s, a, limit), [b, c, d], limit) == Run(Next(Next(s, a, limit), b, limit), [c, d], limit);
  }

  lemma RunOfTwo(s: State, a: Step, b: Step, limit: int)
    ensures Run(s, [a, b], limit) == Next(Next(s, a, limit), b, limit)
  {
    assert [a, b][1..] == [b] && [b][1..] == [];
    assert Run(Next(s, a, limit), [b], limit) == Next(Next(s, a, limit), b, limit);
  }

  predicate AllDone(s: State) {
    forall id :: id in s.requests ==> s.requests[id].phase.Admitted? || s.requests[id].phase.Settled?
  }

  /** Rejections leave no trace: once every loser has undone its increment the counter is
      exactly what the winners hold. */
  lemma CounterDoesNotDrift(base: int, steps: seq<Step>, limit: int)
    ensures var s := Run(Init(base), steps, limit);
            AllDone(s) ==> s.counter == base + Sum(s.requests, Spent())
  {
    ReachableInv(base, steps, limit);
    var s := Run(Init(base), steps, limit);
    if AllDone(s) {
      assert Column(s.requests, Spent()) == Column(s.requests, Held());
    }
  }

  // ----- request counters: every amount is one -----

  predicate IsRequestStep(step: Step) { (step.Incr? ==> step.amount == 1) && !step.Settle? }

  function Holders(s: State): set<Id> { set id | id in s.requests && s.requests[id].phase.Admitted? }

  function Pending(s: State): set<Id> {
    set id | id in s.requests && !s.requests[id].phase.Admitted?
  }

  predicate UnitRequests(s: State) {
    forall id :: id in s.requests ==> s.requests[id].amount == 1 && !s.requests[id].phase.Settled?
  }

  lemma {:induction false} RunKeepsUnits(s: State, steps: seq<Step>, limit: int)
    requires UnitRequests(s) && forall i :: 0 <= i < |steps| ==> IsRequestStep(steps[i])
    ensures UnitRequests(Run(s, steps, limit))
    decreases |steps|
  {
    if steps != [] {
      assert IsRequestStep(steps[0]);
      RunKeepsUnits(Next(s, steps[0], limit), steps[1..], limit);
    }
  }

  lemma {:induction false} UnitsHeld(s: State)
    requires UnitRequests(s)
    ensures Sum(s.requests, Held()) == |s.requests|
    ensures Sum(s.requests, Overshot()) == 0
    decreases |s.requests|
  {
    if s.requests == map[] {
      SumEmpty(s.requests, Held());
      SumEmpty(s.requests, Overshot());
    } else {
      var id :| id in s.requests;
      UnitsHeld(s.(requests := s.requests - {id}));
      SumDelete(s.requests, id, Held());
      SumDelete(s.requests, id, Overshot());
      assert (s.requests - {id}).Keys == s.requests.Keys - {id};
    }
  }

  lemma {:induction false} UnitsSpent(s: State)
    requires UnitRequests(s)
    ensures Sum(s.requests, Spent()) == |Holders(s)|
    decreases |s.requests|
  {
    if s.requests == map[] {
      SumEmpty(s.requests, Spent());
      assert Holders(s) == {};
    } else {
      var id :| id in s.requests;
      var s' := s.(requests := s.requests - {id});
      UnitsSpent(s');
      SumDelete(s.requests, id, Spent());
      assert Holders(s') == Holders(s) - {id};
    }
  }

  /** However many requests race, the counter is the holders plus those still to compare or to
      undo, and no more than `limit` hold a slot at once. */
  lemma HoldersWithinLimit(steps: seq<Step>, limit: nat)
    requires forall i :: 0 <= i < |steps| ==> IsRequestStep(steps[i])
    ensures var s := Run(Init(0), steps, limit);
            s.counter == |Holders(s)| + |Pending(s)| && |Holders(s)| <= limit
  {
    ReachableInv(0, steps, limit);
    SpentWithinLimit(0, steps, limit);
    RunKeepsUnits(Init(0), steps, limit);
    var s := Run(Init(0), steps, limit);
    UnitsHeld(s);
    UnitsSpent(s);
    assert s.requests.Keys == Holders(s) + Pending(s);
  }

  lemma {:induction false} OthersKeepRequest(s: State, steps: seq<Step>, limit: int, id: Id)
    requires id in s.requests && forall i :: 0 <= i < |steps| ==> steps[i].id != id
    ensures id in Run(s, steps, limit).requests && Run(s, steps, limit).requests[id] == s.requests[id]
    decreases |steps|
  {
    if steps != [] {
      assert steps[0].id != id;
      OthersKeepRequest(Next(s, steps[0], limit), steps[1..], limit, id);
    }
  }

  /** What is in the counter although its request will be, or was, rejected. */
  function Doomed(limit: int): Request -> int { (r: Request) => Holds(r) - Granted(limit)(r) }

  /** A request is rejected exactly when what is granted, that is held or won already, and what the
      doomed have not yet undone leave no room for it at its increment, whatever happens until it
      compares.  So where nothing is doomed it is rejected exactly when what is granted leaves no
      room; otherwise it may be in spite of room. */
  lemma RejectedIff(base: int, steps: seq<Step>, id: Id, amount: nat, later: seq<Step>, limit: int)
    requires amount > 0 && id !in Run(Init(base), steps, limit).requests
    requires forall i :: 0 <= i < |later| ==> later[i].id != id
    ensures var s := Run(Init(base), steps, limit);
            var compared := Next(Run(Next(s, Incr(id, amount), limit), later, limit), Compare(id), limit);
            id in compared.requests
            && (compared.requests[id].phase.Rejected? <==>
                  base + Sum(s.requests, Granted(limit)) + Sum(s.requests, Doomed(limit)) + amount > limit)
            && Sum(s.requests, Doomed(limit)) >= 0
  {
    ReachableInv(base, steps, limit);
    var s := Run(Init(base), steps, limit);
    GrantedAndDoomed(s.requests, limit);
    OthersKeepRequest(Next(s, Incr(id, amount), limit), later, limit, id);
  }

  lemma GrantedAndDoomed(rs: map<Id, Request>, limit: int)
    ensures Sum(rs, Held()) == Sum(rs, Granted(limit)) + Sum(rs, Doomed(limit)) && Sum(rs, Doomed(limit)) >= 0
  {
    SumAdd(rs, Granted(limit), Doomed(limit), Held());
    SumMapNonNeg(Column(rs, Doomed(limit)));
  }

  /** The price of comparing after the increment: with a limit of 1, a request whose rival has
      not undone yet is turned away although nobody holds the slot. */
  lemma SpuriousRejection()
    ensures var steps := [Incr(1, 1), Incr(2, 1), Compare(1), Compare(2), Rollback(1), Incr(3, 1), Compare(3)];
            var s := Run(Init(0), steps, 1);
            3 in s.requests && s.requests[3].phase.Rejected? && Holders(s) == {}
  {
    var steps := [Incr(1, 1), Incr(2, 1), Compare(1), Compare(2), Rollback(1), Incr(3, 1), Compare(3)];
    var s1 := Next(Init(0), steps[0], 1);
    var s2 := Next(s1, steps[1], 1);
    var s3 := Next(s2, steps[2], 1);
    var s4 := Next(s3, steps[3], 1);
    var s5 := Next(s4, steps[4], 1);
    var s6 := Next(s5, steps[5], 1);
    var s7 := Next(s6, steps[6], 1);
    assert s7.requests.Keys == {2, 3};
    var t1 := steps[1..];
    var t2 := t1[1..];
    var t3 := t2[1..];
    var t4 := t3[1..];
    var t5 := t4[1..];
    var t6 := t5[1..];
    assert t6 == [Compare(3)] && t6[1..] == [];
    assert Run(s6, t6, 1) == s7;
    assert Run(s5, t5, 1) == s7;
    assert Run(s4, t4, 1) == s7;
    assert Run(s3, t3, 1) == s7;
    assert Run(s2, t2, 1) == s7;
    assert Run(s1, t1, 1) == s7;
  }

  // ----- the service, one caller at a time -----

  class Counter {
    var value: int

    /** Increment, compare, undo. */
    method Check(amount: int, limit: int) returns (ok: bool)
      modifies this
      ensures amount <= 0 || limit <= 0 ==> ok && value == old(value)
      ensures amount > 0 && limit > 0 ==> (ok <==> old(value) + amount <= limit)
      ensures value == old(value) + if ok && amount > 0 && limit > 0 then amount else 0
    {
      if amount <= 0 || limit <= 0 {
        return true;
      }
      value := value + amount;
      if value > limit {
        value := value - amount;
        return false;
      }
      return true;
    }

    /** Replaces a reservation by what was used. */
    method Finalize(reserved: int, actual: int)
      modifies this
      ensures value == old(value) + if reserved <= 0 then 0 else actual - reserved
    {
      if reserved > 0 {
        value := value + (actual - reserved);
      }
    }
  }
}
