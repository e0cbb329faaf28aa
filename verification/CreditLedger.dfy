/** A balance row with reservations: the credit_package row and, in the same form, the
    payg_topup row.

    One transition is one UPDATE.  `issued` and `open` belong to the specification: every
    reservation ever granted, and those not finalized yet. */
module CreditLedger {
  import opened Sums
  import opened CreditPricing

  type Id = nat

  datatype Row = Row(balance: int, reserved: int)

  // ----- the statements -----

  predicate CanReserve(r: Row, amount: int) { r.balance - r.reserved >= amount }

  function Reserved(r: Row, amount: int): Row { r.(reserved := r.reserved + amount) }

  /** Release the reservation and debit, both clamped at zero. */
  function Finalized(r: Row, reserved: int, actual: int): Row {
    if reserved <= 0 && actual <= 0 then r else
      Row(Max(r.balance - Min(Max(actual, 0), r.balance), 0), Max(r.reserved - Max(reserved, 0), 0))
  }

  function Swept(r: Row): Row { r.(reserved := 0) }

  /** The absolute balance pushed by the billing application; the column refuses negatives. */
  function Synced(r: Row, balance: int): Row { if balance < 0 then r else r.(balance := balance) }

  // ----- the transition system -----

  datatype State = State(row: Row, issued: map<Id, int>, open: map<Id, int>)

  datatype Op =
    | Reserve(id: Id, amount: int)
    | Finalize(id: Id, actual: int)
    | Sweep
    | Sync(balance: int)

  function Init(balance: nat): State { State(Row(balance, 0), map[], map[]) }

  /** A request reserves once, under its own id, and may be finalized more than once. */
  function Next(s: State, op: Op): State {
    match op
    case Reserve(id, amount) =>
      if id in s.issued || amount <= 0 || !CanReserve(s.row, amount) then s
      else State(Reserved(s.row, amount), s.issued[id := amount], s.open[id := amount])
    case Finalize(id, actual) =>
      if id !in s.issued then s
      else State(Finalized(s.row, s.issued[id], actual), s.issued, s.open - {id})
    case Sweep => s.(row := Swept(s.row))
    case Sync(balance) => s.(row := Synced(s.row, balance))
  }

  function Run(s: State, ops: seq<Op>): State
    decreases |ops|
  {
    if ops == [] then s else Run(Next(s, ops[0]), ops[1..])
  }

  // ----- every interleaving -----

  ghost predicate Sound(s: State) {
    && (forall id :: id in s.issued ==> s.issued[id] > 0)
    && (forall id :: id in s.open ==> id in s.issued && s.open[id] == s.issued[id])
    && s.row.balance >= 0
    && 0 <= s.row.reserved <= SumMap(s.open)
  }

  lemma NextKeepsSound(s: State, op: Op)
    requires Sound(s)
    ensures Sound(Next(s, op))
  {
    match op
    case Reserve(id, amount) => SumMapWrite(s.open, id, amount);
    case Finalize(id, actual) =>
      SumMapDelete(s.open, id);
      SumMapNonNeg(s.open - {id});
    case Sweep =>
    case Sync(balance) =>
  }

  /** Reserves, finalizes (even repeated), sweeps and syncs in any order never drive the
      balance negative, and never hold back more than what is outstanding. */
  lemma {:induction false} RunKeepsSound(s: State, ops: seq<Op>)
    requires Sound(s)
    ensures Sound(Run(s, ops))
    decreases |ops|
  {
    if ops != [] {
      NextKeepsSound(s, ops[0]);
      RunKeepsSound(Next(s, ops[0]), ops[1..]);
    }
  }

  // ----- sweeps that meet no live reservation, every reservation finalized at most once -----

  predicate Once(s: State, op: Op) {
    match op
    case Reserve(_, _) => true
    case Finalize(id, _) => id in s.issued ==> id in s.open
    case Sweep => s.open == map[]
    case Sync(_) => true
  }

  predicate AllOnce(s: State, ops: seq<Op>)
    decreases |ops|
  {
    ops == [] || (Once(s, ops[0]) && AllOnce(Next(s, ops[0]), ops[1..]))
  }

  ghost predicate Exact(s: State) { Sound(s) && s.row.reserved == SumMap(s.open) }

  lemma NextKeepsExact(s: State, op: Op)
    requires Exact(s) && Once(s, op)
    ensures Exact(Next(s, op))
  {
    NextKeepsSound(s, op);
    match op
    case Reserve(id, amount) => SumMapWrite(s.open, id, amount);
    case Finalize(id, actual) =>
      SumMapDelete(s.open, id);
      SumMapNonNeg(s.open - {id});
    case Sweep =>
    case Sync(balance) =>
  }

  /** Then exactly the outstanding reservations are held back. */
  lemma {:induction false} RunKeepsExact(s: State, ops: seq<Op>)
    requires Exact(s) && AllOnce(s, ops)
    ensures Exact(Run(s, ops))
    decreases |ops|
  {
    if ops != [] {
      NextKeepsExact(s, ops[0]);
      RunKeepsExact(Next(s, ops[0]), ops[1..]);
    }
  }

  // ----- moreover no lowering, and settlements within their reservations -----

  predicate Funded(s: State, op: Op) {
    && Once(s, op)
    && (op.Sync? ==> op.balance >= s.row.balance)
    && (op.Finalize? && op.id in s.issued ==> op.actual <= s.issued[op.id])
  }

  predicate AllFunded(s: State, ops: seq<Op>)
    decreases |ops|
  {
    ops == [] || (Funded(s, ops[0]) && AllFunded(Next(s, ops[0]), ops[1..]))
  }

  /** What a step adds from outside, and what it settles. */
  function Raised(s: State, op: Op): int { if op.Sync? then op.balance - s.row.balance else 0 }

  function Settled(s: State, op: Op): int {
    if op.Finalize? && op.id in s.issued then Max(op.actual, 0) else 0
  }

  function TotalRaised(s: State, ops: seq<Op>): int
    decreases |ops|
  {
    if ops == [] then 0 else Raised(s, ops[0]) + TotalRaised(Next(s, ops[0]), ops[1..])
  }

  function TotalSettled(s: State, ops: seq<Op>): int
    decreases |ops|
  {
    if ops == [] then 0 else Settled(s, ops[0]) + TotalSettled(Next(s, ops[0]), ops[1..])
  }

  ghost predicate Covered(s: State) { Exact(s) && s.row.reserved <= s.row.balance }

  lemma NextKeepsCovered(s: State, op: Op)
    requires Covered(s) && Funded(s, op)
    ensures Covered(Next(s, op))
    ensures Next(s, op).row.balance == s.row.balance + Raised(s, op) - Settled(s, op)
  {
    NextKeepsExact(s, op);
    if op.Finalize? && op.id in s.issued {
      SumMapRemove(s.open, op.id);
      SumMapNonNeg(s.open - {op.id});
    }
  }

  /** Every reservation stays covered, no debit is ever clamped, and the balance lost is
      exactly what was settled. */
  lemma {:induction false} RunConserves(s: State, ops: seq<Op>)
    requires Covered(s) && AllFunded(s, ops)
    ensures Covered(Run(s, ops))
    ensures Run(s, ops).row.balance == s.row.balance + TotalRaised(s, ops) - TotalSettled(s, ops)
    decreases |ops|
  {
    if ops != [] {
      NextKeepsCovered(s, ops[0]);
      RunConserves(Next(s, ops[0]), ops[1..]);
    }
  }

  lemma InitIsCovered(balance: nat)
    ensures Covered(Init(balance))
  {
    SumMapNonNeg(Init(balance).open);
  }

  // ----- bucket pricing meets the hypothesis -----

  datatype Job = Job(price: int, estimate: int, billed: int)

  /** A request reserves its estimate and settles at its actual price, or at nothing. */
  predicate Priced(op: Op, jobs: Id -> Job) {
    match op
    case Reserve(id, amount) => amount == ReservedCredits(jobs(id).price, jobs(id).estimate)
    case Finalize(id, actual) =>
      jobs(id).billed <= jobs(id).estimate && actual in {0, ActualCredits(jobs(id).price, jobs(id).billed)}
    case Sweep => true
    case Sync(_) => true
  }

  predicate OnceAndRaising(s: State, ops: seq<Op>)
    decreases |ops|
  {
    ops == [] || (Once(s, ops[0]) && (ops[0].Sync? ==> ops[0].balance >= s.row.balance)
                  && OnceAndRaising(Next(s, ops[0]), ops[1..]))
  }

  lemma {:induction false} PricedRunsAreFunded(s: State, ops: seq<Op>, jobs: Id -> Job)
    requires forall id :: id in s.issued ==> s.issued[id] == ReservedCredits(jobs(id).price, jobs(id).estimate)
    requires forall i :: 0 <= i < |ops| ==> Priced(ops[i], jobs)
    requires OnceAndRaising(s, ops)
    ensures AllFunded(s, ops)
    decreases |ops|
  {
    if ops != [] {
      var op := ops[0];
      assert Priced(op, jobs);
      if op.Finalize? {
        var j := jobs(op.id);
        ActualWithinReservation(j.price, j.estimate, j.billed);
      }
      PricedRunsAreFunded(Next(s, op), ops[1..], jobs);
    }
  }

  /** So a customer billed for at most the estimated tokens pays exactly the priced usage. */
  lemma PricedRunsConserve(balance: nat, ops: seq<Op>, jobs: Id -> Job)
    requires forall i :: 0 <= i < |ops| ==> Priced(ops[i], jobs)
    requires OnceAndRaising(Init(balance), ops)
    ensures var s := Init(balance);
            Run(s, ops).row.balance == balance + TotalRaised(s, ops) - TotalSettled(s, ops)
  {
    InitIsCovered(balance);
    PricedRunsAreFunded(Init(balance), ops, jobs);
    RunConserves(Init(balance), ops);
  }

  // ----- where the hypotheses are needed -----

  /** Finalizing a reservation a second time is harmless exactly when no other one is outstanding. */
  lemma SecondReleaseHarmlessIff(s: State, id: Id)
    requires Exact(s) && id in s.open
    ensures var once := Next(s, Finalize(id, 0));
            Next(once, Finalize(id, 0)) == once <==> s.open.Keys == {id}
  {
    var others := s.open - {id};
    SumMapRemove(s.open, id);
    SumMapNonNeg(others);
    assert others - {id} == others;
    assert s.open.Keys == others.Keys + {id};
    assert others == map[] <==> others.Keys == {};
  }

  /** A sweep leaves the row exact, indeed as it was, exactly when no reservation is outstanding. */
  lemma SweepHarmlessIff(s: State)
    requires Exact(s)
    ensures Exact(Next(s, Sweep)) <==> s.open == map[]
    ensures Next(s, Sweep) == s <==> s.open == map[]
  {
    SumMapNonNeg(s.open);
    if s.open != map[] {
      var id :| id in s.open;
      assert s.open[id] > 0;
    }
  }

  /** A sweep that hits a live request lets two reservations share the same balance: 20 is
      settled and only 10 debited. */
  lemma SweepOvercommits()
    ensures var ops := [Reserve(1, 10), Sweep, Reserve(2, 10), Finalize(1, 10), Finalize(2, 10)];
            TotalSettled(Init(10), ops) == 20 && Run(Init(10), ops).row.balance == 0
  {
    var ops := [Reserve(1, 10), Sweep, Reserve(2, 10), Finalize(1, 10), Finalize(2, 10)];
    var s1 := Next(Init(10), ops[0]);
    var s2 := Next(s1, ops[1]);
    var s3 := Next(s2, ops[2]);
    var s4 := Next(s3, ops[3]);
    var s5 := Next(s4, ops[4]);
    assert s5.row.balance == 0;
    var o1 := ops[1..];
    var o2 := o1[1..];
    var o3 := o2[1..];
    var o4 := o3[1..];
    assert o4 == [ops[4]] && o4[1..] == [];
    assert Run(s4, o4) == s5 && TotalSettled(s4, o4) == 10;
    assert Run(s3, o3) == s5 && TotalSettled(s3, o3) == 20;
    assert Run(s2, o2) == s5 && TotalSettled(s2, o2) == 20;
    assert Run(s1, o1) == s5 && TotalSettled(s1, o1) == 20;
  }

  // ----- the row -----

  datatype Error = InsufficientBalance

  class BalanceRow {
    var balance: int
    var reserved: int

    ghost function State(): Row
      reads this
    {
      Row(balance, reserved)
    }

    method Reserve(amount: int) returns (error: Option<Error>)
      modifies this
      ensures amount <= 0 ==> error == None && State() == old(State())
      ensures amount > 0 ==> (error == None <==> CanReserve(old(State()), amount))
      ensures amount > 0 ==>
        State() == if error == None then Reserved(old(State()), amount) else old(State())
    {
      if amount <= 0 {
        return None;
      }
      if balance - reserved < amount {
        return Some(InsufficientBalance);
      }
      reserved := reserved + amount;
      return None;
    }

    method Finalize(reservedAmount: int, actualAmount: int)
      modifies this
      ensures State() == Finalized(old(State()), reservedAmount, actualAmount)
    {
      if reservedAmount <= 0 && actualAmount <= 0 {
        return;
      }
      var held, actual := Max(reservedAmount, 0), Max(actualAmount, 0);
      reserved := Max(reserved - held, 0);
      balance := Max(balance - Min(actual, balance), 0);
    }

    /** The sweep touches the row only when it holds a reservation and is stale. */
    method ReleaseStale(stale: bool) returns (released: bool)
      modifies this
      ensures released <==> old(reserved) > 0 && stale
      ensures State() == if released then Swept(old(State())) else old(State())
    {
      released := reserved > 0 && stale;
      if released {
        reserved := 0;
      }
    }

    method SyncBalance(value: int)
      modifies this
      ensures State() == Synced(old(State()), value)
    {
      if value >= 0 {
        balance := value;
      }
    }
  }
}
