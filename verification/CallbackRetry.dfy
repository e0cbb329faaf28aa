/** The durable queue of debit callbacks and the worker that drains it. */
module CallbackRetry {
  import opened Amounts
  import opened Sums

  const IN_PROCESS_ATTEMPTS := 3
  const MAX_RETRY := 24
  const BATCH := 50
  const SECOND := 1_000_000_000
  const CEILING := 600 * SECOND

  // ----- backoff in 64-bit nanoseconds -----

  const TWO_TO_63 := 0x8000_0000_0000_0000

  function Wrap(x: int): int { (x + TWO_TO_63) % (2 * TWO_TO_63) - TWO_TO_63 }

  function Pow2(n: nat): nat { if n == 0 then 1 else 2 * Pow2(n - 1) }

  /** The wait after a failure of a row that had failed `attempts` times before. */
  function Backoff(attempts: nat): int {
    var wait := Wrap(Wrap(Pow2(attempts + 1)) * SECOND);
    if wait > CEILING then CEILING else wait
  }

  lemma {:induction false} Pow2Grows(a: nat, b: nat)
    requires a <= b
    ensures 1 <= Pow2(a) <= Pow2(b)
    decreases b
  {
    if a < b {
      Pow2Grows(a, b - 1);
    } else if a > 0 {
      Pow2Grows(a - 1, b - 1);
    }
  }

  lemma WrapSmall(x: int)
    requires -TWO_TO_63 <= x < TWO_TO_63
    ensures Wrap(x) == x
  {
  }

  /** The doubling never overflows for the attempts the worker retries after. */
  lemma BackoffIsExact(attempts: nat)
    requires attempts + 1 < MAX_RETRY
    ensures Backoff(attempts) == Min(Pow2(attempts + 1) * SECOND, CEILING)
    ensures 2 * SECOND <= Backoff(attempts) <= CEILING
  {
    Pow2Grows(1, attempts + 1);
    Pow2Grows(attempts + 1, 23);
    assert Pow2(1) == 2;
    assert Pow2(23) == 0x80_0000 by {
      assert Pow2(8) == 256;
      assert Pow2(16) == 65536;
    }
    WrapSmall(Pow2(attempts + 1));
    WrapSmall(Pow2(attempts + 1) * SECOND);
  }

  lemma BackoffNeverShrinks(a: nat, b: nat)
    requires a <= b && b + 1 < MAX_RETRY
    ensures Backoff(a) <= Backoff(b)
  {
    BackoffIsExact(a);
    BackoffIsExact(b);
    Pow2Grows(a + 1, b + 1);
  }

  /** Without the limit on attempts the doubling would overflow into a wait in the past. */
  lemma BackoffOverflows()
    ensures Backoff(33) < 0
  {
    assert Pow2(8) == 256;
    assert Pow2(16) == 65536;
    assert Pow2(24) == 65536 * 256;
    assert Pow2(32) == 65536 * 65536;
    assert Pow2(34) == 0x4_0000_0000;
  }

  // ----- the queue and the receiver -----

  datatype Key = Key(requestId: string, mode: string)

  datatype Status = Pending | Abandoned | FailedPermanent

  /** `posts` and `unmarked` are history: deliveries made, and those whose outcome was not stored. */
  datatype Row = Row(amount: Amount, attempts: nat, due: int, status: Status, posts: nat, unmarked: nat)

  datatype Debit = Debit(key: Key, amount: Amount)

  /** The queue, what the receiver has debited, and the debits ever requested. */
  datatype State = State(queue: map<Key, Row>, debits: seq<Debit>, requested: set<Key>)

  /** What a post meets: the answer's status code if one came, and whether the post took effect. */
  datatype Outcome = Outcome(code: Option<nat>, landed: bool)

  predicate Succeeded(o: Outcome) { o.code.Some? && o.code.value < 400 }

  predicate Permanent(o: Outcome) { o.code.Some? && 400 <= o.code.value < 500 && o.code.value != 429 }

  predicate Debited(debits: seq<Debit>, key: Key) { exists d :: d in debits && d.key == key }

  /** The receiver ignores a key it has debited before. */
  function Received(debits: seq<Debit>, key: Key, amount: Amount, o: Outcome): seq<Debit> {
    if (Succeeded(o) || o.landed) && !Debited(debits, key) then debits + [Debit(key, amount)] else debits
  }

  /** An insertion that leaves an existing row of the key alone. */
  function Enqueued(queue: map<Key, Row>, key: Key, amount: Amount, now: int): map<Key, Row> {
    if key in queue then queue else queue[key := Row(Stored(amount), 0, now, Pending, 0, 0)]
  }

  /** The row after a delivery; none when it is deleted. */
  function Marked(row: Row, o: Outcome, now: int, markOk: bool): Option<Row> {
    var r := row.(posts := row.posts + 1);
    if !markOk then Some(r.(unmarked := row.unmarked + 1))
    else if Succeeded(o) then None
    else if Permanent(o) then Some(r.(status := FailedPermanent, attempts := row.attempts + 1))
    else if row.attempts + 1 >= MAX_RETRY then Some(r.(status := Abandoned, attempts := row.attempts + 1))
    else Some(r.(attempts := row.attempts + 1, due := now + Backoff(row.attempts)))
  }

  predicate Due(row: Row, now: int) { row.status == Pending && row.due <= now }

  datatype Op =
    /** A settled request posts its debit in process and queues it when every try failed. */
    | Post(key: Key, amount: Amount, tries: nat -> Outcome, now: int, queueOk: bool)
    /** The worker delivers one due row. */
    | Deliver(id: Key, outcome: Outcome, at: int, markOk: bool)

  function Tried(debits: seq<Debit>, op: Op, n: nat): seq<Debit>
    requires op.Post? && n <= IN_PROCESS_ATTEMPTS
    decreases IN_PROCESS_ATTEMPTS - n
  {
    if n == IN_PROCESS_ATTEMPTS then debits
    else
      var after := Received(debits, op.key, op.amount, op.tries(n));
      if Succeeded(op.tries(n)) then after else Tried(after, op, n + 1)
  }

  predicate AnySucceeded(tries: nat -> Outcome, n: nat)
    requires n <= IN_PROCESS_ATTEMPTS
    decreases IN_PROCESS_ATTEMPTS - n
  {
    n < IN_PROCESS_ATTEMPTS && (Succeeded(tries(n)) || AnySucceeded(tries, n + 1))
  }

  function Posted(s: State, op: Op): State
    requires op.Post?
  {
    State(
      if AnySucceeded(op.tries, 0) || !op.queueOk then s.queue else Enqueued(s.queue, op.key, op.amount, op.now),
      Tried(s.debits, op, 0),
      s.requested + {op.key})
  }

  function DeliveredOne(s: State, op: Op): State
    requires op.Deliver? && op.id in s.queue
  {
    var row := s.queue[op.id];
    var after := Marked(row, op.outcome, op.at, op.markOk);
    State(
      if after.None? then s.queue - {op.id} else s.queue[op.id := after.value],
      Received(s.debits, op.id, row.amount, op.outcome),
      s.requested)
  }

  function Next(s: State, op: Op): State {
    match op
    case Post(_, _, _, _, _) => Posted(s, op)
    case Deliver(id, _, at, _) => if id in s.queue && Due(s.queue[id], at) then DeliveredOne(s, op) else s
  }

  function Run(s: State, ops: seq<Op>): State
    decreases |ops|
  {
    if ops == [] then s else Run(Next(s, ops[0]), ops[1..])
  }

  // ----- what every run keeps -----

  ghost predicate GoodRow(row: Row) {
    && row.posts == row.attempts + row.unmarked
    && match row.status
       case Pending => row.attempts < MAX_RETRY
       case Abandoned => row.attempts == MAX_RETRY
       case FailedPermanent => 1 <= row.attempts <= MAX_RETRY
  }

  ghost predicate Inv(s: State) {
    && (forall k :: k in s.queue ==> GoodRow(s.queue[k]) && k in s.requested)
    && (forall i, j :: 0 <= i < j < |s.debits| ==> s.debits[i].key != s.debits[j].key)
    && (forall d :: d in s.debits ==> d.key in s.requested)
  }

  predicate DistinctKeys(debits: seq<Debit>) {
    forall i, j :: 0 <= i < j < |debits| ==> debits[i].key != debits[j].key
  }

  lemma ReceivedFacts(debits: seq<Debit>, key: Key, amount: Amount, o: Outcome)
    requires DistinctKeys(debits)
    ensures DistinctKeys(Received(debits, key, amount, o))
    ensures Succeeded(o) ==> Debited(Received(debits, key, amount, o), key)
    ensures forall k :: Debited(debits, k) ==> Debited(Received(debits, key, amount, o), k)
    ensures forall d :: d in Received(debits, key, amount, o) ==> d in debits || d == Debit(key, amount)
  {
    if (Succeeded(o) || o.landed) && !Debited(debits, key) {
      assert Debit(key, amount) in debits + [Debit(key, amount)];
    }
  }

  lemma {:induction false} TriedFacts(debits: seq<Debit>, op: Op, n: nat)
    requires op.Post? && n <= IN_PROCESS_ATTEMPTS && DistinctKeys(debits)
    ensures DistinctKeys(Tried(debits, op, n))
    ensures AnySucceeded(op.tries, n) ==> Debited(Tried(debits, op, n), op.key)
    ensures forall k :: Debited(debits, k) ==> Debited(Tried(debits, op, n), k)
    ensures forall d :: d in Tried(debits, op, n) ==> d in debits || d == Debit(op.key, op.amount)
    decreases IN_PROCESS_ATTEMPTS - n
  {
    if n < IN_PROCESS_ATTEMPTS {
      ReceivedFacts(debits, op.key, op.amount, op.tries(n));
      if !Succeeded(op.tries(n)) {
        TriedFacts(Received(debits, op.key, op.amount, op.tries(n)), op, n + 1);
      }
    }
  }

  lemma NextKeepsInv(s: State, op: Op)
    requires Inv(s)
    ensures Inv(Next(s, op))
    ensures forall k :: Debited(s.debits, k) ==> Debited(Next(s, op).debits, k)
  {
    match op
    case Post(_, _, _, _, _) => TriedFacts(s.debits, op, 0);
    case Deliver(id, outcome, at, _) =>
      if id in s.queue && Due(s.queue[id], at) {
        ReceivedFacts(s.debits, id, s.queue[id].amount, outcome);
      }
  }

  /** In every run a row is posted at most 24 times, plus once for every outcome the database did
      not store, and the receiver debits no key twice. */
  lemma {:induction false} RunKeepsInv(s: State, ops: seq<Op>)
    requires Inv(s)
    ensures Inv(Run(s, ops))
    ensures forall k :: k in Run(s, ops).queue ==>
      Run(s, ops).queue[k].posts <= MAX_RETRY + Run(s, ops).queue[k].unmarked
    decreases |ops|
  {
    if ops != [] {
      NextKeepsInv(s, ops[0]);
      RunKeepsInv(Next(s, ops[0]), ops[1..]);
    }
  }

  ghost predicate QueueWritesSucceed(ops: seq<Op>) {
    forall op :: op in ops ==> if op.Post? then op.queueOk else op.markOk
  }

  /** When the queue's writes succeed, no row is posted more than 24 times. */
  lemma {:induction false} AtMost24Posts(s: State, ops: seq<Op>)
    requires Inv(s) && QueueWritesSucceed(ops) && forall k :: k in s.queue ==> s.queue[k].unmarked == 0
    ensures forall k :: k in Run(s, ops).queue ==> Run(s, ops).queue[k].posts <= MAX_RETRY
    decreases |ops|
  {
    if ops != [] {
      NextKeepsInv(s, ops[0]);
      assert ops[0] in ops && forall op :: op in ops[1..] ==> op in ops;
      AtMost24Posts(Next(s, ops[0]), ops[1..]);
    }
  }

  /** A row that is no longer pending is never changed, posted or removed again. */
  lemma {:induction false} TerminalRowsStay(s: State, ops: seq<Op>, k: Key)
    requires k in s.queue && s.queue[k].status != Pending
    ensures k in Run(s, ops).queue && Run(s, ops).queue[k] == s.queue[k]
    decreases |ops|
  {
    if ops != [] {
      TerminalRowsStay(Next(s, ops[0]), ops[1..], k);
    }
  }

  // ----- no debit is lost -----

  ghost predicate NoneLost(s: State) { forall k :: k in s.requested ==> k in s.queue || Debited(s.debits, k) }

  lemma NextLosesNone(s: State, op: Op)
    requires Inv(s) && NoneLost(s) && (op.Post? ==> op.queueOk)
    ensures NoneLost(Next(s, op))
  {
    match op
    case Post(_, _, _, _, _) => TriedFacts(s.debits, op, 0);
    case Deliver(id, outcome, at, _) =>
      if id in s.queue && Due(s.queue[id], at) {
        ReceivedFacts(s.debits, id, s.queue[id].amount, outcome);
      }
  }

  /** In every run whose insertions succeed, every requested debit was made or is still in the
      queue: a row goes away only after the receiver has debited its key. */
  lemma {:induction false} RunLosesNone(s: State, ops: seq<Op>)
    requires Inv(s) && NoneLost(s) && forall op :: op in ops && op.Post? ==> op.queueOk
    ensures NoneLost(Run(s, ops))
    decreases |ops|
  {
    if ops != [] {
      assert ops[0] in ops && forall op :: op in ops[1..] ==> op in ops;
      NextLosesNone(s, ops[0]);
      NextKeepsInv(s, ops[0]);
      RunLosesNone(Next(s, ops[0]), ops[1..]);
    }
  }

  /** The amounts that belong to the keys. */
  ghost predicate PostsCarry(ops: seq<Op>, amountOf: Key -> Amount) {
    forall op :: op in ops && op.Post? ==> op.amount == amountOf(op.key)
  }

  /** In process a debit is posted in full, from the queue as it was stored. */
  ghost predicate Carries(s: State, amountOf: Key -> Amount) {
    && (forall k :: k in s.queue ==> s.queue[k].amount == Stored(amountOf(k)))
    && (forall d :: d in s.debits ==> d.amount in {amountOf(d.key), Stored(amountOf(d.key))})
  }

  lemma {:induction false} RunCarries(s: State, ops: seq<Op>, amountOf: Key -> Amount)
    requires Inv(s) && Carries(s, amountOf) && PostsCarry(ops, amountOf)
    ensures Carries(Run(s, ops), amountOf)
    decreases |ops|
  {
    if ops != [] {
      var op := ops[0];
      assert op in ops && forall o :: o in ops[1..] ==> o in ops;
      NextKeepsInv(s, op);
      match op {
        case Post(_, _, _, _, _) => TriedFacts(s.debits, op, 0);
        case Deliver(id, outcome, at, _) =>
          if id in s.queue && Due(s.queue[id], at) {
            ReceivedFacts(s.debits, id, s.queue[id].amount, outcome);
          }
      }
      RunCarries(Next(s, op), ops[1..], amountOf);
    }
  }

  /** Whichever post lands first, in process or from the queue, the debit has the settled amount up
      to half a millionth of a dollar, and exactly if that amount is whole millionths or credits. */
  lemma DebitsHaveTheirAmount(s: State, ops: seq<Op>, amountOf: Key -> Amount)
    requires Inv(s) && Carries(s, amountOf) && PostsCarry(ops, amountOf)
    requires forall k :: Positive(amountOf(k))
    ensures forall d :: d in Run(s, ops).debits ==> Near(amountOf(d.key), d.amount)
    ensures forall d :: d in Run(s, ops).debits && Exact(amountOf(d.key)) ==> d.amount == amountOf(d.key)
  {
    RunCarries(s, ops, amountOf);
    forall d | d in Run(s, ops).debits
      ensures Near(amountOf(d.key), d.amount) && (Exact(amountOf(d.key)) ==> d.amount == amountOf(d.key))
    {
      StoredIsNear(amountOf(d.key));
      StoredExactIff(amountOf(d.key));
    }
  }

  /** A debit that the queue delivers is of the settled amount if and only if that is exact. */
  lemma QueuedDebitIsExactIff(s: State, k: Key, o: Outcome, at: int, markOk: bool, amount: Amount)
    requires Positive(amount) && k in s.queue && s.queue[k].amount == Stored(amount) && Due(s.queue[k], at)
    requires Succeeded(o) && !Debited(s.debits, k)
    ensures Debit(k, amount) in Next(s, Deliver(k, o, at, markOk)).debits <==> Exact(amount)
  {
    StoredExactIff(amount);
  }

  // ----- a row that always fails -----

  predicate Retried(o: Outcome) { !Succeeded(o) && !Permanent(o) }

  function Failures(k: Key, times: nat -> int, outcomes: nat -> Outcome, n: nat): seq<Op> {
    if n == 0 then [] else Failures(k, times, outcomes, n - 1) + [Deliver(k, outcomes(n - 1), times(n - 1), true)]
  }

  lemma {:induction false} RunSnoc(s: State, ops: seq<Op>, op: Op)
    ensures Run(s, ops + [op]) == Next(Run(s, ops), op)
    decreases |ops|
  {
    if ops == [] {
      assert Run(Next(s, op), []) == Next(s, op);
      assert [op][1..] == [] && [] + [op] == [op];
    } else {
      assert (ops + [op])[1..] == ops[1..] + [op];
      RunSnoc(Next(s, ops[0]), ops[1..], op);
    }
  }

  /** Every delivery comes when the row is due again. */
  ghost predicate OnTime(due: int, times: nat -> int) {
    due <= times(0) && forall i: nat :: i + 1 < MAX_RETRY ==> times(i) + Backoff(i) <= times(i + 1)
  }

  /** A row whose deliveries fail in any retriable ways, each made once it is due, is posted exactly
      24 times and then abandoned. */
  lemma {:induction false} FailingRowIsAbandoned(s: State, k: Key, times: nat -> int, outcomes: nat -> Outcome, n: nat)
    requires k in s.queue && s.queue[k] == Row(s.queue[k].amount, 0, s.queue[k].due, Pending, 0, 0)
    requires OnTime(s.queue[k].due, times) && forall i: nat :: Retried(outcomes(i))
    ensures var s' := Run(s, Failures(k, times, outcomes, n));
      && k in s'.queue && s'.queue[k].posts == Min(n, MAX_RETRY)
      && s'.queue[k].attempts == Min(n, MAX_RETRY) && s'.queue[k].unmarked == 0
      && (if n < MAX_RETRY then s'.queue[k].status == Pending && s'.queue[k].due <= times(n)
          else s'.queue[k].status == Abandoned)
  {
    if n > 0 {
      FailingRowIsAbandoned(s, k, times, outcomes, n - 1);
      RunSnoc(s, Failures(k, times, outcomes, n - 1), Deliver(k, outcomes(n - 1), times(n - 1), true));
      assert Retried(outcomes(n - 1));
      assert n < MAX_RETRY ==> times(n - 1) + Backoff(n - 1) <= times(n);
    }
  }

  // ----- the worker -----

  function DeliverAll(rows: seq<Key>, outcome: Key -> Outcome, markOk: Key -> bool, now: int): seq<Op> {
    if rows == [] then [] else [Deliver(rows[0], outcome(rows[0]), now, markOk(rows[0]))] + DeliverAll(rows[1..], outcome, markOk, now)
  }

  /** The due rows in order of their time, as many as the limit allows, none passed over for a
      later one. */
  ghost predicate DueBatch(queue: map<Key, Row>, now: int, limit: nat, rows: seq<Key>) {
    && (forall k :: k in rows ==> k in queue && Due(queue[k], now))
    && (forall i, j :: 0 <= i < j < |rows| ==> rows[i] != rows[j] && queue[rows[i]].due <= queue[rows[j]].due)
    && |rows| <= limit
    && (forall k :: k in queue && Due(queue[k], now) && k !in rows ==>
        |rows| == limit && forall r :: r in rows ==> queue[r].due <= queue[k].due)
  }

  class Worker {
    var queue: map<Key, Row>
    ghost var debits: seq<Debit>
    ghost var requested: set<Key>

    ghost function Value(): State
      reads this
    {
      State(queue, debits, requested)
    }

    method EnqueuePendingCallback(key: Key, amount: Amount, now: int)
      modifies this`queue
      ensures queue == Enqueued(old(queue), key, amount, now)
    {
      if key !in queue {
        queue := queue[key := Row(Stored(amount), 0, now, Pending, 0, 0)];
      }
    }

    method PostUsageDebitAsync(key: Key, amount: Amount, tries: nat -> Outcome, now: int, queueOk: bool)
      modifies this
      ensures Value() == Next(old(Value()), Post(key, amount, tries, now, queueOk))
    {
      ghost var op := Post(key, amount, tries, now, queueOk);
      requested := requested + {key};
      var attempt := 0;
      while attempt < IN_PROCESS_ATTEMPTS
        invariant 0 <= attempt <= IN_PROCESS_ATTEMPTS
        invariant queue == old(queue) && requested == old(requested) + {key}
        invariant Tried(old(debits), op, 0) == Tried(debits, op, attempt)
        invariant AnySucceeded(tries, 0) == AnySucceeded(tries, attempt)
      {
        debits := Received(debits, key, amount, tries(attempt));
        if Succeeded(tries(attempt)) {
          return;
        }
        attempt := attempt + 1;
      }
      if queueOk {
        EnqueuePendingCallback(key, amount, now);
      }
    }

    method ListDuePendingCallbacks(now: int, limit: nat) returns (rows: seq<Key>)
      ensures DueBatch(queue, now, limit, rows)
    {
      rows := [];
      var left := set k | k in queue && Due(queue[k], now);
      while left != {} && |rows| < limit
        invariant |rows| <= limit
        invariant forall k :: k in left || k in rows <==> k in queue && Due(queue[k], now)
        invariant forall k :: k in rows ==> k !in left
        invariant forall i, j :: 0 <= i < j < |rows| ==> rows[i] != rows[j] && queue[rows[i]].due <= queue[rows[j]].due
        invariant forall r, k :: r in rows && k in left ==> queue[r].due <= queue[k].due
        decreases |left|
      {
        var first := Earliest(left);
        rows := rows + [first];
        left := left - {first};
      }
    }

    method Earliest(keys: set<Key>) returns (first: Key)
      requires keys != {} && forall k :: k in keys ==> k in queue
      ensures first in keys && forall k :: k in keys ==> queue[first].due <= queue[k].due
    {
      first :| first in keys;
      var left := keys - {first};
      while left != {}
        invariant first in keys && left <= keys
        invariant forall k :: k in keys && k !in left ==> queue[first].due <= queue[k].due
        decreases |left|
      {
        var k :| k in left;
        if queue[k].due < queue[first].due {
          first := k;
        }
        left := left - {k};
      }
    }

    method Deliver(key: Key, outcome: Outcome, now: int, markOk: bool)
      requires key in queue && Due(queue[key], now)
      modifies this`queue, this`debits
      ensures Value() == Next(old(Value()), Op.Deliver(key, outcome, now, markOk))
    {
      var row := queue[key];
      debits := Received(debits, key, row.amount, outcome);
      row := row.(posts := row.posts + 1);
      if !markOk {
        queue := queue[key := row.(unmarked := row.unmarked + 1)];
        return;
      }
      if Succeeded(outcome) {
        queue := queue - {key};
        return;
      }
      var nonRetriable := false;
      if outcome.code.Some? {
        var status := outcome.code.value;
        nonRetriable := status >= 400 && status < 500 && status != 429;
      }
      if nonRetriable {
        queue := queue[key := row.(status := FailedPermanent, attempts := row.attempts + 1)];
        return;
      }
      if row.attempts + 1 >= MAX_RETRY {
        queue := queue[key := row.(status := Abandoned, attempts := row.attempts + 1)];
        return;
      }
      var backoff := Wrap(Wrap(Pow2(row.attempts + 1)) * SECOND);
      if backoff > CEILING {
        backoff := CEILING;
      }
      queue := queue[key := row.(attempts := row.attempts + 1, due := now + backoff)];
    }

    method ProcessBatch(outcome: Key -> Outcome, markOk: Key -> bool, now: int) returns (ghost rows: seq<Key>)
      modifies this`queue, this`debits
      ensures DueBatch(old(queue), now, BATCH, rows)
      ensures Value() == Run(old(Value()), DeliverAll(rows, outcome, markOk, now))
    {
      var listed := ListDuePendingCallbacks(now, BATCH);
      rows := listed;
      var i := 0;
      while i < |listed|
        invariant 0 <= i <= |listed| && requested == old(requested)
        invariant forall j :: i <= j < |listed| ==> listed[j] in queue && Due(queue[listed[j]], now)
        invariant Run(old(Value()), DeliverAll(listed, outcome, markOk, now)) == Run(Value(), DeliverAll(listed[i..], outcome, markOk, now))
      {
        ghost var ops := DeliverAll(listed[i..], outcome, markOk, now);
        assert listed[i..][1..] == listed[i + 1..];
        assert ops[1..] == DeliverAll(listed[i + 1..], outcome, markOk, now);
        Deliver(listed[i], outcome(listed[i]), now, markOk(listed[i]));
        i := i + 1;
      }
    }
  }
}
