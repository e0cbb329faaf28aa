/** The token quota counters, keyed by user, period start and period end, and the migration
    that folds every end of a period into the current one.

    One transition is one SQL statement or transaction.  Token counts are never negative. */
module QuotaCounter {
  import opened Sums

  datatype Key = Key(user: string, start: int, end: int)

  datatype Counter = Counter(used: nat, reserved: nat, requests: nat)

  type Table = map<Key, Counter>

  datatype Error = QuotaExceeded

  // ----- one row -----

  function Lookup(t: Table, k: Key): Option<Counter> { if k in t then Some(t[k]) else None }

  function Read(t: Table, k: Key): Counter { if k in t then t[k] else Counter(0, 0, 0) }

  predicate CanReserve(row: Option<Counter>, tokens: int, limit: int) {
    tokens <= limit && (row.Some? ==> row.value.used + row.value.reserved + tokens <= limit)
  }

  function Reserved(row: Option<Counter>, tokens: nat): Counter {
    if row.None? then Counter(0, tokens, 0) else row.value.(reserved := row.value.reserved + tokens)
  }

  function Finalized(row: Option<Counter>, reserved: nat, used: nat, count: bool): Counter {
    var n := if count then 1 else 0;
    if row.None? then Counter(used, 0, n)
    else Counter(row.value.used + used, Max(row.value.reserved - reserved, 0), row.value.requests + n)
  }

  // ----- the table -----

  datatype Op =
    | Reserve(k: Key, tokens: int, limit: int)
    | Finalize(k: Key, reserved: nat, used: nat, count: bool)
    | Increment(k: Key, tokens: int)
    | Sweep(stale: set<Key>)
    | Migrate(user: string, start: int, newEnd: int)

  predicate InPeriod(k: Key, user: string, start: int) { k.user == user && k.start == start }

  /** The rows of a period that end elsewhere. */
  function OtherEnds(t: Table, user: string, start: int, newEnd: int): set<Key> {
    set k | k in t && InPeriod(k, user, start) && k.end != newEnd
  }

  datatype Field = Used | Requests

  function Get(c: Counter, f: Field): nat { if f == Used then c.used else c.requests }

  function FieldColumn(t: Table, keys: set<Key>, f: Field): map<Key, int> {
    map k | k in t && k in keys :: Get(t[k], f)
  }

  ghost function Migrated(t: Table, user: string, start: int, newEnd: int): Table {
    var others := OtherEnds(t, user, start, newEnd);
    var used, requests := SumMap(FieldColumn(t, others, Used)), SumMap(FieldColumn(t, others, Requests));
    var target := Key(user, start, newEnd);
    var row := Read(t, target);
    (if used > 0 || requests > 0
     then t[target := Counter(Max(row.used + used, 0), row.reserved, Max(row.requests + requests, 0))] else t) - others
  }

  ghost function Next(t: Table, op: Op): Table {
    match op
    case Reserve(k, tokens, limit) =>
      if tokens <= 0 || limit <= 0 || !CanReserve(Lookup(t, k), tokens, limit) then t
      else t[k := Reserved(Lookup(t, k), tokens)]
    case Finalize(k, reserved, used, count) =>
      if reserved <= 0 && used <= 0 && !count then t else t[k := Finalized(Lookup(t, k), reserved, used, count)]
    case Increment(k, tokens) =>
      if tokens <= 0 then t else t[k := Finalized(Lookup(t, k), 0, tokens, true)]
    case Sweep(stale) => map k | k in t :: if k in stale then t[k].(reserved := 0) else t[k]
    case Migrate(user, start, newEnd) => Migrated(t, user, start, newEnd)
  }

  ghost function Run(t: Table, ops: seq<Op>): Table
    decreases |ops|
  {
    if ops == [] then t else Run(Next(t, ops[0]), ops[1..])
  }

  // ----- conservation -----

  function PeriodColumn(t: Table, user: string, start: int, f: Field): map<Key, int> {
    map k | k in t && InPeriod(k, user, start) :: Get(t[k], f)
  }

  /** All that the rows of a period hold, whatever their ends. */
  ghost function Total(t: Table, user: string, start: int, f: Field): int {
    SumMap(PeriodColumn(t, user, start, f))
  }

  /** What one operation settles in a period. */
  function Settles(op: Op, user: string, start: int, f: Field): nat {
    match op
    case Finalize(k, _, used, count) =>
      if !InPeriod(k, user, start) then 0 else if f == Used then used else if count then 1 else 0
    case Increment(k, tokens) =>
      if !InPeriod(k, user, start) || tokens <= 0 then 0 else if f == Used then tokens else 1
    case Reserve(_, _, _) => 0
    case Sweep(_) => 0
    case Migrate(_, _, _) => 0
  }

  function SettlesIn(user: string, start: int, f: Field): Op -> int {
    (op: Op) => Settles(op, user, start, f)
  }

  lemma WriteMovesTotal(t: Table, k: Key, c: Counter, user: string, start: int, f: Field)
    ensures Total(t[k := c], user, start, f) ==
            Total(t, user, start, f) + if InPeriod(k, user, start) then Get(c, f) - Get(Read(t, k), f) else 0
  {
    var col, col' := PeriodColumn(t, user, start, f), PeriodColumn(t[k := c], user, start, f);
    if InPeriod(k, user, start) {
      assert col' == col[k := Get(c, f)];
      SumMapWrite(col, k, Get(c, f));
    } else {
      assert col' == col;
    }
  }

  /** Folding the other ends of a period into one moves their sum there. */
  lemma MigratedColumn(t: Table, user: string, start: int, newEnd: int, f: Field)
    ensures Total(Migrated(t, user, start, newEnd), user, start, f) == Total(t, user, start, f)
    ensures Get(Read(Migrated(t, user, start, newEnd), Key(user, start, newEnd)), f) == Total(t, user, start, f)
  {
    var others := OtherEnds(t, user, start, newEnd);
    var target := Key(user, start, newEnd);
    var t' := Migrated(t, user, start, newEnd);
    PeriodSplit(t, user, start, newEnd, f);
    MigratedTarget(t, user, start, newEnd, f);
    SingletonSum(PeriodColumn(t', user, start, f), target, Get(Read(t', target), f));
  }

  /** A period's sum is what its other ends hold and what the target holds. */
  lemma PeriodSplit(t: Table, user: string, start: int, newEnd: int, f: Field)
    ensures Total(t, user, start, f) ==
      SumMap(FieldColumn(t, OtherEnds(t, user, start, newEnd), f)) + Get(Read(t, Key(user, start, newEnd)), f)
  {
    var others := OtherEnds(t, user, start, newEnd);
    var target := Key(user, start, newEnd);
    var col := PeriodColumn(t, user, start, f);
    SumMapSplit(col, others);
    assert (map k | k in col && k in others :: col[k]) == FieldColumn(t, others, f);
    SingletonSum(col - others, target, Get(Read(t, target), f));
  }

  lemma MigratedTarget(t: Table, user: string, start: int, newEnd: int, f: Field)
    ensures Get(Read(Migrated(t, user, start, newEnd), Key(user, start, newEnd)), f) ==
      Get(Read(t, Key(user, start, newEnd)), f) + SumMap(FieldColumn(t, OtherEnds(t, user, start, newEnd), f))
  {
    var others := OtherEnds(t, user, start, newEnd);
    SumMapNonNeg(FieldColumn(t, others, Used));
    SumMapNonNeg(FieldColumn(t, others, Requests));
  }

  lemma SingletonSum(m: map<Key, int>, k: Key, v: int)
    requires m.Keys <= {k} && (if k in m then m[k] == v else v == 0)
    ensures SumMap(m) == v
  {
    if k in m {
      SumMapRemove(m, k);
      assert m - {k} == map[];
    } else {
      assert m == map[];
    }
  }

  lemma MigratedElsewhere(t: Table, u: string, s: int, newEnd: int, user: string, start: int, f: Field)
    requires u != user || s != start
    ensures Total(Migrated(t, u, s, newEnd), user, start, f) == Total(t, user, start, f)
  {
    assert PeriodColumn(Migrated(t, u, s, newEnd), user, start, f) == PeriodColumn(t, user, start, f);
  }

  lemma SweptColumn(t: Table, stale: set<Key>, user: string, start: int, f: Field)
    ensures Total(Next(t, Sweep(stale)), user, start, f) == Total(t, user, start, f)
  {
    assert PeriodColumn(Next(t, Sweep(stale)), user, start, f) == PeriodColumn(t, user, start, f);
  }

  lemma NextConserves(t: Table, op: Op, user: string, start: int, f: Field)
    ensures Total(Next(t, op), user, start, f) == Total(t, user, start, f) + Settles(op, user, start, f)
  {
    match op
    case Reserve(k, tokens, limit) =>
      if tokens > 0 {
        WriteMovesTotal(t, k, Reserved(Lookup(t, k), tokens), user, start, f);
      }
    case Finalize(k, reserved, used, count) =>
      WriteMovesTotal(t, k, Finalized(Lookup(t, k), reserved, used, count), user, start, f);
    case Increment(k, tokens) =>
      if tokens > 0 {
        WriteMovesTotal(t, k, Finalized(Lookup(t, k), 0, tokens, true), user, start, f);
      }
    case Sweep(stale) => SweptColumn(t, stale, user, start, f);
    case Migrate(u, s, newEnd) =>
      if u == user && s == start {
        MigratedColumn(t, user, start, newEnd, f);
      } else {
        MigratedElsewhere(t, u, s, newEnd, user, start, f);
      }
  }

  /** In every interleaving, also when a finalize lands on an end already folded away, the
      rows of a period hold exactly what was settled in it. */
  lemma {:induction false} RunConserves(t: Table, ops: seq<Op>, user: string, start: int, f: Field)
    ensures Total(Run(t, ops), user, start, f) ==
            Total(t, user, start, f) + SumSeq(ops, SettlesIn(user, start, f))
    decreases |ops|
  {
    if ops != [] {
      NextConserves(t, ops[0], user, start, f);
      RunConserves(Next(t, ops[0]), ops[1..], user, start, f);
    }
  }

  /** A migration leaves the period's rows only at the new end, and repeating it changes nothing. */
  lemma MigrationConsolidates(t: Table, user: string, start: int, newEnd: int)
    ensures var t' := Migrated(t, user, start, newEnd);
            && (forall k :: k in t' && InPeriod(k, user, start) ==> k.end == newEnd)
            && (forall k :: !InPeriod(k, user, start) ==> Lookup(t', k) == Lookup(t, k))
            && Migrated(t', user, start, newEnd) == t'
  {
    var t' := Migrated(t, user, start, newEnd);
    assert OtherEnds(t', user, start, newEnd) == {};
    assert FieldColumn(t', {}, Used) == map[] && FieldColumn(t', {}, Requests) == map[];
  }

  /** So after an extension the live counter shows everything ever settled in the period. */
  lemma MigrationCarriesEverything(ops: seq<Op>, user: string, start: int, newEnd: int)
    ensures var live := Read(Migrated(Run(map[], ops), user, start, newEnd), Key(user, start, newEnd));
            && live.used == SumSeq(ops, SettlesIn(user, start, Used))
            && live.requests == SumSeq(ops, SettlesIn(user, start, Requests))
  {
    forall f: Field ensures Total(Run(map[], ops), user, start, f) == SumSeq(ops, SettlesIn(user, start, f)) {
      RunConserves(map[], ops, user, start, f);
      assert PeriodColumn(map[], user, start, f) == map[];
    }
    MigratedColumn(Run(map[], ops), user, start, newEnd, Used);
    MigratedColumn(Run(map[], ops), user, start, newEnd, Requests);
  }

  // ----- the limit, for one key without sweeps or migrations -----

  /** `open` holds the reservations in flight, `overshoot` what settlements used beyond them. */
  datatype Metered = Metered(row: Option<Counter>, open: map<nat, int>, overshoot: int)

  datatype Call =
    | Ask(id: nat, tokens: int)
    | Settle(id: nat, used: nat, count: bool)

  function Called(s: Metered, c: Call, limit: int): Metered {
    match c
    case Ask(id, tokens) =>
      if id in s.open || tokens <= 0 || limit <= 0 || !CanReserve(s.row, tokens, limit) then s
      else s.(row := Some(Reserved(s.row, tokens)), open := s.open[id := tokens])
    case Settle(id, used, count) =>
      var held := if id in s.open then Max(s.open[id], 0) else 0;
      if held <= 0 && used <= 0 && !count then s
      else Metered(Some(Finalized(s.row, held, used, count)), s.open - {id}, s.overshoot + Max(used - held, 0))
  }

  function Calls(s: Metered, calls: seq<Call>, limit: int): Metered
    decreases |calls|
  {
    if calls == [] then s else Calls(Called(s, calls[0], limit), calls[1..], limit)
  }

  ghost predicate Within(s: Metered, limit: int) {
    && (forall id :: id in s.open ==> s.open[id] > 0)
    && s.overshoot >= 0
    && (s.row.None? ==> s.open == map[])
    && (s.row.Some? ==> s.row.value.reserved == SumMap(s.open)
                        && s.row.value.used + s.row.value.reserved <= limit + s.overshoot)
  }

  lemma CallKeepsWithin(s: Metered, c: Call, limit: nat)
    requires Within(s, limit)
    ensures Within(Called(s, c, limit), limit)
  {
    match c
    case Ask(id, tokens) =>
      SumMapWrite(s.open, id, tokens);
      assert SumMap<nat>(map[]) == 0;
    case Settle(id, used, count) =>
      SumMapDelete(s.open, id);
      SumMapNonNeg(s.open - {id});
      assert s.open == map[] ==> s.open - {id} == map[];
      assert SumMap<nat>(map[]) == 0;
  }

  /** Used plus reserved tokens exceed the limit by no more than the settlements overshot. */
  lemma {:induction false} CallsStayWithin(s: Metered, calls: seq<Call>, limit: nat)
    requires Within(s, limit)
    ensures Within(Calls(s, calls, limit), limit)
    decreases |calls|
  {
    if calls != [] {
      CallKeepsWithin(s, calls[0], limit);
      CallsStayWithin(Called(s, calls[0], limit), calls[1..], limit);
    }
  }

  // ----- what a migration does to reservations -----

  function HeldColumn(t: Table, keys: set<Key>): map<Key, int> { map k | k in t && k in keys :: t[k].reserved }

  function PeriodKeys(t: Table, user: string, start: int): set<Key> { set k | k in t && InPeriod(k, user, start) }

  /** What the rows of a period hold back. */
  ghost function HeldTotal(t: Table, user: string, start: int): int {
    SumMap(HeldColumn(t, PeriodKeys(t, user, start)))
  }

  /** A migration drops exactly the reservations of the other ends. */
  lemma MigrationDropsOthers(t: Table, user: string, start: int, newEnd: int)
    ensures HeldTotal(Migrated(t, user, start, newEnd), user, start)
         == HeldTotal(t, user, start) - SumMap(HeldColumn(t, OtherEnds(t, user, start, newEnd)))
  {
    var others, target := OtherEnds(t, user, start, newEnd), Key(user, start, newEnd);
    var col := HeldColumn(t, PeriodKeys(t, user, start));
    var t' := Migrated(t, user, start, newEnd);
    SumMapSplit(col, others);
    assert (map k | k in col && k in others :: col[k]) == HeldColumn(t, others);
    SingletonSum(col - others, target, Read(t, target).reserved);
    SingletonSum(HeldColumn(t', PeriodKeys(t', user, start)), target, Read(t', target).reserved);
  }

  /** So it keeps them if and only if no other end holds one. */
  lemma MigrationKeepsReservationsIff(t: Table, user: string, start: int, newEnd: int)
    ensures HeldTotal(Migrated(t, user, start, newEnd), user, start) == HeldTotal(t, user, start) <==>
            forall k :: k in OtherEnds(t, user, start, newEnd) ==> t[k].reserved == 0
  {
    var others := OtherEnds(t, user, start, newEnd);
    MigrationDropsOthers(t, user, start, newEnd);
    SumMapNonNeg(HeldColumn(t, others));
    assert forall k :: k in HeldColumn(t, others) <==> k in others;
  }

  /** With a migration in between the bound is lost: the fold drops the old end's reservation,
      and two requests of 100 both pass a limit of 100 without either overshooting. */
  lemma MigrationForgetsReservations()
    ensures var a, b := Key("u", 0, 1), Key("u", 0, 2);
            var ops := [Reserve(a, 100, 100), Migrate("u", 0, 2), Reserve(b, 100, 100)];
            Read(Run(map[], ops), b).reserved == 100 &&
            Read(Migrated(Run(map[], ops + [Finalize(a, 100, 100, true), Finalize(b, 100, 100, true)]), "u", 0, 2), b).used == 200
  {
    var a, b := Key("u", 0, 1), Key("u", 0, 2);
    var ops := [Reserve(a, 100, 100), Migrate("u", 0, 2), Reserve(b, 100, 100)];
    var t1 := Next(map[], ops[0]);
    assert t1 == map[a := Counter(0, 100, 0)];
    var t2 := Next(t1, ops[1]);
    assert t2 == map[] by {
      assert OtherEnds(t1, "u", 0, 2) == {a};
      SingletonSum(FieldColumn(t1, {a}, Used), a, 0);
      SingletonSum(FieldColumn(t1, {a}, Requests), a, 0);
    }
    assert ops[1..] == [ops[1], ops[2]] && ops[1..][1..] == [ops[2]];
    assert Run(t2, [ops[2]]) == Next(t2, ops[2]);
    assert Run(t1, ops[1..]) == Run(t2, [ops[2]]);
    var w := SettlesIn("u", 0, Used);
    var fa, fb := Finalize(a, 100, 100, true), Finalize(b, 100, 100, true);
    SumSeqSnoc(ops + [fa], fb, w);
    SumSeqSnoc(ops, fa, w);
    SumSeqNonNeg(ops, w);
    assert ops + [fa] + [fb] == ops + [fa, fb];
    MigrationCarriesEverything(ops + [fa, fb], "u", 0, 2);
  }

  // ----- the store -----

  method SumColumn(t: Table, keys: set<Key>, f: Field) returns (n: nat)
    ensures n == SumMap(FieldColumn(t, keys, f))
    ensures n > 0 ==> keys != {}
  {
    n := 0;
    var rest := keys;
    while rest != {}
      invariant rest <= keys
      invariant n + SumMap(FieldColumn(t, rest, f)) == SumMap(FieldColumn(t, keys, f))
      invariant n > 0 ==> keys != {}
      decreases |rest|
    {
      var k :| k in rest;
      SumMapDelete(FieldColumn(t, rest, f), k);
      assert FieldColumn(t, rest, f) - {k} == FieldColumn(t, rest - {k}, f);
      n, rest := n + (if k in t then Get(t[k], f) else 0), rest - {k};
    }
    assert FieldColumn(t, {}, f) == map[];
  }

  class QuotaStore {
    var rows: Table

    method ReserveTokens(k: Key, tokens: int, limit: int) returns (error: Option<Error>)
      modifies this
      ensures rows == Next(old(rows), Reserve(k, tokens, limit))
      ensures error == None <==> tokens <= 0 || limit <= 0 || CanReserve(Lookup(old(rows), k), tokens, limit)
    {
      if tokens <= 0 || limit <= 0 {
        return None;
      }
      if tokens > limit {
        return Some(QuotaExceeded);
      }
      if k !in rows {
        rows := rows[k := Counter(0, tokens, 0)];
      } else if rows[k].used + rows[k].reserved + tokens <= limit {
        rows := rows[k := rows[k].(reserved := rows[k].reserved + tokens)];
      } else {
        return Some(QuotaExceeded);
      }
      return None;
    }

    method FinalizeTokens(k: Key, reserved: nat, used: nat, count: bool)
      modifies this
      ensures rows == Next(old(rows), Finalize(k, reserved, used, count))
    {
      if reserved <= 0 && used <= 0 && !count {
        return;
      }
      var n := if count then 1 else 0;
      if k !in rows {
        rows := rows[k := Counter(used, 0, n)];
      } else {
        var row := rows[k];
        rows := rows[k := Counter(row.used + used, Max(row.reserved - reserved, 0), row.requests + n)];
      }
    }

    /** After an entitlement is saved: an active one with a token quota and both dates carries the
        period's usage to its end; no other row moves anything. */
    method CarryQuotaCounterOnExtension(status: string, user: string, start: Option<int>, end: Option<int>, quota: Option<int>)
      modifies this
      ensures rows == if status == "active" && user != "" && start.Some? && end.Some? && quota.Some?
                      then Next(old(rows), Migrate(user, start.value, end.value)) else old(rows)
    {
      if status != "active" || user == "" || start.None? || end.None? || quota.None? {
        return;
      }
      var _ := MigratePeriodEnd(user, start.value, end.value);
    }

    /** Upserts the summed totals of the other ends onto the target, then deletes them. */
    method MigratePeriodEnd(user: string, start: int, newEnd: int) returns (moved: bool)
      modifies this
      ensures rows == Next(old(rows), Migrate(user, start, newEnd))
      ensures moved <==> exists k :: k in OtherEnds(old(rows), user, start, newEnd)
                                     && (old(rows)[k].used > 0 || old(rows)[k].requests > 0)
    {
      var others := OtherEnds(rows, user, start, newEnd);
      var used := SumColumn(rows, others, Used);
      var requests := SumColumn(rows, others, Requests);
      moved := used > 0 || requests > 0;
      SumMapNonNeg(FieldColumn(rows, others, Used));
      SumMapNonNeg(FieldColumn(rows, others, Requests));
      assert forall k :: k in others ==> FieldColumn(rows, others, Used)[k] == rows[k].used
                                         && FieldColumn(rows, others, Requests)[k] == rows[k].requests;
      if moved {
        var target := Key(user, start, newEnd);
        var row := Read(rows, target);
        rows := rows[target := Counter(row.used + used, row.reserved, row.requests + requests)];
      }
      rows := rows - others;
    }
  }
}
