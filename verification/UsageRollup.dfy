/** The usage ledger, its daily rollup with pruning, and the dashboards that read both.

    One transition is one SQL transaction.  `history` and `pruned` belong to the
    specification: the ledger as it would be had nothing ever been deleted, and the
    days whose raw rows have been deleted. */
module UsageRollup {
  import opened Sums

  const SECONDS_PER_DAY := 86_400
  const DEFAULT_RETENTION_DAYS := 7

  // ----- rows -----

  /** One request: `cost` counts millionths of a dollar, `credits` ten-thousandths of a credit. */
  datatype Entry = Entry(
    at: int, user: string, model: string, status: string,
    billingMode: Option<string>, pricingGroup: Option<string>,
    routerModel: Option<string>, errorCode: Option<string>,
    input: int, output: int, total: int, cost: int, credits: Option<int>)

  /** The primary key of a rollup row. */
  datatype Key = Key(
    day: int, user: string, model: string, billingMode: string, status: string,
    pricingGroup: string, routerPrefix: string, errorCode: string)

  datatype Measures = Measures(requests: int, input: int, output: int, total: int, cost: int, credits: int)

  datatype Metric = Requests | InputTokens | OutputTokens | TotalTokens | Cost | Credits

  /** The UTC day of an instant; division by a positive constant rounds down. */
  function DayOf(at: int): int { at / SECONDS_PER_DAY }

  function Coalesce(s: Option<string>, default: string): string {
    if s.Some? then s.value else default
  }

  /** The text before the first slash. */
  function FirstPart(s: string): string {
    if s == "" || s[0] == '/' then "" else [s[0]] + FirstPart(s[1..])
  }

  function OrUnknown(s: string): string { if s == "" then "unknown" else s }

  function RouterPrefix(e: Entry): string { OrUnknown(FirstPart(Coalesce(e.routerModel, ""))) }

  function KeyOf(e: Entry): Key {
    Key(DayOf(e.at), e.user, e.model, Coalesce(e.billingMode, ""), e.status,
        Coalesce(e.pricingGroup, ""), RouterPrefix(e), Coalesce(e.errorCode, ""))
  }

  function Weight(e: Entry, metric: Metric): int {
    match metric
    case Requests => 1
    case InputTokens => e.input
    case OutputTokens => e.output
    case TotalTokens => e.total
    case Cost => e.cost
    case Credits => if e.credits.Some? then e.credits.value else 0
  }

  function Get(m: Measures, metric: Metric): int {
    match metric
    case Requests => m.requests
    case InputTokens => m.input
    case OutputTokens => m.output
    case TotalTokens => m.total
    case Cost => m.cost
    case Credits => m.credits
  }

  // ----- one day's transaction -----

  function InKey(k: Key, metric: Metric): Entry -> int {
    (e: Entry) => if KeyOf(e) == k then Weight(e, metric) else 0
  }

  function Aggregate(rows: seq<Entry>, k: Key): Measures {
    Measures(SumSeq(rows, InKey(k, Requests)), SumSeq(rows, InKey(k, InputTokens)),
             SumSeq(rows, InKey(k, OutputTokens)), SumSeq(rows, InKey(k, TotalTokens)),
             SumSeq(rows, InKey(k, Cost)), SumSeq(rows, InKey(k, Credits)))
  }

  function KeysOn(rows: seq<Entry>, day: int): set<Key> {
    set e | e in rows && DayOf(e.at) == day :: KeyOf(e)
  }

  function GroupBy(rows: seq<Entry>, day: int): map<Key, Measures> {
    map k | k in KeysOn(rows, day) :: Aggregate(rows, k)
  }

  /** The rows whose day is not in `gone`. */
  function Keep(rows: seq<Entry>, gone: set<int>): (kept: seq<Entry>)
    ensures forall e :: e in kept <==> e in rows && DayOf(e.at) !in gone
    ensures |kept| <= |rows|
  {
    if rows == [] then [] else
      assert forall e :: e in rows <==> e == rows[0] || e in rows[1..];
      if DayOf(rows[0].at) in gone then Keep(rows[1..], gone) else [rows[0]] + Keep(rows[1..], gone)
  }

  datatype Tables = Tables(ledger: seq<Entry>, rollup: map<Key, Measures>)

  /** Upsert the day's groups, overwriting, then delete its raw rows unless this is a dry run. */
  function RolledDay(t: Tables, day: int, dry: bool): Tables {
    Tables(if dry then t.ledger else Keep(t.ledger, {day}), t.rollup + GroupBy(t.ledger, day))
  }

  function InsertDay(d: int, days: seq<int>): (r: seq<int>)
    requires Ascending(days)
    ensures Ascending(r)
    ensures forall x :: x in r <==> x == d || x in days
  {
    if days == [] || d < days[0] then [d] + days
    else if d == days[0] then days
    else
      AscendingTail(days);
      var rest := InsertDay(d, days[1..]);
      AscendingCons(days[0], rest);
      [days[0]] + rest
  }

  lemma AscendingTail(days: seq<int>)
    requires Ascending(days) && days != []
    ensures Ascending(days[1..]) && forall x :: x in days[1..] ==> days[0] < x
    ensures forall x :: x in days <==> x == days[0] || x in days[1..]
  {
    assert forall j :: 0 < j < |days| ==> days[0] < days[j];
  }

  lemma AscendingCons(day: int, rest: seq<int>)
    requires Ascending(rest) && forall x :: x in rest ==> day < x
    ensures Ascending([day] + rest)
  {
    assert forall j :: 0 <= j < |rest| ==> rest[j] in rest;
  }

  predicate Ascending(days: seq<int>) { forall i, j :: 0 <= i < j < |days| ==> days[i] < days[j] }

  /** The distinct days with raw rows older than the cutoff, oldest first. */
  function EligibleDays(rows: seq<Entry>, cutoff: int): (days: seq<int>)
    ensures Ascending(days)
    ensures forall d :: d in days <==> d < cutoff && exists e :: e in rows && DayOf(e.at) == d
  {
    if rows == [] then [] else
      assert forall e :: e in rows <==> e == rows[0] || e in rows[1..];
      var rest := EligibleDays(rows[1..], cutoff);
      if DayOf(rows[0].at) < cutoff then InsertDay(DayOf(rows[0].at), rest) else rest
  }

  function EffectiveRetention(days: int): int { if days <= 0 then DEFAULT_RETENTION_DAYS else days }

  // ----- the transition system -----

  /** A rollup run in progress: the days it has yet to process. */
  datatype RunState = RunState(dry: bool, days: seq<int>)

  datatype State = State(
    tables: Tables, today: int, runs: seq<RunState>, history: seq<Entry>, pruned: set<int>)

  datatype Action =
    | Append(e: Entry)
    | Advance(days: nat)
    | StartRun(retention: int, dry: bool)
    | ProcessDay(run: nat)
    | StopRun(run: nat)

  function Init(today: int): State { State(Tables([], map[]), today, [], [], {}) }

  /** A request is recorded when it ends, at most minutes after it started, so its day is
      today or yesterday.  Any number of runs overlap; each takes its days in order, and an
      error or a crash ends it between two transactions.  A disabled action changes nothing. */
  function Next(s: State, a: Action): State {
    match a
    case Append(e) =>
      if DayOf(e.at) < s.today - 1 then s
      else s.(tables := s.tables.(ledger := s.tables.ledger + [e]), history := s.history + [e])
    case Advance(days) => s.(today := s.today + days)
    case StartRun(retention, dry) =>
      s.(runs := s.runs + [RunState(dry, EligibleDays(s.tables.ledger, s.today - EffectiveRetention(retention)))])
    case ProcessDay(i) =>
      if i >= |s.runs| || s.runs[i].days == [] then s
      else
        var r := s.runs[i];
        s.(tables := RolledDay(s.tables, r.days[0], r.dry),
           runs := s.runs[i := r.(days := r.days[1..])],
           pruned := if r.dry then s.pruned else s.pruned + {r.days[0]})
    case StopRun(i) =>
      if i >= |s.runs| then s else s.(runs := s.runs[i := s.runs[i].(days := [])])
  }

  function Run(s: State, actions: seq<Action>): State
    decreases |actions|
  {
    if actions == [] then s else Run(Next(s, actions[0]), actions[1..])
  }

  // ----- the dashboards -----

  datatype Floor = Infinity | Day(day: int)

  function FloorDay(rows: seq<Entry>): (f: Floor)
    ensures forall d :: Below(d, f) <==> forall e :: e in rows ==> d < DayOf(e.at)
  {
    if rows == [] then Infinity else
      assert forall e :: e in rows <==> e == rows[0] || e in rows[1..];
      var rest := FloorDay(rows[1..]);
      var d := DayOf(rows[0].at);
      assert Below(d - 1, rest) <==> forall e :: e in rows[1..] ==> d - 1 < DayOf(e.at);
      if Below(d, rest) then Day(d) else rest
  }

  predicate Below(d: int, f: Floor) { f.Infinity? || d < f.day }

  function RawWeight(metric: Metric, sel: Key -> bool, since: Option<int>): Entry -> int {
    (e: Entry) => if (since.None? || e.at >= since.value) && sel(KeyOf(e)) then Weight(e, metric) else 0
  }

  /** The rollup rows a dashboard adds: older than every raw row, and not before the day of `since`. */
  function RollupColumn(t: Tables, metric: Metric, sel: Key -> bool, since: Option<int>): map<Key, int> {
    map k | k in t.rollup && Below(k.day, FloorDay(t.ledger)) && sel(k)
            && (since.None? || k.day >= DayOf(since.value)) :: Get(t.rollup[k], metric)
  }

  /** What a dashboard shows for the group `sel`. */
  ghost function Shown(t: Tables, metric: Metric, sel: Key -> bool, since: Option<int>): int {
    SumSeq(t.ledger, RawWeight(metric, sel, since)) + SumMap(RollupColumn(t, metric, sel, since))
  }

  /** What it should show: the same group over the ledger that was never pruned. */
  function Expected(s: State, metric: Metric, sel: Key -> bool, since: Option<int>): int {
    SumSeq(s.history, RawWeight(metric, sel, since))
  }

  // ----- the invariant -----

  ghost predicate RunOk(s: State, r: RunState) {
    && Ascending(r.days)
    && (forall d :: d in r.days ==> d < s.today - 1)
    && (!r.dry && r.days != [] ==>
          forall e :: e in s.tables.ledger && DayOf(e.at) <= r.days[|r.days| - 1] ==> DayOf(e.at) in r.days)
  }

  ghost predicate PrunedOk(s: State) {
    && s.tables.ledger == Keep(s.history, s.pruned)
    && (forall d, e :: d in s.pruned && e in s.tables.ledger ==> d < DayOf(e.at))
    && (forall d :: d in s.pruned ==> d < s.today - 1)
  }

  ghost predicate RollupOk(s: State) {
    && (forall k :: k in s.tables.rollup ==> k in KeysOn(s.history, k.day))
    && (forall e :: e in s.history && DayOf(e.at) in s.pruned ==> KeyOf(e) in s.tables.rollup)
    && (forall k :: k in s.tables.rollup && k.day in s.pruned ==> s.tables.rollup[k] == Aggregate(s.history, k))
  }

  ghost predicate Inv(s: State) {
    PrunedOk(s) && RollupOk(s) && forall i :: 0 <= i < |s.runs| ==> RunOk(s, s.runs[i])
  }

  lemma {:induction false} KeepKeep(rows: seq<Entry>, p: set<int>, q: set<int>)
    ensures Keep(Keep(rows, p), q) == Keep(rows, p + q)
  {
    if rows != [] {
      KeepKeep(rows[1..], p, q);
      var rest := Keep(rows[1..], p);
      if DayOf(rows[0].at) !in p {
        assert ([rows[0]] + rest)[1..] == rest;
      }
    }
  }

  lemma {:induction false} KeepSnoc(rows: seq<Entry>, e: Entry, p: set<int>)
    requires DayOf(e.at) !in p
    ensures Keep(rows + [e], p) == Keep(rows, p) + [e]
  {
    if rows == [] {
      assert ([] + [e])[1..] == [];
    } else {
      assert (rows + [e])[1..] == rows[1..] + [e];
      KeepSnoc(rows[1..], e, p);
    }
  }

  /** Deleting days leaves the sum of any weight that ignores those days. */
  lemma {:induction false} KeepSum(rows: seq<Entry>, p: set<int>, v: Entry -> int, w: Entry -> int)
    requires forall e :: e in rows ==> w(e) == if DayOf(e.at) in p then 0 else v(e)
    ensures SumSeq(Keep(rows, p), v) == SumSeq(rows, w)
  {
    if rows != [] {
      KeepSum(rows[1..], p, v, w);
      var rest := Keep(rows[1..], p);
      if DayOf(rows[0].at) !in p {
        assert ([rows[0]] + rest)[1..] == rest;
      }
    }
  }

  lemma AggregateKeep(rows: seq<Entry>, p: set<int>, k: Key)
    requires k.day !in p
    ensures Aggregate(Keep(rows, p), k) == Aggregate(rows, k)
  {
    forall metric: Metric ensures SumSeq(Keep(rows, p), InKey(k, metric)) == SumSeq(rows, InKey(k, metric)) {
      KeepSum(rows, p, InKey(k, metric), InKey(k, metric));
    }
  }

  lemma AggregateSnoc(rows: seq<Entry>, e: Entry, k: Key)
    requires KeyOf(e) != k
    ensures Aggregate(rows + [e], k) == Aggregate(rows, k)
  {
    forall metric: Metric ensures SumSeq(rows + [e], InKey(k, metric)) == SumSeq(rows, InKey(k, metric)) {
      SumSeqSnoc(rows, e, InKey(k, metric));
    }
  }

  lemma AppendKeepsInv(s: State, e: Entry)
    requires Inv(s)
    ensures Inv(Next(s, Append(e)))
  {
    if DayOf(e.at) >= s.today - 1 {
      var s' := Next(s, Append(e));
      KeepSnoc(s.history, e, s.pruned);
      forall k | k in s.tables.rollup
        ensures k in KeysOn(s'.history, k.day)
        ensures k.day in s.pruned ==> s.tables.rollup[k] == Aggregate(s'.history, k)
      {
        var x :| x in s.history && DayOf(x.at) == k.day && KeyOf(x) == k;
        assert x in s'.history;
        if k.day in s.pruned {
          AggregateSnoc(s.history, e, k);
        }
      }
      forall i | 0 <= i < |s.runs| ensures RunOk(s', s.runs[i]) {
        LastIsOld(s, s.runs[i]);
      }
    }
  }

  lemma LastIsOld(s: State, r: RunState)
    requires RunOk(s, r)
    ensures r.days != [] ==> r.days[|r.days| - 1] < s.today - 1
  {
    if r.days != [] {
      assert r.days[|r.days| - 1] in r.days;
    }
  }

  lemma StartKeepsInv(s: State, retention: int, dry: bool)
    requires Inv(s)
    ensures Inv(Next(s, StartRun(retention, dry)))
  {
    var s' := Next(s, StartRun(retention, dry));
    forall i | 0 <= i < |s'.runs| ensures RunOk(s', s'.runs[i]) {
      if i < |s.runs| {
        RunStaysOk(s, s', s.runs[i]);
      } else {
        NewRunOk(s', retention, dry);
      }
    }
  }

  lemma RunStaysOk(s: State, s': State, r: RunState)
    requires RunOk(s, r) && s'.tables == s.tables && s'.today == s.today
    ensures RunOk(s', r)
  {
  }

  lemma NewRunOk(s: State, retention: int, dry: bool)
    ensures RunOk(s, RunState(dry, EligibleDays(s.tables.ledger, s.today - EffectiveRetention(retention))))
  {
    var days := EligibleDays(s.tables.ledger, s.today - EffectiveRetention(retention));
    if days != [] {
      assert days[|days| - 1] in days;
    }
  }

  /** The day a run is about to process, and what its groups hold. */
  lemma DayGroups(s: State, day: int)
    requires Inv(s)
    ensures forall k :: k in GroupBy(s.tables.ledger, day) ==>
      k.day == day && k in KeysOn(s.history, day) && day !in s.pruned
      && GroupBy(s.tables.ledger, day)[k] == Aggregate(s.history, k)
    ensures day !in s.pruned ==>
      forall e :: e in s.history && DayOf(e.at) == day ==> KeyOf(e) in GroupBy(s.tables.ledger, day)
  {
    var groups := GroupBy(s.tables.ledger, day);
    forall k | k in groups
      ensures k.day == day && k in KeysOn(s.history, day) && day !in s.pruned && groups[k] == Aggregate(s.history, k)
    {
      var x :| x in s.tables.ledger && DayOf(x.at) == day && KeyOf(x) == k;
      assert x in s.history && day !in s.pruned;
      AggregateKeep(s.history, s.pruned, k);
    }
    if day !in s.pruned {
      forall e | e in s.history && DayOf(e.at) == day ensures KeyOf(e) in groups {
        assert e in s.tables.ledger;
      }
    }
  }

  /** Oldest first: every other raw row is newer than the day being deleted. */
  lemma OldestFirst(s: State, r: RunState, e: Entry)
    requires RunOk(s, r) && r.days != [] && !r.dry
    requires e in s.tables.ledger && DayOf(e.at) != r.days[0]
    ensures r.days[0] < DayOf(e.at)
  {
    if DayOf(e.at) <= r.days[|r.days| - 1] {
      var j :| 0 <= j < |r.days| && r.days[j] == DayOf(e.at);
    }
  }

  lemma ProcessKeepsPruned(s: State, r: RunState)
    requires PrunedOk(s) && RunOk(s, r) && r.days != [] && !r.dry
    ensures PrunedOk(s.(tables := RolledDay(s.tables, r.days[0], false), pruned := s.pruned + {r.days[0]}))
  {
    KeepKeep(s.history, s.pruned, {r.days[0]});
    assert r.days[0] in r.days;
    forall e | e in Keep(s.tables.ledger, {r.days[0]}) ensures r.days[0] < DayOf(e.at) {
      OldestFirst(s, r, e);
    }
  }

  lemma ProcessKeepsRollup(s: State, i: nat)
    requires Inv(s) && i < |s.runs| && s.runs[i].days != []
    ensures RollupOk(Next(s, ProcessDay(i)))
  {
    var day := s.runs[i].days[0];
    var s' := Next(s, ProcessDay(i));
    var groups := GroupBy(s.tables.ledger, day);
    DayGroups(s, day);
    assert s'.tables.rollup == s.tables.rollup + groups;
    forall k | k in s'.tables.rollup
      ensures k in KeysOn(s.history, k.day)
      ensures k.day in s'.pruned ==> s'.tables.rollup[k] == Aggregate(s.history, k)
    {
    }
  }

  lemma ProcessKeepsRuns(s: State, i: nat)
    requires Inv(s) && i < |s.runs| && s.runs[i].days != []
    ensures forall j :: 0 <= j < |s.runs| ==> RunOk(Next(s, ProcessDay(i)), Next(s, ProcessDay(i)).runs[j])
  {
    forall j | 0 <= j < |s.runs| ensures RunOk(Next(s, ProcessDay(i)), Next(s, ProcessDay(i)).runs[j]) {
      assert RunOk(s, s.runs[j]);
      if j == i {
        ProcessedRunOk(s, i);
      }
    }
  }

  lemma ProcessedRunOk(s: State, i: nat)
    requires Inv(s) && i < |s.runs| && s.runs[i].days != []
    ensures RunOk(Next(s, ProcessDay(i)), Next(s, ProcessDay(i)).runs[i])
  {
    var r, s' := s.runs[i], Next(s, ProcessDay(i));
    assert RunOk(s, r);
    var days := r.days[1..];
    assert s'.runs[i].days == days;
    assert forall d :: d in days ==> d in r.days;
    if days != [] && !r.dry {
      forall e | e in s'.tables.ledger && DayOf(e.at) <= days[|days| - 1] ensures DayOf(e.at) in days {
        var n :| 0 <= n < |r.days| && r.days[n] == DayOf(e.at);
        assert n > 0 && days[n - 1] == DayOf(e.at);
      }
    }
  }

  lemma NextKeepsInv(s: State, a: Action)
    requires Inv(s)
    ensures Inv(Next(s, a))
  {
    match a
    case Append(e) => AppendKeepsInv(s, e);
    case Advance(days) =>
      forall i | 0 <= i < |s.runs| ensures RunOk(Next(s, a), s.runs[i]) { assert RunOk(s, s.runs[i]); }
    case StartRun(retention, dry) => StartKeepsInv(s, retention, dry);
    case ProcessDay(i) =>
      if i < |s.runs| && s.runs[i].days != [] {
        assert RunOk(s, s.runs[i]);
        if !s.runs[i].dry {
          ProcessKeepsPruned(s, s.runs[i]);
        }
        ProcessKeepsRollup(s, i);
        ProcessKeepsRuns(s, i);
      }
    case StopRun(i) =>
      if i < |s.runs| {
        var s' := Next(s, a);
        forall j | 0 <= j < |s.runs| ensures RunOk(s', s'.runs[j]) { assert RunOk(s, s.runs[j]); }
      }
  }

  lemma {:induction false} RunKeepsInv(s: State, actions: seq<Action>)
    requires Inv(s)
    ensures Inv(Run(s, actions))
    decreases |actions|
  {
    if actions != [] {
      NextKeepsInv(s, actions[0]);
      RunKeepsInv(Next(s, actions[0]), actions[1..]);
    }
  }

  // ----- the dashboards agree with the ledger that was never pruned -----

  function OnKey(w: Entry -> int, k: Key): Entry -> int {
    (e: Entry) => if KeyOf(e) == k then w(e) else 0
  }

  /** Summing the groups is summing the rows. */
  lemma {:induction false} GroupsSumToRows(m: map<Key, int>, rows: seq<Entry>, w: Entry -> int)
    requires forall k :: k in m ==> m[k] == SumSeq(rows, OnKey(w, k))
    requires forall e :: e in rows && w(e) != 0 ==> KeyOf(e) in m
    ensures SumMap(m) == SumSeq(rows, w)
    decreases |m|
  {
    if m == map[] {
      SumSeqNonNeg(rows, w);
    } else {
      var k :| k in m;
      var w' := (e: Entry) => if KeyOf(e) == k then 0 else w(e);
      SumMapRemove(m, k);
      forall j | j in m - {k} ensures (m - {k})[j] == SumSeq(rows, OnKey(w', j)) {
        SumSeqSame(rows, OnKey(w, j), OnKey(w', j));
      }
      GroupsSumToRows(m - {k}, rows, w');
      SumSeqAdd(rows, OnKey(w, k), w', w);
    }
  }

  /** With a `since` inside a pruned day the rollup can only contribute the whole day. */
  function ShownWeight(s: State, metric: Metric, sel: Key -> bool, since: Option<int>): Entry -> int {
    (e: Entry) =>
      if sel(KeyOf(e)) && (since.None? || e.at >= since.value ||
                           (DayOf(e.at) in s.pruned && DayOf(e.at) >= DayOf(since.value)))
      then Weight(e, metric) else 0
  }

  function PrunedWeight(s: State, metric: Metric, sel: Key -> bool, since: Option<int>): Entry -> int {
    (e: Entry) =>
      if DayOf(e.at) in s.pruned && sel(KeyOf(e)) && (since.None? || DayOf(e.at) >= DayOf(since.value))
      then Weight(e, metric) else 0
  }

  /** The data-driven floor separates pruned days from the rest. */
  lemma FloorSeparates(s: State, k: Key)
    requires Inv(s) && k in s.tables.rollup
    ensures Below(k.day, FloorDay(s.tables.ledger)) <==> k.day in s.pruned
  {
    var e :| e in s.history && DayOf(e.at) == k.day && KeyOf(e) == k;
    if k.day !in s.pruned {
      assert e in s.tables.ledger;
    }
  }

  lemma RollupSide(s: State, metric: Metric, sel: Key -> bool, since: Option<int>)
    requires Inv(s)
    ensures SumMap(RollupColumn(s.tables, metric, sel, since)) == SumSeq(s.history, PrunedWeight(s, metric, sel, since))
  {
    var m := RollupColumn(s.tables, metric, sel, since);
    var w := PrunedWeight(s, metric, sel, since);
    forall k | k in m ensures m[k] == SumSeq(s.history, OnKey(w, k)) {
      RollupCell(s, metric, sel, since, k);
    }
    forall e | e in s.history && w(e) != 0 ensures KeyOf(e) in m {
      FloorSeparates(s, KeyOf(e));
    }
    GroupsSumToRows(m, s.history, w);
  }

  lemma CellWeight(s: State, metric: Metric, sel: Key -> bool, since: Option<int>, k: Key, e: Entry)
    requires k.day in s.pruned && sel(k) && (since.None? || k.day >= DayOf(since.value))
    ensures InKey(k, metric)(e) == OnKey(PrunedWeight(s, metric, sel, since), k)(e)
  {
  }

  lemma AggregateGet(rows: seq<Entry>, k: Key, metric: Metric)
    ensures Get(Aggregate(rows, k), metric) == SumSeq(rows, InKey(k, metric))
  {
  }

  lemma RollupCell(s: State, metric: Metric, sel: Key -> bool, since: Option<int>, k: Key)
    requires Inv(s)
    ensures k in RollupColumn(s.tables, metric, sel, since) ==>
      RollupColumn(s.tables, metric, sel, since)[k] == SumSeq(s.history, OnKey(PrunedWeight(s, metric, sel, since), k))
  {
    if k in RollupColumn(s.tables, metric, sel, since) {
      FloorSeparates(s, k);
      AggregateGet(s.history, k, metric);
      forall e | e in s.history ensures InKey(k, metric)(e) == OnKey(PrunedWeight(s, metric, sel, since), k)(e) {
        CellWeight(s, metric, sel, since, k, e);
      }
      SumSeqSame(s.history, InKey(k, metric), OnKey(PrunedWeight(s, metric, sel, since), k));
    }
  }

  lemma ShownIs(s: State, metric: Metric, sel: Key -> bool, since: Option<int>)
    requires Inv(s)
    ensures Shown(s.tables, metric, sel, since) == SumSeq(s.history, ShownWeight(s, metric, sel, since))
  {
    var raw := RawWeight(metric, sel, since);
    var live := (e: Entry) => if DayOf(e.at) in s.pruned then 0 else raw(e);
    KeepSum(s.history, s.pruned, raw, live);
    RollupSide(s, metric, sel, since);
    forall e | e in s.history ensures ShownWeight(s, metric, sel, since)(e) == live(e) + PrunedWeight(s, metric, sel, since)(e) {
      LiveOrPruned(s, metric, sel, since, e);
    }
    SumSeqAdd(s.history, live, PrunedWeight(s, metric, sel, since), ShownWeight(s, metric, sel, since));
  }

  lemma LiveOrPruned(s: State, metric: Metric, sel: Key -> bool, since: Option<int>, e: Entry)
    ensures ShownWeight(s, metric, sel, since)(e)
         == (if DayOf(e.at) in s.pruned then 0 else RawWeight(metric, sel, since)(e)) + PrunedWeight(s, metric, sel, since)(e)
  {
    if since.Some? && e.at >= since.value {
      LaterIsLaterDay(since.value, e.at);
    }
  }

  lemma LaterIsLaterDay(a: int, b: int)
    requires a <= b
    ensures DayOf(a) <= DayOf(b)
  {
  }

  predicate Midnight(since: Option<int>) {
    since.None? || since.value % SECONDS_PER_DAY == 0
  }

  /** After any run, every group of every dashboard, without a lower bound or from a UTC
      midnight on, shows exactly the never-pruned ledger. */
  lemma DashboardsAgree(today: int, actions: seq<Action>, metric: Metric, sel: Key -> bool, since: Option<int>)
    requires Midnight(since)
    ensures var s := Run(Init(today), actions);
            Shown(s.tables, metric, sel, since) == Expected(s, metric, sel, since)
  {
    var s := Run(Init(today), actions);
    assert Inv(Init(today));
    RunKeepsInv(Init(today), actions);
    ShownIs(s, metric, sel, since);
    SumSeqSame(s.history, ShownWeight(s, metric, sel, since), RawWeight(metric, sel, since));
  }

  /** A request of the group on a pruned day, before `since` on that day. */
  predicate EarlierThatDay(s: State, sel: Key -> bool, since: int, e: Entry) {
    e in s.history && DayOf(e.at) in s.pruned && sel(KeyOf(e)) && DayOf(e.at) == DayOf(since) && e.at < since
  }

  /** For any other `since` a metric is right exactly when each such request weighs nothing in it, as
      long as none weighs less; the request count, when there is none. */
  lemma DashboardsAgreeIff(today: int, actions: seq<Action>, metric: Metric, sel: Key -> bool, since: int)
    requires forall e :: EarlierThatDay(Run(Init(today), actions), sel, since, e) ==> Weight(e, metric) >= 0
    ensures var s := Run(Init(today), actions);
            Shown(s.tables, metric, sel, Some(since)) == Expected(s, metric, sel, Some(since)) <==>
            forall e :: EarlierThatDay(s, sel, since, e) ==> Weight(e, metric) == 0
  {
    assert Inv(Init(today));
    RunKeepsInv(Init(today), actions);
    ShownExactlyIff(Run(Init(today), actions), metric, sel, since);
  }

  function Extra(s: State, metric: Metric, sel: Key -> bool, since: int): Entry -> int {
    (e: Entry) => if EarlierThatDay(s, sel, since, e) then Weight(e, metric) else 0
  }

  /** What is shown is what is right, and the extra. */
  lemma ShownIsExtra(s: State, metric: Metric, sel: Key -> bool, since: int)
    requires Inv(s)
    ensures Shown(s.tables, metric, sel, Some(since))
         == Expected(s, metric, sel, Some(since)) + SumSeq(s.history, Extra(s, metric, sel, since))
  {
    var shown, raw, extra :=
      ShownWeight(s, metric, sel, Some(since)), RawWeight(metric, sel, Some(since)), Extra(s, metric, sel, since);
    ShownIs(s, metric, sel, Some(since));
    forall e | e in s.history ensures shown(e) == raw(e) + extra(e) {
      ExtraWeight(s, metric, sel, since, e);
    }
    SumSeqAdd(s.history, raw, extra, shown);
  }

  lemma ExtraWeight(s: State, metric: Metric, sel: Key -> bool, since: int, e: Entry)
    requires e in s.history
    ensures ShownWeight(s, metric, sel, Some(since))(e)
         == RawWeight(metric, sel, Some(since))(e) + Extra(s, metric, sel, since)(e)
  {
  }

  lemma ShownExactlyIff(s: State, metric: Metric, sel: Key -> bool, since: int)
    requires Inv(s) && forall e :: EarlierThatDay(s, sel, since, e) ==> Weight(e, metric) >= 0
    ensures Shown(s.tables, metric, sel, Some(since)) == Expected(s, metric, sel, Some(since)) <==>
            forall e :: EarlierThatDay(s, sel, since, e) ==> Weight(e, metric) == 0
  {
    ShownIsExtra(s, metric, sel, since);
    SumSeqNonNeg(s.history, Extra(s, metric, sel, since));
  }

  /** In particular a `since` on or after the oldest raw day is always answered exactly. */
  lemma DashboardsAgreeAboveFloor(today: int, actions: seq<Action>, metric: Metric, sel: Key -> bool, since: int)
    requires !Below(DayOf(since), FloorDay(Run(Init(today), actions).tables.ledger))
    ensures var s := Run(Init(today), actions);
            Shown(s.tables, metric, sel, Some(since)) == Expected(s, metric, sel, Some(since))
  {
    var s := Run(Init(today), actions);
    assert Inv(Init(today));
    RunKeepsInv(Init(today), actions);
    ShownIs(s, metric, sel, Some(since));
    var e :| e in s.tables.ledger && DayOf(e.at) <= DayOf(since);
    SumSeqSame(s.history, ShownWeight(s, metric, sel, Some(since)), RawWeight(metric, sel, Some(since)));
  }

  function Everything(): Key -> bool { (k: Key) => true }

  lemma RunOfFour(s: State, a: Action, b: Action, c: Action, d: Action)
    ensures Run(s, [a, b, c, d]) == Next(Next(Next(Next(s, a), b), c), d)
  {
    assert [a, b, c, d][1..] == [b, c, d];
    RunOfThree(Next(s, a), b, c, d);
  }

  lemma RunOfThree(s: State, a: Action, b: Action, c: Action)
    ensures Run(s, [a, b, c]) == Next(Next(Next(s, a), b), c)
  {
    assert [a, b, c][1..] == [b, c] && [b, c][1..] == [c] && [c][1..] == [];
    assert Run(Next(Next(s, a), b), [c]) == Next(Next(Next(s, a), b), c);
    assert Run(Next(s, a), [b, c]) == Run(Next(Next(s, a), b), [c]);
  }

  /** A rollup of the one day of a single request prunes it. */
  lemma OnlyDayProcessed(e: Entry, s: State)
    requires s == State(Tables([e], map[]), 20, [RunState(false, EligibleDays([e], 13))], [e], {}) && DayOf(e.at) == 0
    ensures Next(s, ProcessDay(0)).pruned == {0} && Next(s, ProcessDay(0)).history == [e]
  {
    assert e in [e];
    assert 0 in EligibleDays([e], 13);
    assert s.runs[0].days[0] in s.runs[0].days;
  }

  lemma OnlyDayPruned(e: Entry)
    requires DayOf(e.at) == 0
    ensures var s := Run(Init(0), [Append(e), Advance(20), StartRun(7, false), ProcessDay(0)]);
            s.pruned == {0} && s.history == [e]
  {
    RunOfFour(Init(0), Append(e), Advance(20), StartRun(7, false), ProcessDay(0));
    assert [] + [e] == [e] && [] + [RunState(false, EligibleDays([e], 13))] == [RunState(false, EligibleDays([e], 13))];
    OnlyDayProcessed(e, Next(Next(Next(Init(0), Append(e)), Advance(20)), StartRun(7, false)));
  }

  /** And a mid-day `since` below it can overcount: one request at second 100 of a pruned day
      is shown as after second 200. */
  lemma MidDayOvercounts(e: Entry)
    requires e.at == 100
    ensures var s := Run(Init(0), [Append(e), Advance(20), StartRun(7, false), ProcessDay(0)]);
            Shown(s.tables, Requests, Everything(), Some(200)) != Expected(s, Requests, Everything(), Some(200))
  {
    var actions := [Append(e), Advance(20), StartRun(7, false), ProcessDay(0)];
    OnlyDayPruned(e);
    assert EarlierThatDay(Run(Init(0), actions), Everything(), 200, e);
    DashboardsAgreeIff(0, actions, Requests, Everything(), 200);
  }

  // ----- the groups the dashboards ask for -----

  function SummaryGroup(pricingGroup: string, user: string): Key -> bool {
    (k: Key) => OrUnknown(k.pricingGroup) == pricingGroup && k.user == user
  }

  function ProviderGroup(prefix: string, success: bool): Key -> bool {
    (k: Key) => OrUnknown(k.routerPrefix) == prefix && (k.status == "success") == success
  }

  function DayBucket(day: int, success: bool): Key -> bool {
    (k: Key) => k.day == day && (k.status == "success") == success
  }

  /** The group expressions over raw columns select the rows whose rollup key is selected. */
  lemma RawColumnsAgree(e: Entry, text: string, user: string, success: bool, day: int)
    ensures SummaryGroup(text, user)(KeyOf(e)) <==>
            (if e.pricingGroup.None? || e.pricingGroup.value == "" then "unknown" else e.pricingGroup.value) == text
            && e.user == user
    ensures ProviderGroup(text, success)(KeyOf(e)) <==> RouterPrefix(e) == text && (e.status == "success") == success
    ensures DayBucket(day, success)(KeyOf(e)) <==> DayOf(e.at) == day && (e.status == "success") == success
  {
  }

  // ----- the job -----

  datatype Result = Result(days: seq<int>, rolledUp: nat, deleted: nat, failed: bool)

  function RolledDays(t: Tables, days: seq<int>, dry: bool): Tables
    decreases |days|
  {
    if days == [] then t else RolledDays(RolledDay(t, days[0], dry), days[1..], dry)
  }

  lemma {:induction false} RolledDaysSnoc(t: Tables, days: seq<int>, d: int, dry: bool)
    ensures RolledDays(t, days + [d], dry) == RolledDay(RolledDays(t, days, dry), d, dry)
    decreases |days|
  {
    if days == [] {
      assert ([] + [d])[1..] == [];
    } else {
      assert (days + [d])[1..] == days[1..] + [d];
      RolledDaysSnoc(RolledDay(t, days[0], dry), days[1..], d, dry);
    }
  }

  class UsageStore {
    var ledger: seq<Entry>
    var rollup: map<Key, Measures>

    ghost function State(): Tables
      reads this
    {
      Tables(ledger, rollup)
    }

    /** One day in one transaction. */
    method RollupOneDay(day: int, dry: bool) returns (rolled: nat, deleted: nat)
      modifies this
      ensures State() == RolledDay(old(State()), day, dry)
      ensures rolled == |old(ledger)| - |Keep(old(ledger), {day})|
      ensures deleted == |old(ledger)| - |ledger|
    {
      var kept := Keep(ledger, {day});
      rolled, deleted := |ledger| - |kept|, 0;
      rollup := rollup + GroupBy(ledger, day);
      if !dry {
        deleted := rolled;
        ledger := kept;
      }
    }

    /** The daily job.  `failing` holds the days whose transaction fails: the job stops there
        and keeps the days already committed. */
    method RollupAndPrune(today: int, retention: int, dry: bool, failing: set<int>) returns (r: Result)
      modifies this
      ensures var all := EligibleDays(old(ledger), today - EffectiveRetention(retention));
        && r.days <= all
        && (forall d :: d in r.days ==> d !in failing)
        && (r.failed <==> r.days != all)
        && (r.failed ==> all[|r.days|] in failing)
      ensures State() == RolledDays(old(State()), r.days, dry)
      ensures r.deleted == |old(ledger)| - |ledger|
      ensures !dry ==> r.rolledUp == r.deleted
    {
      var days := EligibleDays(ledger, today - EffectiveRetention(retention));
      r := Result([], 0, 0, false);
      for i := 0 to |days|
        invariant r.days == days[..i] && !r.failed
        invariant forall d :: d in r.days ==> d !in failing
        invariant State() == RolledDays(old(State()), r.days, dry)
        invariant r.deleted == |old(ledger)| - |ledger|
        invariant !dry ==> r.rolledUp == r.deleted
      {
        if days[i] in failing {
          r := r.(failed := true);
          return;
        }
        RolledDaysSnoc(old(State()), r.days, days[i], dry);
        var rolled, deleted := RollupOneDay(days[i], dry);
        r := Result(r.days + [days[i]], r.rolledUp + rolled, r.deleted + deleted, false);
      }
    }
  }

  function Times(a: Action, n: nat): seq<Action> { seq(n, _ => a) }

  /** The job, stopped after any number of its days, is a run of the transition system. */
  lemma {:induction false} JobIsARun(s: State, i: nat, n: nat)
    requires i < |s.runs| && n <= |s.runs[i].days|
    ensures Run(s, Times(ProcessDay(i), n)).tables == RolledDays(s.tables, s.runs[i].days[..n], s.runs[i].dry)
    decreases n
  {
    var days := s.runs[i].days;
    if n > 0 {
      var s' := Next(s, ProcessDay(i));
      assert s'.runs[i].days == days[1..];
      JobIsARun(s', i, n - 1);
      assert Times(ProcessDay(i), n)[1..] == Times(ProcessDay(i), n - 1);
      assert days[..n][1..] == days[1..][..n - 1];
    }
  }
}
