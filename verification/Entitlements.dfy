/** The entitlement table: its constraints, the two upsert paths and the sync batch.

    One upsert is one transaction: it commits as a whole, or fails and changes nothing. */
module Entitlements {
  import opened Sums
  import opened Text

  type Id = nat

  datatype Row = Row(
    user: string, plan: string, status: string, start: Option<int>, end: Option<int>, quota: Option<int>,
    credit: int, payg: int, creditReserved: nat, paygReserved: nat,
    group: Option<string>, metaGroup: Option<string>)

  /** One purchase as the billing application sends it, with or without a row id; `metaGroup` is its
      metadata's pricing group. */
  datatype Item = Item(
    id: Option<Id>, user: string, plan: string, status: string, start: Option<int>, end: Option<int>, quota: Option<int>,
    credit: Option<int>, payg: Option<int>, group: Option<string>, metaGroup: Option<string>)

  /** The rows, the plan codes that have a snapshot, and the next id to be generated. */
  datatype Table = Table(rows: map<Id, Row>, plans: set<string>, nextId: Id)

  // ----- the constraints -----

  predicate Active(r: Row) { r.status == "active" }

  predicate Unlimited(group: Option<string>) { group in {Some("unlimited"), Some("unlimited_plan")} }

  predicate UniquePlan(rows: map<Id, Row>) {
    forall i, j :: i in rows && j in rows && i != j ==> rows[i].user != rows[j].user || rows[i].plan != rows[j].plan
  }

  predicate HoldsActive(r: Row, group: string) { Active(r) && r.group == Some(group) }

  predicate UniqueActive(rows: map<Id, Row>, group: string) {
    forall i, j ::
      i in rows && j in rows && i != j && HoldsActive(rows[i], group) && HoldsActive(rows[j], group)
      ==> rows[i].user != rows[j].user
  }

  predicate Indexed(rows: map<Id, Row>) {
    && UniquePlan(rows)
    && UniqueActive(rows, "credit_package")
    && UniqueActive(rows, "payg_topup")
    && UniqueActive(rows, "unlimited")
  }

  /** What the database enforces: the unique indexes, the foreign key on the plan code and the checks
      on the balances. */
  predicate Enforced(plans: set<string>, rows: map<Id, Row>) {
    Indexed(rows) && AllFit(plans, rows)
  }

  predicate AllFit(plans: set<string>, rows: map<Id, Row>) { forall i :: i in rows ==> RowFits(plans, rows[i]) }

  predicate RowFits(plans: set<string>, r: Row) { r.plan in plans && r.credit >= 0 && r.payg >= 0 }

  /** What no index enforces: one active subscription across both spellings of its group. */
  predicate OneSubscription(rows: map<Id, Row>) {
    forall i, j ::
      i in rows && j in rows && i != j && Subscription(rows[i]) && Subscription(rows[j])
      ==> rows[i].user != rows[j].user
  }

  predicate Subscription(r: Row) { Active(r) && Unlimited(r.group) }

  predicate Inv(t: Table) {
    Enforced(t.plans, t.rows) && OneSubscription(t.rows) && forall i :: i in t.rows ==> i < t.nextId
  }

  // ----- the upserts -----

  function StoredStatus(item: Item): string { if item.status == "" then "active" else item.status }

  function GroupText(item: Item): string { if item.group.None? then "" else Trim(item.group.value) }

  predicate IsActive(item: Item) { Trim(StoredStatus(item)) == "active" }

  /** Balances live on one row per user and group; everything else is keyed by plan. */
  predicate SingleRow(item: Item) { IsActive(item) && GroupText(item) in {"credit_package", "payg_topup"} }

  predicate ActiveUnlimited(item: Item) { IsActive(item) && GroupText(item) in {"unlimited", "unlimited_plan"} }

  function OrZero(n: Option<int>): int { if n.Some? then n.value else 0 }

  function OrKeep(n: Option<int>, current: int): int { if n.Some? then n.value else current }

  /** Terminal rows that still hold the plan code are deleted first. */
  function Cleared(rows: map<Id, Row>, item: Item): map<Id, Row> {
    map i | i in rows && !(rows[i].user == item.user && rows[i].plan == item.plan && !Active(rows[i])) :: rows[i]
  }

  function BalanceRows(rows: map<Id, Row>, user: string, group: string): set<Id> {
    set i | i in rows && rows[i].user == user && HoldsActive(rows[i], group)
  }

  function SingleInsert(item: Item, group: string): Row {
    Row(item.user, item.plan, "active", item.start, item.end, item.quota,
        OrZero(item.credit), OrZero(item.payg), 0, 0, Some(group), item.metaGroup)
  }

  /** The other balance is zeroed, the reservations are left to the running requests. */
  function SingleUpdate(r: Row, item: Item, group: string): Row {
    r.(plan := item.plan, start := item.start, end := item.end, quota := item.quota,
       credit := if group == "payg_topup" then 0 else OrKeep(item.credit, r.credit),
       payg := if group == "credit_package" then 0 else OrKeep(item.payg, r.payg),
       group := Some(group), metaGroup := item.metaGroup)
  }

  /** Every other active subscription of the user is replaced. */
  function Demoted(rows: map<Id, Row>, item: Item): map<Id, Row> {
    map i | i in rows ::
      var r := rows[i];
      if r.user == item.user && Active(r) && r.plan != item.plan
         && Unlimited(if r.group.Some? then r.group else r.metaGroup)
      then r.(status := "replaced") else r
  }

  function PlanRows(rows: map<Id, Row>, item: Item): set<Id> {
    set i | i in rows && rows[i].user == item.user && rows[i].plan == item.plan
  }

  function PlanInsert(item: Item): Row {
    Row(item.user, item.plan, StoredStatus(item), item.start, item.end, item.quota,
        OrZero(item.credit), OrZero(item.payg), 0, 0, item.group, item.metaGroup)
  }

  function PlanUpdate(r: Row, item: Item): Row {
    PlanInsert(item).(creditReserved := r.creditReserved, paygReserved := r.paygReserved)
  }

  /** An older purchase that is no longer active may not overwrite a newer one. */
  predicate Stale(item: Item, r: Row) {
    StoredStatus(item) != "active" && r.start.Some? && item.start.Some? && item.start.value < r.start.value
  }

  /** The rows once the rivals of an active subscription are demoted. */
  function Rivals(t: Table, item: Item): map<Id, Row> {
    if ActiveUnlimited(item) then Demoted(t.rows, item) else t.rows
  }

  /** The id of an inserted row: the one it was sent with, or a generated one. */
  function InsertId(t: Table, item: Item): Id { if item.id.Some? then item.id.value else t.nextId }

  /** The rows a transaction would commit, given the row it found, if any. */
  function Candidate(t: Table, item: Item, found: Option<Id>): map<Id, Row>
    requires found.Some? ==> found.value in t.rows
    requires found.Some? && SingleRow(item) ==> Active(t.rows[found.value])
  {
    if SingleRow(item) then
      var rows := Cleared(t.rows, item);
      if found.Some? then rows[found.value := SingleUpdate(rows[found.value], item, GroupText(item))]
      else rows[InsertId(t, item) := SingleInsert(item, GroupText(item))]
    else
      var rows := Rivals(t, item);
      if found.None? then rows[InsertId(t, item) := PlanInsert(item)]
      else if Stale(item, rows[found.value]) then rows
      else rows[found.value := PlanUpdate(rows[found.value], item)]
  }

  function Targets(rows: map<Id, Row>, item: Item): set<Id> {
    if SingleRow(item) then BalanceRows(rows, item.user, GroupText(item)) else PlanRows(rows, item)
  }

  /** The row an upsert works on: the indexes leave at most one. */
  ghost function Found(rows: map<Id, Row>, item: Item): (f: Option<Id>)
    ensures f.Some? ==> f.value in Targets(rows, item)
    ensures f.None? ==> Targets(rows, item) == {}
  {
    if Targets(rows, item) == {} then None else
      var i :| i in Targets(rows, item);
      Some(i)
  }

  predicate Complete(item: Item) { item.user != "" && item.plan != "" }

  /** The values of the purchase: its plan has a snapshot, and neither balance is negative. */
  predicate Fits(plans: set<string>, item: Item) { RowFits(plans, PlanInsert(item)) }

  /** The rows left in the table when an upsert inserts: terminal rows of the plan code are gone then
      on the single-row path. */
  function Left(t: Table, item: Item): map<Id, Row> { if SingleRow(item) then Cleared(t.rows, item) else t.rows }

  /** An inserted row needs an id of its own. */
  predicate IdFree(t: Table, item: Item) { InsertId(t, item) !in Left(t, item) }

  /** Whether the transaction commits.  On the plan-keyed path the proposed row is checked even where
      a stored one is updated or kept. */
  ghost predicate Commits(t: Table, item: Item) {
    && Complete(item)
    && (!SingleRow(item) ==> OrZero(item.credit) >= 0 && OrZero(item.payg) >= 0)
    && (Found(t.rows, item).None? ==> IdFree(t, item))
    && Enforced(t.plans, Candidate(t, item, Found(t.rows, item)))
  }

  ghost function Upserted(t: Table, item: Item): Table {
    if Commits(t, item)
    then Table(Candidate(t, item, Found(t.rows, item)), t.plans, Max(t.nextId, InsertId(t, item) + 1))
    else t
  }

  ghost function Synced(t: Table, items: seq<Item>): Table
    decreases |items|
  {
    if items == [] then t else Synced(Upserted(t, items[0]), items[1..])
  }

  /** The purchases of a batch that fail, in order. */
  ghost function Refused(t: Table, items: seq<Item>): seq<Item>
    decreases |items|
  {
    if items == [] then []
    else (if Commits(t, items[0]) then [] else [items[0]]) + Refused(Upserted(t, items[0]), items[1..])
  }

  // ----- what every sequence of upserts keeps -----

  lemma TrimActive()
    ensures Trim("active") == "active"
    ensures Trim("unlimited") == "unlimited"
    ensures Trim("unlimited_plan") == "unlimited_plan"
    ensures Trim("credit_package") == "credit_package"
    ensures Trim("payg_topup") == "payg_topup"
  {
  }

  lemma WriteKeepsOneSubscription(rows: map<Id, Row>, id: Id, r: Row)
    requires OneSubscription(rows)
    requires Subscription(r) ==> forall j :: j in rows && j != id && Subscription(rows[j]) ==> rows[j].user != r.user
    ensures OneSubscription(rows[id := r])
  {
  }

  lemma DemotedIsAlone(rows: map<Id, Row>, item: Item)
    requires OneSubscription(rows) && UniquePlan(rows)
    ensures OneSubscription(Demoted(rows, item))
    ensures forall j :: j in rows && Subscription(Demoted(rows, item)[j]) && rows[j].user == item.user
                        ==> rows[j].plan == item.plan
  {
    var d := Demoted(rows, item);
    forall i | i in rows ensures d[i].user == rows[i].user && (Subscription(d[i]) ==> Subscription(rows[i])) {
    }
  }

  /** A row stored as an active subscription was sent as one, so its rivals were demoted. */
  lemma StoredSubscription(item: Item)
    requires StoredStatus(item) == "active" && item.group.Some?
    ensures Unlimited(item.group) ==> ActiveUnlimited(item)
    ensures item.group.value in {"credit_package", "payg_topup"} ==> SingleRow(item)
  {
    TrimActive();
  }

  lemma UpsertKeepsOneSubscription(t: Table, item: Item)
    requires Inv(t)
    ensures OneSubscription(Candidate(t, item, Found(t.rows, item)))
  {
    var found := Found(t.rows, item);
    if SingleRow(item) {
      var rows := Cleared(t.rows, item);
      if found.Some? {
        WriteKeepsOneSubscription(rows, found.value, SingleUpdate(rows[found.value], item, GroupText(item)));
      } else {
        WriteKeepsOneSubscription(rows, InsertId(t, item), SingleInsert(item, GroupText(item)));
      }
    } else {
      var rows := Rivals(t, item);
      DemotedIsAlone(t.rows, item);
      if found.None? {
        assert forall j :: j in t.rows && t.rows[j].user == item.user && t.rows[j].plan == item.plan ==> j in PlanRows(t.rows, item);
        SubscriptionIsAlone(t, item, InsertId(t, item), PlanInsert(item));
        WriteKeepsOneSubscription(rows, InsertId(t, item), PlanInsert(item));
      } else {
        SubscriptionIsAlone(t, item, found.value, PlanUpdate(rows[found.value], item));
        WriteKeepsOneSubscription(rows, found.value, PlanUpdate(rows[found.value], item));
      }
    }
  }

  lemma SubscriptionIsAlone(t: Table, item: Item, id: Id, r: Row)
    requires Inv(t) && r.user == item.user && r.status == StoredStatus(item) && r.group == item.group
    requires forall j :: j in t.rows && j != id && t.rows[j].user == item.user ==> t.rows[j].plan != item.plan
    ensures Subscription(r) ==>
      forall j :: j in Rivals(t, item) && j != id && Subscription(Rivals(t, item)[j]) ==> Rivals(t, item)[j].user != r.user
  {
    if Subscription(r) {
      StoredSubscription(item);
      DemotedIsAlone(t.rows, item);
    }
  }

  lemma UpsertKeepsInv(t: Table, item: Item)
    requires Inv(t)
    ensures Inv(Upserted(t, item))
  {
    if Commits(t, item) {
      UpsertKeepsOneSubscription(t, item);
    }
  }

  /** Every batch of upserts, failed ones included, keeps every plan code known and unique per user,
      no balance negative, and at most one active row per user for credits, for pay-as-you-go and for subscriptions. */
  lemma {:induction false} SyncKeepsInv(t: Table, items: seq<Item>)
    requires Inv(t)
    ensures Inv(Synced(t, items))
    decreases |items|
  {
    if items != [] {
      UpsertKeepsInv(t, items[0]);
      SyncKeepsInv(Upserted(t, items[0]), items[1..]);
    }
  }

  // ----- when a transaction commits -----

  lemma WriteKeepsIndexes(rows: map<Id, Row>, id: Id, r: Row)
    requires Indexed(rows)
    requires forall j :: j in rows && j != id && rows[j].user == r.user ==> rows[j].plan != r.plan
    requires forall g, j ::
      g in {"credit_package", "payg_topup", "unlimited"} && HoldsActive(r, g)
      && j in rows && j != id && rows[j].user == r.user
      ==> !HoldsActive(rows[j], g)
    ensures Indexed(rows[id := r])
  {
  }

  lemma DemotedKeepsIndexes(rows: map<Id, Row>, item: Item)
    requires Indexed(rows)
    ensures Indexed(Demoted(rows, item))
  {
    var d := Demoted(rows, item);
    forall i | i in rows
      ensures d[i].user == rows[i].user && d[i].plan == rows[i].plan
      ensures forall g :: HoldsActive(d[i], g) ==> HoldsActive(rows[i], g)
    {
    }
  }

  lemma ClearedKeepsIndexes(rows: map<Id, Row>, item: Item)
    requires Indexed(rows)
    ensures Indexed(Cleared(rows, item))
  {
  }

  /** A plan-keyed purchase that its constraints let in: its values fit, and either the plan's row
      is there or the id it would be inserted with is free. */
  predicate Storable(t: Table, item: Item) {
    Fits(t.plans, item) && (PlanRows(t.rows, item) != {} || InsertId(t, item) !in t.rows)
  }

  /** The plan-keyed path never collides with a unique index: it fails exactly on an unknown plan
      code, a negative balance, or an insertion under a taken id. */
  lemma PlanPathCommitsIff(t: Table, item: Item)
    requires Inv(t) && Complete(item) && !SingleRow(item)
    ensures Commits(t, item) <==> Storable(t, item)
  {
    var found := Found(t.rows, item);
    DemotedKeepsIndexes(t.rows, item);
    var rows := Rivals(t, item);
    var id := if found.Some? then found.value else InsertId(t, item);
    var r := if found.Some? then PlanUpdate(rows[found.value], item) else PlanInsert(item);
    assert RowFits(t.plans, r) <==> Fits(t.plans, item);
    assert forall j :: j in t.rows && t.rows[j].user == item.user && t.rows[j].plan == item.plan ==> j in PlanRows(t.rows, item);
    if Storable(t, item) {
      PlanRowFits(t, item, id, r);
      WriteKeepsIndexes(rows, id, r);
      WriteKeepsFit(t.plans, rows, id, r);
    } else if found.None? && !Fits(t.plans, item) {
      assert id in Candidate(t, item, found);
    }
  }

  lemma WriteKeepsFit(plans: set<string>, rows: map<Id, Row>, id: Id, r: Row)
    requires AllFit(plans, rows)
    ensures AllFit(plans, rows[id := r]) <==> RowFits(plans, r)
  {
    assert id in rows[id := r] && rows[id := r][id] == r;
  }

  /** The row of a plan-keyed purchase stands alone in every index, if its plan code does. */
  lemma PlanRowFits(t: Table, item: Item, id: Id, r: Row)
    requires Inv(t) && !SingleRow(item)
    requires r.user == item.user && r.plan == item.plan && r.status == StoredStatus(item) && r.group == item.group
    requires forall j :: j in t.rows && j != id && t.rows[j].user == item.user ==> t.rows[j].plan != item.plan
    ensures forall j :: j in Rivals(t, item) && j != id && Rivals(t, item)[j].user == r.user ==> Rivals(t, item)[j].plan != r.plan
    ensures forall g, j ::
      g in {"credit_package", "payg_topup", "unlimited"} && HoldsActive(r, g)
      && j in Rivals(t, item) && j != id && Rivals(t, item)[j].user == r.user
      ==> !HoldsActive(Rivals(t, item)[j], g)
  {
    var rows := Rivals(t, item);
    assert forall j :: j in rows ==> j in t.rows && rows[j].user == t.rows[j].user && rows[j].plan == t.rows[j].plan;
    if StoredStatus(item) == "active" && item.group.Some? {
      StoredSubscription(item);
      DemotedIsAlone(t.rows, item);
    }
  }

  /** Where the user's balance row is updated only its own balance counts, the other is zeroed; an
      inserted row needs both, and a free id. */
  predicate SingleFits(t: Table, item: Item) {
    if BalanceRows(t.rows, item.user, GroupText(item)) != {}
    then item.plan in t.plans && OrZero(if GroupText(item) == "credit_package" then item.credit else item.payg) >= 0
    else Fits(t.plans, item) && IdFree(t, item)
  }

  /** No active row of another group holds the plan code. */
  ghost predicate PlanCodeFree(t: Table, item: Item) {
    forall j :: j in t.rows && t.rows[j].user == item.user && t.rows[j].plan == item.plan && Active(t.rows[j])
      ==> HoldsActive(t.rows[j], GroupText(item))
  }

  /** The id and the row that the single-row path writes. */
  ghost function SingleId(t: Table, item: Item): Id {
    var found := Found(t.rows, item);
    if found.Some? then found.value else InsertId(t, item)
  }

  ghost function SingleWritten(t: Table, item: Item): Row
    requires SingleRow(item)
  {
    var found := Found(t.rows, item);
    if found.Some? then SingleUpdate(t.rows[found.value], item, GroupText(item)) else SingleInsert(item, GroupText(item))
  }

  lemma SingleCandidate(t: Table, item: Item)
    requires SingleRow(item)
    ensures Candidate(t, item, Found(t.rows, item)) == Cleared(t.rows, item)[SingleId(t, item) := SingleWritten(t, item)]
  {
  }

  lemma SingleValuesFit(t: Table, item: Item)
    requires Inv(t) && SingleRow(item)
    ensures RowFits(t.plans, SingleWritten(t, item)) && (Found(t.rows, item).None? ==> IdFree(t, item)) <==> SingleFits(t, item)
  {
    var found := Found(t.rows, item);
    if found.Some? {
      assert RowFits(t.plans, t.rows[found.value]);
    }
  }

  lemma SingleIndexedIff(t: Table, item: Item)
    requires Inv(t) && SingleRow(item) && (Found(t.rows, item).None? ==> IdFree(t, item))
    ensures Indexed(Cleared(t.rows, item)[SingleId(t, item) := SingleWritten(t, item)]) <==> PlanCodeFree(t, item)
  {
    var rows, id, r := Cleared(t.rows, item), SingleId(t, item), SingleWritten(t, item);
    var after := rows[id := r];
    if j :| j in t.rows && t.rows[j].user == item.user && t.rows[j].plan == item.plan && Active(t.rows[j])
            && !HoldsActive(t.rows[j], GroupText(item)) {
      assert j in after && id in after && j != id;
      assert !UniquePlan(after);
    } else {
      ClearedKeepsIndexes(t.rows, item);
      assert forall j :: j in rows && rows[j].user == item.user && HoldsActive(rows[j], GroupText(item))
                         ==> j in Targets(t.rows, item);
      WriteKeepsIndexes(rows, id, r);
    }
  }

  /** The single-row path commits exactly when no active row of another group holds the plan code and
      the values fit: a terminal row never stands in the way. */
  lemma SinglePathCommitsIff(t: Table, item: Item)
    requires Inv(t) && Complete(item) && SingleRow(item)
    ensures Commits(t, item) <==> PlanCodeFree(t, item) && SingleFits(t, item)
  {
    SingleCandidate(t, item);
    SingleValuesFit(t, item);
    WriteKeepsFit(t.plans, Cleared(t.rows, item), SingleId(t, item), SingleWritten(t, item));
    if Found(t.rows, item).None? ==> IdFree(t, item) {
      SingleIndexedIff(t, item);
    }
  }

  /** An insertion that follows its SELECT too late: if another transaction has given the user an
      active row of the group in between, the index refuses it. */
  lemma LateInsertFails(t: Table, item: Item, id: Id)
    requires Inv(t) && SingleRow(item) && BalanceRows(t.rows, item.user, GroupText(item)) != {} && id !in t.rows
    ensures !Enforced(t.plans, t.rows[id := SingleInsert(item, GroupText(item))])
  {
    var j :| j in BalanceRows(t.rows, item.user, GroupText(item));
    var after := t.rows[id := SingleInsert(item, GroupText(item))];
    assert HoldsActive(after[id], GroupText(item)) && HoldsActive(after[j], GroupText(item)) && id != j;
    assert !UniqueActive(after, GroupText(item));
  }

  // ----- what is stored afterwards -----

  /** The row carries the purchase; only the reservations are its own. */
  predicate Carries(r: Row, item: Item) {
    r.(creditReserved := 0, paygReserved := 0) == PlanInsert(item)
  }

  /** An active subscription that is upserted is then the user's one active subscription, or fails
      and changes nothing. */
  lemma ActiveSubscriptionWins(t: Table, item: Item)
    requires Inv(t) && Complete(item) && StoredStatus(item) == "active" && Unlimited(item.group)
    ensures var t' := Upserted(t, item);
            if Storable(t, item) then
              exists i :: i in t'.rows && Carries(t'.rows[i], item)
                          && forall j :: j in t'.rows && Subscription(t'.rows[j]) && t'.rows[j].user == item.user ==> j == i
            else t' == t
  {
    StoredSubscription(item);
    PlanPathCommitsIff(t, item);
    UpsertKeepsInv(t, item);
    if Storable(t, item) {
      var t' := Upserted(t, item);
      var found := Found(t.rows, item);
      var i := if found.Some? then found.value else InsertId(t, item);
      assert Carries(t'.rows[i], item) && Subscription(t'.rows[i]);
    }
  }

  // ----- the store and the sync loop -----

  lemma BatchStep(t: Table, items: seq<Item>, n: nat)
    requires n < |items|
    ensures Synced(t, items[n..]) == Synced(Upserted(t, items[n]), items[n + 1..])
    ensures Refused(t, items[n..]) == (if Commits(t, items[n]) then [] else [items[n]]) + Refused(Upserted(t, items[n]), items[n + 1..])
  {
    assert items[n..][0] == items[n] && items[n..][1..] == items[n + 1..];
  }

  lemma Regroup(a: seq<Item>, b: seq<Item>, c: seq<Item>)
    ensures (a + b) + c == a + (b + c)
  {
  }

  /** A complete plan-keyed purchase without an id fails only on its values. */
  lemma {:induction false} RefusedFits(t: Table, items: seq<Item>)
    requires Inv(t)
    ensures forall x :: x in Refused(t, items) && Complete(x) && !SingleRow(x) && x.id.None? ==> !Fits(t.plans, x)
    decreases |items|
  {
    if items != [] {
      var x := items[0];
      UpsertKeepsInv(t, x);
      RefusedFits(Upserted(t, x), items[1..]);
      if Complete(x) && !SingleRow(x) {
        PlanPathCommitsIff(t, x);
      }
    }
  }

  class EntitlementStore {
    var rows: map<Id, Row>
    var plans: set<string>
    var nextId: Id

    ghost function State(): Table
      reads this
    {
      Table(rows, plans, nextId)
    }

    /** Runs one upsert: begin, work on a copy, commit if the constraints allow it. */
    method Upsert(item: Item) returns (ok: bool)
      requires Inv(State())
      modifies this`rows, this`nextId
      ensures State() == Upserted(old(State()), item) && Inv(State())
      ensures ok <==> Commits(old(State()), item)
    {
      UpsertKeepsInv(State(), item);
      if item.user == "" || item.plan == "" {
        return false;
      }
      var found: Option<Id> := None;
      var targets := Targets(rows, item);
      if targets != {} {
        var i :| i in targets;
        assert Found(rows, item) == Some(i);
        found := Some(i);
      }
      if !SingleRow(item) && (OrZero(item.credit) < 0 || OrZero(item.payg) < 0) {
        return false;
      }
      var t := Table(rows, plans, nextId);
      if found.None? && !IdFree(t, item) {
        return false;
      }
      var after := Candidate(t, item, found);
      ok := Enforced(plans, after);
      if ok {
        rows, nextId := after, Max(nextId, InsertId(t, item) + 1);
      }
    }

    /** A row that fails is collected and the batch goes on. */
    method SyncCustomerEntitlements(items: seq<Item>) returns (count: nat, failures: seq<Item>)
      requires Inv(State())
      modifies this`rows, this`nextId
      ensures State() == Synced(old(State()), items) && Inv(State())
      ensures failures == Refused(old(State()), items) && count + |failures| == |items|
      ensures forall x :: x in items && Complete(x) && !SingleRow(x) && Fits(plans, x) && x.id.None? ==> x !in failures
    {
      count, failures := 0, [];
      for n := 0 to |items|
        invariant Inv(State())
        invariant Synced(State(), items[n..]) == Synced(old(State()), items)
        invariant failures + Refused(State(), items[n..]) == Refused(old(State()), items)
        invariant count + |failures| == n
      {
        ghost var t, done := State(), failures;
        BatchStep(t, items, n);
        var ok := Upsert(items[n]);
        if ok {
          count := count + 1;
        } else {
          failures := failures + [items[n]];
        }
        assert failures == done + if ok then [] else [items[n]];
        Regroup(done, if ok then [] else [items[n]], Refused(State(), items[n + 1..]));
      }
      RefusedFits(old(State()), items);
    }
  }
}
