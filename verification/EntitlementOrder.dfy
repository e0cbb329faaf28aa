/** What syncing purchases in some order leaves stored: when an active purchase survives, and when
    every order stores it. */
module EntitlementOrder {
  import opened Sums
  import opened Text
  import opened Entitlements

  // ----- the order of a sync does not matter -----

  ghost predicate StoredIs(t: Table, item: Item) {
    exists i :: i in t.rows && Carries(t.rows[i], item)
  }

  /** An active purchase that is keyed by its plan. */
  predicate ActivePlan(best: Item) { Complete(best) && StoredStatus(best) == "active" && !SingleRow(best) }

  predicate SamePlan(x: Item, y: Item) { x.user == y.user && x.plan == y.plan }

  /** No longer active, and known to have begun earlier. */
  predicate OlderThan(x: Item, best: Item) {
    StoredStatus(x) != "active" && x.start.Some? && best.start.Some? && x.start.value < best.start.value
  }

  /** What makes `x` displace `best`, if `x` is stored: another purchase of the same plan that is not
      known to be an older, ended one, or an active subscription of another plan where `best` is a
      subscription. */
  predicate Displaces(x: Item, best: Item) {
    x.user == best.user && Complete(x) && !SingleRow(x)
    && (if x.plan == best.plan then PlanInsert(x) != PlanInsert(best) && !OlderThan(x, best)
        else ActiveUnlimited(x) && Unlimited(if best.group.Some? then best.group else best.metaGroup))
  }

  lemma UpsertStores(t: Table, item: Item)
    requires Inv(t) && ActivePlan(item) && Storable(t, item)
    ensures StoredIs(Upserted(t, item), item)
  {
    PlanPathCommitsIff(t, item);
    var found := Found(t.rows, item);
    var i := if found.Some? then found.value else InsertId(t, item);
    assert Carries(Upserted(t, item).rows[i], item);
  }

  /** An upsert for another user leaves this user's rows alone. */
  lemma OtherUserKeepsRow(t: Table, item: Item, i: Id)
    requires Inv(t) && i in t.rows && t.rows[i].user != item.user
    ensures i in Upserted(t, item).rows && Upserted(t, item).rows[i] == t.rows[i]
  {
  }

  /** The row that carries an active plan-keyed purchase is no balance row. */
  lemma NoBalanceRow(r: Row, best: Item)
    requires ActivePlan(best) && Carries(r, best)
    ensures Active(r) && r.user == best.user && r.plan == best.plan && r.start == best.start
    ensures !HoldsBalance(r)
  {
    if best.group.Some? {
      StoredSubscription(best);
    }
  }

  predicate HoldsBalance(r: Row) { HoldsActive(r, "credit_package") || HoldsActive(r, "payg_topup") }

  lemma SamePlanSingleRowFails(t: Table, best: Item, x: Item, i: Id)
    requires Inv(t) && ActivePlan(best) && i in t.rows && Carries(t.rows[i], best)
    requires SamePlan(x, best) && Complete(x) && SingleRow(x)
    ensures Upserted(t, x) == t
  {
    NoBalanceRow(t.rows[i], best);
    SinglePathCommitsIff(t, x);
  }

  lemma SamePlanUpdates(t: Table, best: Item, x: Item, i: Id)
    requires Inv(t) && ActivePlan(best) && i in t.rows && Carries(t.rows[i], best)
    requires SamePlan(x, best) && Complete(x) && !SingleRow(x) && Storable(t, x)
    ensures i in Upserted(t, x).rows
    ensures Upserted(t, x).rows[i] == if OlderThan(x, best) then t.rows[i] else PlanUpdate(t.rows[i], x)
  {
    NoBalanceRow(t.rows[i], best);
    assert i in PlanRows(t.rows, x);
    assert Found(t.rows, x) == Some(i);
    PlanPathCommitsIff(t, x);
    assert Stale(x, t.rows[i]) <==> OlderThan(x, best);
  }

  lemma OtherPlanUpdates(t: Table, best: Item, x: Item, i: Id)
    requires Inv(t) && ActivePlan(best) && i in t.rows && Carries(t.rows[i], best)
    requires x.user == best.user && x.plan != best.plan && Complete(x)
    ensures i in Upserted(t, x).rows
    ensures Upserted(t, x).rows[i] == if Displaces(x, best) && Storable(t, x) then t.rows[i].(status := "replaced") else t.rows[i]
  {
    NoBalanceRow(t.rows[i], best);
    if SingleRow(x) {
      SingleLeavesRow(t, x, i);
    } else {
      PlanPathCommitsIff(t, x);
      PlanLeavesRow(t, x, i);
    }
  }

  lemma SingleLeavesRow(t: Table, x: Item, i: Id)
    requires Inv(t) && SingleRow(x) && i in t.rows && Active(t.rows[i]) && !HoldsBalance(t.rows[i])
    ensures i in Upserted(t, x).rows && Upserted(t, x).rows[i] == t.rows[i]
  {
  }

  lemma PlanLeavesRow(t: Table, x: Item, i: Id)
    requires Inv(t) && !SingleRow(x) && i in t.rows && (t.rows[i].user != x.user || t.rows[i].plan != x.plan)
    ensures i in Upserted(t, x).rows
    ensures Upserted(t, x).rows[i] == if Commits(t, x) then Rivals(t, x)[i] else t.rows[i]
  {
  }

  lemma OnlyRow(t: Table, best: Item, i: Id)
    requires Inv(t) && i in t.rows && t.rows[i].user == best.user && t.rows[i].plan == best.plan
    ensures StoredIs(t, best) <==> Carries(t.rows[i], best)
  {
  }

  /** An upsert leaves a stored active purchase stored if and only if it is not stored itself or does
      not displace it.  In particular an ended purchase of the plan displaces it unless both starts
      are known and its own is strictly earlier. */
  lemma UpsertKeepsStoredIff(t: Table, best: Item, x: Item)
    requires Inv(t) && ActivePlan(best) && StoredIs(t, best)
    ensures StoredIs(Upserted(t, x), best) <==> !(Displaces(x, best) && Storable(t, x))
  {
    var i :| i in t.rows && Carries(t.rows[i], best);
    UpsertKeepsInv(t, x);
    if !Complete(x) {
      assert Upserted(t, x) == t;
    } else if x.user != best.user {
      OtherUserKeepsRow(t, x, i);
      OnlyRow(Upserted(t, x), best, i);
    } else if x.plan != best.plan {
      OtherPlanUpdates(t, best, x, i);
      OnlyRow(Upserted(t, x), best, i);
    } else if SingleRow(x) {
      SamePlanSingleRowFails(t, best, x, i);
    } else if Storable(t, x) {
      SamePlanUpdates(t, best, x, i);
      OnlyRow(Upserted(t, x), best, i);
    } else {
      PlanPathCommitsIff(t, x);
    }
  }

  /** The same for an ended purchase of the same plan, in its own terms. */
  lemma EndedPurchaseKeepsIff(t: Table, best: Item, x: Item)
    requires Inv(t) && ActivePlan(best) && StoredIs(t, best)
    requires SamePlan(x, best) && !IsActive(x)
    ensures StoredIs(Upserted(t, x), best) <==>
            OrZero(x.credit) < 0 || OrZero(x.payg) < 0
            || (best.start.Some? && x.start.Some? && x.start.value < best.start.value)
  {
    NotActive(x);
    var i :| i in t.rows && Carries(t.rows[i], best);
    assert i in PlanRows(t.rows, x) && RowFits(t.plans, t.rows[i]);
    UpsertKeepsStoredIff(t, best, x);
  }

  // ----- whether it can be stored at all -----

  /** Renames the balance row `r` to another plan code. */
  predicate Renames(plans: set<string>, z: Item, r: Row) {
    && Complete(z) && SingleRow(z) && z.user == r.user && z.plan != r.plan && HoldsActive(r, GroupText(z))
    && z.plan in plans && OrZero(if GroupText(z) == "credit_package" then z.credit else z.payg) >= 0
  }

  ghost predicate Renamed(plans: set<string>, r: Row, pool: seq<Item>) { exists z :: z in pool && Renames(plans, z, r) }

  /** What makes `y` take the id of `best`: it is inserted under it for another plan or user, or as a
      balance that another purchase of the pool then moves to another plan. */
  ghost predicate Blocks(plans: set<string>, y: Item, best: Item, pool: seq<Item>) {
    && best.id.Some? && y.id == best.id && Complete(y) && Fits(plans, y)
    && (SamePlan(y, best) ==> SingleRow(y) && Renamed(plans, SingleInsert(y, GroupText(y)), pool))
  }

  /** The row under the id of `best`, if there is one, is that of its plan and stays so. */
  ghost predicate IdOwned(t: Table, best: Item, pool: seq<Item>) {
    best.id.Some? ==>
      var i := best.id.value;
      && i < t.nextId
      && (i in t.rows ==>
            t.rows[i].user == best.user && t.rows[i].plan == best.plan
            && (HoldsBalance(t.rows[i]) ==> !Renamed(t.plans, t.rows[i], pool)))
  }

  lemma OwnedIsStorable(t: Table, best: Item, pool: seq<Item>)
    requires Inv(t) && Fits(t.plans, best) && IdOwned(t, best, pool)
    ensures Storable(t, best)
  {
    if best.id.Some? && best.id.value in t.rows {
      assert best.id.value in PlanRows(t.rows, best);
    }
  }

  lemma PlanRowHoldsNoBalance(x: Item, r: Row)
    requires !SingleRow(x) && r.status == StoredStatus(x) && r.group == x.group
    ensures !HoldsBalance(r)
  {
    if r.status == "active" && r.group.Some? {
      StoredSubscription(x);
    }
  }

  lemma IdStaysOwned(t: Table, x: Item, best: Item, pool: seq<Item>)
    requires Inv(t) && x in pool && IdOwned(t, best, pool) && !Blocks(t.plans, x, best, pool)
    ensures IdOwned(Upserted(t, x), best, pool)
  {
    if best.id.Some? && Commits(t, x) {
      if SingleRow(x) {
        IdStaysOwnedBySingle(t, x, best, pool);
      } else {
        IdStaysOwnedByPlan(t, x, best, pool);
      }
    }
  }

  lemma IdStaysOwnedByPlan(t: Table, x: Item, best: Item, pool: seq<Item>)
    requires Inv(t) && IdOwned(t, best, pool) && !Blocks(t.plans, x, best, pool)
    requires best.id.Some? && Commits(t, x) && !SingleRow(x)
    ensures IdOwned(Upserted(t, x), best, pool)
  {
    PlanPathCommitsIff(t, x);
    PlanRowHoldsNoBalance(x, PlanInsert(x));
    var i, found := best.id.value, Found(t.rows, x);
    var t' := Upserted(t, x);
    if found.Some? {
      PlanRowHoldsNoBalance(x, PlanUpdate(t.rows[found.value], x));
    }
    if i in t'.rows && i in t.rows && HoldsBalance(t'.rows[i]) {
      assert t'.rows[i] == t.rows[i];
    }
  }

  lemma IdStaysOwnedBySingle(t: Table, x: Item, best: Item, pool: seq<Item>)
    requires Inv(t) && x in pool && IdOwned(t, best, pool) && !Blocks(t.plans, x, best, pool)
    requires best.id.Some? && Commits(t, x) && SingleRow(x)
    ensures IdOwned(Upserted(t, x), best, pool)
  {
    SinglePathCommitsIff(t, x);
    var i, found := best.id.value, Found(t.rows, x);
    var t' := Upserted(t, x);
    if found == Some(i) {
      assert !Renames(t.plans, x, t.rows[i]);
      RenamedAlike(t.plans, t.rows[i], t'.rows[i], pool);
    } else if found.None? && InsertId(t, x) == i {
      assert t'.rows[i] == SingleInsert(x, GroupText(x));
    } else if i in t'.rows {
      assert t'.rows[i] == t.rows[i];
    }
  }

  lemma RenamedAlike(plans: set<string>, r: Row, r': Row, pool: seq<Item>)
    requires r'.user == r.user && r'.plan == r.plan && r'.status == r.status && r'.group == r.group
    ensures Renamed(plans, r, pool) <==> Renamed(plans, r', pool)
  {
    assert forall z :: Renames(plans, z, r) <==> Renames(plans, z, r');
  }

  // ----- every order -----

  /** What keeps `best` out: a purchase that fits and displaces it, or one that takes its id. */
  ghost predicate Ousts(plans: set<string>, x: Item, best: Item, pool: seq<Item>) {
    (Fits(plans, x) && Displaces(x, best)) || Blocks(plans, x, best, pool)
  }

  ghost predicate Supersedes(plans: set<string>, best: Item, pool: seq<Item>) {
    Fits(plans, best) && forall x :: x in pool ==> !Ousts(plans, x, best, pool)
  }

  lemma {:induction false} SyncKeepsStored(t: Table, best: Item, items: seq<Item>)
    requires Inv(t) && ActivePlan(best) && StoredIs(t, best)
    requires forall x :: x in items ==> !(Fits(t.plans, x) && Displaces(x, best))
    ensures StoredIs(Synced(t, items), best)
    decreases |items|
  {
    if items != [] {
      assert items[0] in items;
      UpsertKeepsStoredIff(t, best, items[0]);
      UpsertKeepsInv(t, items[0]);
      SyncKeepsStored(Upserted(t, items[0]), best, items[1..]);
    }
  }

  /** From every state in which the id of an active purchase is its own, and in whatever order and
      however often purchases of a pool are synced, it ends up stored if its values fit and none of
      the pool displaces it or takes its id. */
  lemma {:induction false} SyncOrderIsIrrelevant(t: Table, best: Item, items: seq<Item>, pool: seq<Item>)
    requires Inv(t) && ActivePlan(best) && IdOwned(t, best, pool) && Supersedes(t.plans, best, pool)
    requires best in items && forall x :: x in items ==> x in pool
    ensures StoredIs(Synced(t, items), best)
    decreases |items|
  {
    assert items[0] in items;
    var t' := Upserted(t, items[0]);
    UpsertKeepsInv(t, items[0]);
    if items[0] == best {
      OwnedIsStorable(t, best, pool);
      UpsertStores(t, best);
      assert forall x :: x in items[1..] ==> x in pool && !Ousts(t.plans, x, best, pool);
      SyncKeepsStored(t', best, items[1..]);
    } else {
      IdStaysOwned(t, items[0], best, pool);
      SyncOrderIsIrrelevant(t', best, items[1..], pool);
    }
  }

  lemma {:induction false} SyncedConcat(t: Table, a: seq<Item>, b: seq<Item>)
    ensures Synced(t, a + b) == Synced(Synced(t, a), b)
    decreases |a|
  {
    if a == [] {
      assert a + b == b;
    } else {
      assert (a + b)[1..] == a[1..] + b;
      SyncedConcat(Upserted(t, a[0]), a[1..], b);
    }
  }

  // ----- an order that fails, where the condition does -----

  /** What is stored fits. */
  lemma StoredFits(t: Table, best: Item)
    requires Inv(t) && StoredIs(t, best)
    ensures Fits(t.plans, best)
  {
  }

  predicate Alike(x: Item, best: Item) { PlanInsert(x) == PlanInsert(best) }

  lemma AlikeFacts(x: Item, best: Item)
    requires Alike(x, best)
    ensures SingleRow(x) == SingleRow(best) && ActivePlan(x) == ActivePlan(best) && SamePlan(x, best)
    ensures !Displaces(x, best) && forall t :: StoredIs(t, x) <==> StoredIs(t, best)
  {
  }

  /** After an upsert a row is as before, replaced, a balance row, or carries the purchase. */
  lemma RowOrigin(t: Table, x: Item, i: Id)
    requires Inv(t) && i in Upserted(t, x).rows
    ensures var r := Upserted(t, x).rows[i];
      || (i in t.rows && r == t.rows[i]) || !Active(r) || HoldsBalance(r) || Carries(r, x)
  {
    if SingleRow(x) {
      SingleRowOrigin(t, x, i);
    }
  }

  lemma SingleRowOrigin(t: Table, x: Item, i: Id)
    requires Inv(t) && SingleRow(x) && i in Upserted(t, x).rows
    ensures (i in t.rows && Upserted(t, x).rows[i] == t.rows[i]) || HoldsBalance(Upserted(t, x).rows[i])
  {
  }

  /** Only a purchase like it makes a row carry it. */
  lemma UpsertStoresNoOther(t: Table, x: Item, best: Item)
    requires Inv(t) && ActivePlan(best) && !StoredIs(t, best) && !Alike(x, best)
    ensures !StoredIs(Upserted(t, x), best)
  {
    var t' := Upserted(t, x);
    forall i | i in t'.rows ensures !Carries(t'.rows[i], best) {
      assert i in t.rows ==> !Carries(t.rows[i], best);
      RowOrigin(t, x, i);
      if Carries(t'.rows[i], best) {
        NoBalanceRow(t'.rows[i], best);
      }
    }
  }

  lemma {:induction false} SyncStoresNoOther(t: Table, items: seq<Item>, best: Item)
    requires Inv(t) && ActivePlan(best) && !StoredIs(t, best) && forall x :: x in items ==> !Alike(x, best)
    ensures !StoredIs(Synced(t, items), best)
    decreases |items|
  {
    if items != [] {
      assert items[0] in items;
      UpsertStoresNoOther(t, items[0], best);
      UpsertKeepsInv(t, items[0]);
      SyncStoresNoOther(Upserted(t, items[0]), items[1..], best);
    }
  }

  /** Under a taken id, and with no row of its plan, it is refused every time. */
  lemma {:induction false} AlikesFail(t: Table, alikes: seq<Item>, best: Item)
    requires Inv(t) && ActivePlan(best) && PlanRows(t.rows, best) == {} && best.id.Some? && best.id.value in t.rows
    requires forall x :: x in alikes ==> Alike(x, best) && x.id == best.id
    ensures Synced(t, alikes) == t
    decreases |alikes|
  {
    if alikes != [] {
      assert alikes[0] in alikes;
      AlikeFacts(alikes[0], best);
      PlanPathCommitsIff(t, alikes[0]);
      AlikesFail(t, alikes[1..], best);
    }
  }

  /** In an empty table it is stored, in the one row. */
  lemma {:induction false} AlikesStore(t: Table, alikes: seq<Item>, best: Item, id: Id)
    requires Inv(t) && ActivePlan(best) && Fits(t.plans, best) && alikes != []
    requires t.rows == map[] || (t.rows.Keys == {id} && StoredIs(t, best))
    requires best.id == Some(id) || (best.id.None? && (t.rows == map[] ==> id == t.nextId))
    requires forall x :: x in alikes ==> Alike(x, best) && x.id == best.id
    ensures Synced(t, alikes).rows.Keys == {id} && StoredIs(Synced(t, alikes), best) && Inv(Synced(t, alikes))
    decreases |alikes|
  {
    var x := alikes[0];
    assert x in alikes;
    AlikeFacts(x, best);
    AlikeIsStored(t, x, best, id);
    UpsertKeepsInv(t, x);
    if |alikes| == 1 {
      assert alikes[1..] == [];
    } else {
      AlikesStore(Upserted(t, x), alikes[1..], best, id);
    }
  }

  lemma AlikeIsStored(t: Table, x: Item, best: Item, id: Id)
    requires Inv(t) && ActivePlan(best) && Fits(t.plans, best) && Alike(x, best) && x.id == best.id
    requires t.rows == map[] || (t.rows.Keys == {id} && StoredIs(t, best))
    requires best.id == Some(id) || (best.id.None? && (t.rows == map[] ==> id == t.nextId))
    ensures Upserted(t, x).rows.Keys == {id} && StoredIs(Upserted(t, x), best)
  {
    AlikeFacts(x, best);
    if t.rows != map[] {
      var i :| i in t.rows && Carries(t.rows[i], best);
      assert i in PlanRows(t.rows, x);
    }
    UpsertStores(t, x);
    PlanPathCommitsIff(t, x);
  }

  function Likes(items: seq<Item>, best: Item, alike: bool): (r: seq<Item>)
    ensures forall x :: x in r <==> x in items && Alike(x, best) == alike
  {
    if items == [] then [] else (if Alike(items[0], best) == alike then [items[0]] else []) + Likes(items[1..], best, alike)
  }

  lemma {:induction false} LikesSplit(items: seq<Item>, best: Item)
    ensures multiset(Likes(items, best, true) + Likes(items, best, false)) == multiset(items)
  {
    if items != [] {
      LikesSplit(items[1..], best);
      assert items == [items[0]] + items[1..];
    }
  }

  function RemoveAt(s: seq<Item>, i: nat): (r: seq<Item>)
    requires i < |s|
    ensures multiset(s) == multiset(r) + multiset{s[i]} && forall x :: x in r ==> x in s
  {
    assert s == s[..i] + [s[i]] + s[i + 1..];
    s[..i] + s[i + 1..]
  }

  lemma Without(s: seq<Item>, x: Item) returns (r: seq<Item>)
    requires x in s
    ensures multiset(s) == multiset(r) + multiset{x} && forall y :: y in r ==> y in s
    ensures forall y :: y in s && y != x ==> y in r
  {
    var i :| 0 <= i < |s| && s[i] == x;
    r := RemoveAt(s, i);
    forall y | y in s && y != x ensures y in r {
      assert y in multiset(s);
      assert y in multiset(r);
    }
  }

  /** More than every id in the list. */
  function Above(items: seq<Item>): (n: nat)
    ensures forall x :: x in items && x.id.Some? ==> x.id.value < n
  {
    if items == [] then 0
    else Max(if items[0].id.Some? then items[0].id.value + 1 else 0, Above(items[1..]))
  }

  function Empty(plans: set<string>, items: seq<Item>): Table { Table(map[], plans, Above(items)) }

  ghost predicate Fails(plans: set<string>, best: Item, items: seq<Item>, order: seq<Item>) {
    multiset(order) == multiset(items) && !StoredIs(Synced(Empty(plans, items), order), best)
  }

  lemma EmptyInv(plans: set<string>, items: seq<Item>)
    ensures Inv(Empty(plans, items))
  {
  }

  /** After one upsert into an empty table. */
  lemma FirstStored(plans: set<string>, items: seq<Item>, y: Item)
    requires Complete(y) && Fits(plans, y)
    ensures var t := Empty(plans, items);
      var r := if SingleRow(y) then SingleInsert(y, GroupText(y)) else PlanInsert(y);
      Upserted(t, y).rows == map[InsertId(t, y) := r] && Upserted(t, y).plans == plans
  {
    var t := Empty(plans, items);
    if SingleRow(y) {
      SinglePathCommitsIff(t, y);
    } else {
      PlanPathCommitsIff(t, y);
    }
  }

  lemma RenamedRow(t: Table, z: Item, i: Id)
    requires Inv(t) && t.rows.Keys == {i} && Renames(t.plans, z, t.rows[i])
    ensures Upserted(t, z).rows == map[i := SingleUpdate(t.rows[i], z, GroupText(z))]
  {
    assert i in BalanceRows(t.rows, z.user, GroupText(z));
    SinglePathCommitsIff(t, z);
    assert Cleared(t.rows, z) == t.rows;
  }

  /** In an empty table the purchases that take the id leave it to a row of another plan or user. */
  lemma IdTaken(plans: set<string>, best: Item, items: seq<Item>, y: Item) returns (first: seq<Item>)
    requires ActivePlan(best) && y in items && Blocks(plans, y, best, items)
    ensures first == [y] || exists z :: z in items && first == [y, z] && z != y && SingleRow(z)
    ensures !Alike(y, best)
    ensures var t := Synced(Empty(plans, items), first);
      Inv(t) && best.id.value in t.rows && PlanRows(t.rows, best) == {} && !StoredIs(t, best)
  {
    var t, i := Empty(plans, items), best.id.value;
    EmptyInv(plans, items);
    FirstStored(plans, items, y);
    UpsertKeepsInv(t, y);
    OneUpsert(t, y);
    first := [y];
    if SamePlan(y, best) {
      var z :| z in items && Renames(plans, z, SingleInsert(y, GroupText(y)));
      var t1 := Upserted(t, y);
      RenamedRow(t1, z, i);
      UpsertKeepsInv(t1, z);
      TwoUpserts(t, y, z);
      first := [y, z];
    }
  }

  lemma SingleIsNotAlike(x: Item, best: Item)
    requires SingleRow(x) && !SingleRow(best)
    ensures !Alike(x, best)
  {
    if Alike(x, best) {
      AlikeFacts(x, best);
    }
  }

  lemma WithoutFirst(others: seq<Item>, first: seq<Item>) returns (rest: seq<Item>)
    requires (|first| == 1 && first[0] in others)
          || (|first| == 2 && first[0] in others && first[1] in others && first[0] != first[1])
    ensures multiset(others) == multiset(first) + multiset(rest) && forall x :: x in rest ==> x in others
  {
    rest := Without(others, first[0]);
    if |first| == 2 {
      rest := Without(rest, first[1]);
      assert first == [first[0]] + [first[1]];
    } else {
      assert first == [first[0]];
    }
  }

  /** The purchases that take the id come first, then the purchase itself, which is refused. */
  lemma BlockedOrder(plans: set<string>, best: Item, items: seq<Item>, y: Item) returns (order: seq<Item>)
    requires ActivePlan(best) && y in items && Blocks(plans, y, best, items)
    requires forall x :: x in items && Alike(x, best) ==> x.id == best.id
    ensures Fails(plans, best, items, order)
  {
    var first := IdTaken(plans, best, items, y);
    var alikes, others := Likes(items, best, true), Likes(items, best, false);
    if |first| == 2 {
      SingleIsNotAlike(first[1], best);
    }
    var rest := WithoutFirst(others, first);
    LikesSplit(items, best);
    order := first + alikes + rest;
    var t := Synced(Empty(plans, items), first);
    AlikesFail(t, alikes, best);
    SyncStoresNoOther(t, rest, best);
    SyncedConcat(Empty(plans, items), first, alikes);
    SyncedConcat(Empty(plans, items), first + alikes, rest);
  }

  lemma OneUpsert(t: Table, a: Item)
    ensures Synced(t, [a]) == Upserted(t, a)
  {
    assert [a][1..] == [];
    assert Synced(Upserted(t, a), []) == Upserted(t, a);
  }

  lemma TwoUpserts(t: Table, a: Item, b: Item)
    ensures Synced(t, [a, b]) == Upserted(Upserted(t, a), b)
  {
    assert [a, b][1..] == [b];
    OneUpsert(Upserted(t, a), b);
  }

  /** The purchase comes first, then the one that displaces it. */
  lemma DisplacedOrder(plans: set<string>, best: Item, items: seq<Item>, x: Item) returns (order: seq<Item>)
    requires ActivePlan(best) && Fits(plans, best) && best in items
    requires x in items && Fits(plans, x) && Displaces(x, best) && !Blocks(plans, x, best, items)
    requires forall y :: y in items && Alike(y, best) ==> y.id == best.id
    ensures Fails(plans, best, items, order)
  {
    var t := Empty(plans, items);
    EmptyInv(plans, items);
    var alikes, others := Likes(items, best, true), Likes(items, best, false);
    LikesSplit(items, best);
    assert !Alike(x, best) by {
      if Alike(x, best) { AlikeFacts(x, best); }
    }
    var rest := Without(others, x);
    assert best in alikes;
    AlikesStore(t, alikes, best, InsertId(t, best));
    var t1 := Synced(t, alikes);
    SyncedPlans(t, alikes);
    DisplacerIsStorable(t1, best, x);
    UpsertKeepsStoredIff(t1, best, x);
    UpsertKeepsInv(t1, x);
    SyncStoresNoOther(Upserted(t1, x), rest, best);
    order := alikes + [x] + rest;
    OneUpsert(t1, x);
    SyncedConcat(t, alikes, [x]);
    SyncedConcat(t, alikes + [x], rest);
  }

  lemma {:induction false} SyncedPlans(t: Table, items: seq<Item>)
    ensures Synced(t, items).plans == t.plans && Synced(t, items).nextId >= t.nextId
    decreases |items|
  {
    if items != [] {
      SyncedPlans(Upserted(t, items[0]), items[1..]);
    }
  }

  lemma DisplacerIsStorable(t: Table, best: Item, x: Item)
    requires Inv(t) && StoredIs(t, best) && Fits(t.plans, x) && Displaces(x, best)
    requires x.id.Some? ==> x.id.value !in t.rows || SamePlan(x, best)
    ensures Storable(t, x)
  {
    var i :| i in t.rows && Carries(t.rows[i], best);
    assert SamePlan(x, best) ==> i in PlanRows(t.rows, x);
  }

  lemma FailingOrder(plans: set<string>, best: Item, items: seq<Item>) returns (order: seq<Item>)
    requires ActivePlan(best) && best in items && !Supersedes(plans, best, items)
    requires forall x :: x in items && Alike(x, best) ==> x.id == best.id
    ensures Fails(plans, best, items, order)
  {
    if !Fits(plans, best) {
      order := items;
      EmptyInv(plans, items);
      SyncKeepsInv(Empty(plans, items), items);
      SyncedPlans(Empty(plans, items), items);
      if StoredIs(Synced(Empty(plans, items), items), best) {
        StoredFits(Synced(Empty(plans, items), items), best);
      }
    } else if y :| y in items && Blocks(plans, y, best, items) {
      order := BlockedOrder(plans, best, items, y);
    } else {
      var x :| x in items && Ousts(plans, x, best, items);
      order := DisplacedOrder(plans, best, items, x);
    }
  }

  ghost predicate StoredByOrder(t: Table, order: seq<Item>, best: Item) { StoredIs(Synced(t, order), best) }

  /** Where a purchase comes under one id, every order of a batch stores it, from every state in which
      its id is its own, if and only if its values fit and nothing in the batch that fits displaces
      it or takes its id. */
  lemma EveryOrderStoresIff(plans: set<string>, best: Item, items: seq<Item>)
    requires ActivePlan(best) && best in items
    requires forall x :: x in items && Alike(x, best) ==> x.id == best.id
    ensures (forall t, order :: Inv(t) && t.plans == plans && IdOwned(t, best, items) && multiset(order) == multiset(items)
               ==> StoredByOrder(t, order, best))
            <==> Supersedes(plans, best, items)
  {
    if Supersedes(plans, best, items) {
      forall t, order | Inv(t) && t.plans == plans && IdOwned(t, best, items) && multiset(order) == multiset(items)
        ensures StoredByOrder(t, order, best)
      {
        assert forall x :: x in order <==> x in multiset(order);
        assert forall x :: x in items <==> x in multiset(items);
        SyncOrderIsIrrelevant(t, best, order, items);
      }
    } else {
      var order := FailingOrder(plans, best, items);
      EmptyInv(plans, items);
      assert IdOwned(Empty(plans, items), best, items);
      assert !StoredByOrder(Empty(plans, items), order, best);
    }
  }

  lemma BlockingPart(plans: set<string>, best: Item, pool: seq<Item>, y: Item) returns (part: seq<Item>)
    requires ActivePlan(best) && best in pool && y in pool && Blocks(plans, y, best, pool)
    ensures best in part && (forall x :: x in part ==> x in pool) && y in part && Blocks(plans, y, best, part)
    ensures forall x :: x in part && Alike(x, best) ==> x.id == best.id
  {
    part := [best, y];
    if SamePlan(y, best) {
      var z :| z in pool && Renames(plans, z, SingleInsert(y, GroupText(y)));
      SingleIsNotAlike(z, best);
      part := [best, y, z];
      assert z in part;
    }
  }

  /** A part of the pool that already fails. */
  lemma FailingPart(plans: set<string>, best: Item, pool: seq<Item>) returns (part: seq<Item>)
    requires ActivePlan(best) && best in pool && !Supersedes(plans, best, pool)
    ensures best in part && (forall x :: x in part ==> x in pool) && !Supersedes(plans, best, part)
    ensures forall x :: x in part && Alike(x, best) ==> x.id == best.id
  {
    part := [best];
    if !Fits(plans, best) {
    } else if y :| y in pool && Blocks(plans, y, best, pool) {
      part := BlockingPart(plans, best, pool, y);
    } else {
      var x :| x in pool && Ousts(plans, x, best, pool);
      part := [best, x];
      assert x in part && Ousts(plans, x, best, part);
      if Alike(x, best) {
        AlikeFacts(x, best);
      }
    }
  }

  /** Every batch made of a pool of purchases, in any order and with any repetition, stores one of them
      from every state in which its id is its own, if and only if its values fit and nothing in the
      pool that fits displaces it or takes its id. */
  lemma EveryBatchStoresIff(plans: set<string>, best: Item, pool: seq<Item>)
    requires ActivePlan(best) && best in pool
    ensures (forall t, batch :: Inv(t) && t.plans == plans && IdOwned(t, best, pool)
                                && best in batch && (forall x :: x in batch ==> x in pool)
               ==> StoredByOrder(t, batch, best))
            <==> Supersedes(plans, best, pool)
  {
    if Supersedes(plans, best, pool) {
      forall t, batch | Inv(t) && t.plans == plans && IdOwned(t, best, pool)
                        && best in batch && (forall x :: x in batch ==> x in pool)
        ensures StoredByOrder(t, batch, best)
      {
        SyncOrderIsIrrelevant(t, best, batch, pool);
      }
    } else {
      var part := FailingPart(plans, best, pool);
      var batch := FailingOrder(plans, best, part);
      EmptyInv(plans, part);
      assert forall x :: x in batch <==> x in multiset(batch);
      assert forall x :: x in part <==> x in multiset(part);
      assert IdOwned(Empty(plans, part), best, pool);
      assert !StoredByOrder(Empty(plans, part), batch, best);
    }
  }

  lemma NotActive(x: Item)
    requires !IsActive(x)
    ensures StoredStatus(x) != "active" && !SingleRow(x) && !ActiveUnlimited(x)
  {
    TrimActive();
  }

  // ----- the same for a balance, whose active purchase lives on one row per group -----

  ghost predicate BalanceStored(t: Table, item: Item) {
    exists i :: i in t.rows && IsBalanceOf(t.rows[i], item)
  }

  /** The active row of the group is the purchase's, with the balance it came with, if any. */
  predicate IsBalanceOf(r: Row, item: Item) {
    && r.user == item.user && HoldsActive(r, GroupText(item)) && r.plan == item.plan
    && r.start == item.start && r.end == item.end && r.quota == item.quota && r.metaGroup == item.metaGroup
    && (GroupText(item) == "credit_package" && item.credit.Some? ==> r.credit == item.credit.value)
    && (GroupText(item) == "payg_topup" && item.payg.Some? ==> r.payg == item.payg.value)
  }

  /** Every other purchase of the user is of the same plan, ended and began earlier, or is of
      another plan and not an active balance of the same group; and none of another plan or user
      has its id. */
  predicate SupersedesBalance(plans: set<string>, best: Item, items: seq<Item>) {
    && Complete(best) && SingleRow(best) && Fits(plans, best)
    && (forall x :: x in items && x.user == best.user && x != best ==>
          if x.plan == best.plan then !IsActive(x) && OlderThan(x, best)
          else !(SingleRow(x) && GroupText(x) == GroupText(best)))
    && (forall x :: x in items && x.id == best.id && x.id.Some? && Fits(plans, x) ==> SamePlan(x, best))
  }

  /** The row under the id of `best`, if there is one, is that of its plan. */
  predicate BalanceIdOwned(t: Table, best: Item) {
    best.id.Some? ==>
      var i := best.id.value;
      i < t.nextId && (i in t.rows ==> t.rows[i].user == best.user && t.rows[i].plan == best.plan)
  }

  /** A balance that was not sent is left as it was, and reservations are not touched. */
  lemma BalanceUpserted(t: Table, best: Item)
    requires Inv(t) && Complete(best) && SingleRow(best) && PlanCodeFree(t, best) && SingleFits(t, best)
    ensures BalanceStored(Upserted(t, best), best) && PlanCodeFree(Upserted(t, best), best)
    ensures forall i :: i in t.rows && t.rows[i].user == best.user && HoldsActive(t.rows[i], GroupText(best)) ==>
      var r, r' := t.rows[i], Upserted(t, best).rows[i];
      && r'.creditReserved == r.creditReserved && r'.paygReserved == r.paygReserved
      && (GroupText(best) == "credit_package" && best.credit.None? ==> r'.credit == r.credit)
      && (GroupText(best) == "payg_topup" && best.payg.None? ==> r'.payg == r.payg)
  {
    SinglePathCommitsIff(t, best);
    var found := Found(t.rows, best);
    var i := if found.Some? then found.value else InsertId(t, best);
    assert IsBalanceOf(Upserted(t, best).rows[i], best);
    forall j | j in t.rows && t.rows[j].user == best.user && HoldsActive(t.rows[j], GroupText(best)) ensures j == i {
      assert j in BalanceRows(t.rows, best.user, GroupText(best));
    }
  }

  lemma OthersLeaveItStored(t: Table, x: Item, best: Item)
    requires Inv(t) && x.user != best.user && BalanceStored(t, best)
    ensures BalanceStored(Upserted(t, x), best)
  {
    var i :| i in t.rows && IsBalanceOf(t.rows[i], best);
    OtherUserKeepsRow(t, x, i);
    assert IsBalanceOf(Upserted(t, x).rows[i], best);
  }

  lemma OthersTakeNoCode(t: Table, x: Item, best: Item)
    requires Inv(t) && x.user != best.user && PlanCodeFree(t, best)
    ensures PlanCodeFree(Upserted(t, x), best)
  {
    forall i | i in Upserted(t, x).rows && Upserted(t, x).rows[i].user == best.user
      ensures i in t.rows && Upserted(t, x).rows[i] == t.rows[i]
    {
    }
  }

  lemma OlderIsStale(t: Table, x: Item, best: Item)
    requires Inv(t) && SingleRow(best) && x.user == best.user && x.plan == best.plan && !IsActive(x) && OlderThan(x, best)
    ensures BalanceStored(t, best) ==> BalanceStored(Upserted(t, x), best)
  {
    if i :| i in t.rows && IsBalanceOf(t.rows[i], best) {
      NotActive(x);
      assert i in PlanRows(t.rows, x);
      assert Found(t.rows, x) == Some(i);
      assert Stale(x, t.rows[i]);
      assert Upserted(t, x).rows[i] == t.rows[i];
    }
  }

  /** A purchase that is not active puts no active row under its plan code. */
  lemma OlderTakesNoCode(t: Table, x: Item, best: Item)
    requires Inv(t) && !IsActive(x) && PlanCodeFree(t, best)
    ensures PlanCodeFree(Upserted(t, x), best)
  {
    NotActive(x);
    var t' := Upserted(t, x);
    forall j | j in t'.rows && Active(t'.rows[j]) ensures j in t.rows && t'.rows[j] == t.rows[j] {
      assert !Active(PlanInsert(x));
    }
  }

  /** A purchase of another plan touches neither the balance row nor the plan code. */
  lemma OtherPlanLeavesBalance(t: Table, x: Item, best: Item, i: Id)
    requires Inv(t) && SingleRow(best) && x.user == best.user && x.plan != best.plan
    requires !(SingleRow(x) && GroupText(x) == GroupText(best))
    requires i in t.rows && IsBalanceOf(t.rows[i], best)
    ensures i in Upserted(t, x).rows && IsBalanceOf(Upserted(t, x).rows[i], best)
  {
    UntouchedRow(t, x, i);
  }

  /** An upsert leaves alone an active row of another plan that is not its target and no subscription. */
  lemma UntouchedRow(t: Table, x: Item, i: Id)
    requires Inv(t) && i in t.rows && Active(t.rows[i]) && t.rows[i].plan != x.plan && i !in Targets(t.rows, x)
    requires t.rows[i].group.Some? && !Unlimited(t.rows[i].group)
    ensures i in Upserted(t, x).rows && Upserted(t, x).rows[i] == t.rows[i]
  {
  }

  lemma OtherPlanTakesNoCode(t: Table, x: Item, best: Item)
    requires Inv(t) && SingleRow(best) && x.user == best.user && x.plan != best.plan && PlanCodeFree(t, best)
    ensures PlanCodeFree(Upserted(t, x), best)
  {
    var t' := Upserted(t, x);
    forall j | j in t'.rows && t'.rows[j].plan == best.plan && Active(t'.rows[j])
      ensures j in t.rows && t'.rows[j] == t.rows[j]
    {
      ActiveRowIsOld(t, x, j);
    }
  }

  /** Of an upsert's own row the plan is the purchase's; every other active row is an old one. */
  lemma ActiveRowIsOld(t: Table, x: Item, j: Id)
    requires Inv(t) && j in Upserted(t, x).rows && Active(Upserted(t, x).rows[j]) && Upserted(t, x).rows[j].plan != x.plan
    ensures j in t.rows && Upserted(t, x).rows[j] == t.rows[j]
  {
  }

  lemma BalanceIdStaysOwned(t: Table, x: Item, best: Item)
    requires Inv(t) && SupersedesBalance(t.plans, best, [x]) && PlanCodeFree(t, best) && BalanceIdOwned(t, best)
    ensures BalanceIdOwned(Upserted(t, x), best)
  {
    assert x in [x];
    if best.id.Some? && Commits(t, x) {
      var i, t', found := best.id.value, Upserted(t, x), Found(t.rows, x);
      if found.None? {
        CommittedInsertFits(t, x);
      } else if found == Some(i) && SingleRow(x) {
        assert HoldsActive(t.rows[i], GroupText(x)) && HoldsActive(t.rows[i], GroupText(best));
      }
    }
  }

  lemma CommittedInsertFits(t: Table, x: Item)
    requires Inv(t) && Commits(t, x) && Found(t.rows, x).None?
    ensures Fits(t.plans, x)
  {
    if SingleRow(x) {
      SinglePathCommitsIff(t, x);
    } else {
      PlanPathCommitsIff(t, x);
    }
  }

  lemma OwnedBalanceFits(t: Table, best: Item)
    requires Inv(t) && SingleRow(best) && Fits(t.plans, best) && PlanCodeFree(t, best) && BalanceIdOwned(t, best)
    ensures SingleFits(t, best)
  {
    if best.id.Some? && best.id.value in t.rows && Active(t.rows[best.id.value]) {
      assert best.id.value in BalanceRows(t.rows, best.user, GroupText(best));
    }
  }

  /** An active balance purchase whose values fit and whose id is its own ends up stored with its
      balance whatever the order, unless an active row of another group already holds its plan code. */
  lemma {:induction false} BalanceSyncOrderIsIrrelevant(t: Table, best: Item, items: seq<Item>)
    requires Inv(t) && SupersedesBalance(t.plans, best, items) && PlanCodeFree(t, best) && BalanceIdOwned(t, best)
    requires best in items || BalanceStored(t, best)
    ensures BalanceStored(Synced(t, items), best)
    decreases |items|
  {
    if items != [] {
      var x := items[0];
      assert x in items;
      UpsertKeepsInv(t, x);
      BalanceStep(t, x, best);
      BalanceIdStaysOwned(t, x, best);
      BalanceSyncOrderIsIrrelevant(Upserted(t, x), best, items[1..]);
    }
  }

  lemma BalanceStep(t: Table, x: Item, best: Item)
    requires Inv(t) && SupersedesBalance(t.plans, best, [x]) && PlanCodeFree(t, best) && BalanceIdOwned(t, best)
    ensures PlanCodeFree(Upserted(t, x), best)
    ensures x == best || BalanceStored(t, best) ==> BalanceStored(Upserted(t, x), best)
  {
    assert x in [x];
    if x == best {
      OwnedBalanceFits(t, best);
      BalanceUpserted(t, best);
    } else if x.user != best.user {
      if BalanceStored(t, best) {
        OthersLeaveItStored(t, x, best);
      }
      OthersTakeNoCode(t, x, best);
    } else if x.plan == best.plan {
      OlderIsStale(t, x, best);
      OlderTakesNoCode(t, x, best);
    } else {
      if i :| i in t.rows && IsBalanceOf(t.rows[i], best) {
        OtherPlanLeavesBalance(t, x, best, i);
      }
      OtherPlanTakesNoCode(t, x, best);
    }
  }

  /** For instance an ended purchase whose start is unknown, or the same as that of the active one:
      synced after it, it overwrites. */
  lemma UnknownStartOverwrites(t: Table, best: Item, x: Item)
    requires Inv(t) && ActivePlan(best) && SamePlan(x, best) && !IsActive(x)
    requires (x.start.None? || x.start == best.start) && OrZero(x.credit) >= 0 && OrZero(x.payg) >= 0
    ensures !StoredIs(Synced(t, [best, x]), best)
  {
    var t1 := Upserted(t, best);
    UpsertKeepsInv(t, best);
    TwoUpserts(t, best, x);
    if StoredIs(t1, best) {
      EndedPurchaseKeepsIff(t1, best, x);
    } else {
      NotActive(x);
      UpsertStoresNoOther(t1, x, best);
    }
  }

  /** A purchase that keeps the id of a stored row and changes its plan is refused, unless the new
      plan has a row of its own. */
  lemma SameIdOtherPlanIff(t: Table, x: Item)
    requires Inv(t) && Complete(x) && !SingleRow(x) && Fits(t.plans, x)
    requires x.id.Some? && x.id.value in t.rows && t.rows[x.id.value].plan != x.plan
    ensures Commits(t, x) <==> PlanRows(t.rows, x) != {}
    ensures PlanRows(t.rows, x) == {} ==> Upserted(t, x) == t
  {
    PlanPathCommitsIff(t, x);
  }
}
