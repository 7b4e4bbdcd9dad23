/**
  Which modules a tenant has and what it pays (web_business_subscription_api.go, web_modules_api.go,
  web_modules_price_api.go).  Money is in cents.  An SQL statement is one step on the tenant's rows.
 */
module Entitlements {
  import opened Common

  datatype Source = Plan | Manual | Upgrade

  /** A row of tenant_modules. */
  datatype Row = Row(enabled: bool, source: Source, monthly: int, yearly: int, priceOverride: bool)

  type Rows = map<string, Row>

  /** A row of modules. */
  datatype Module = Module(active: bool, monthly: int, yearly: int)

  datatype Price = Price(active: bool, monthly: int, yearly: int)

  datatype PlanKey = PlanKey(business: string, plan: string)

  /** `matrix`, `planModules`: business_plan_matrix and business_plan_modules; `plans`: the older plans table. */
  datatype Catalog = Catalog(
    modules: map<string, Module>, matrix: map<PlanKey, Price>, planModules: map<PlanKey, set<string>>,
    plans: map<string, Price>)

  datatype Subscription = Subscription(
    plan: string, status: string, yearly: bool, base: int, addons: int, amount: int)

  // ---------------------------------------------------------------- assigning a plan

  function ModulesOf(cat: Catalog, k: PlanKey): set<string> {
    if k in cat.planModules then cat.planModules[k] else {}
  }

  /** The modules a plan switches on: those of the business's plan that are active in the catalog. */
  function Included(cat: Catalog, k: PlanKey): (ids: set<string>)
    ensures ids <= cat.modules.Keys
  {
    set id | id in ModulesOf(cat, k) && id in cat.modules && cat.modules[id].active
  }

  /** "Only previous plan-owned modules are disabled." */
  function WithoutPlanRows(rows: Rows): Rows {
    map id | id in rows :: if rows[id].source.Plan? then rows[id].(enabled := false) else rows[id]
  }

  function PlanUpsert(row: Option<Row>, m: Module): Row {
    match row
    case None => Row(true, Plan, m.monthly, m.yearly, false)
    case Some(r) =>
      r.(enabled := true,
         monthly := if r.priceOverride then r.monthly else m.monthly,
         yearly := if r.priceOverride then r.yearly else m.yearly)
  }

  function Find(rows: Rows, id: string): Option<Row> {
    if id in rows then Some(rows[id]) else None
  }

  function Assigned(cat: Catalog, rows: Rows, ids: set<string>): Rows
    requires ids <= cat.modules.Keys
  {
    var off := WithoutPlanRows(rows);
    map id | id in off.Keys + ids ::
      if id in ids then PlanUpsert(Find(off, id), cat.modules[id]) else off[id]
  }

  predicate On(rows: Rows, id: string) {
    id in rows && rows[id].enabled
  }

  /** The row does not belong to the plan, so plan changes leave its switch and source alone. */
  predicate Owned(rows: Rows, id: string) {
    id in rows && !rows[id].source.Plan?
  }

  // ---------------------------------------------------------------- the amount

  predicate InPlan(cat: Catalog, business: string, plan: string, id: string) {
    business != "" && plan != "" && id in ModulesOf(cat, PlanKey(business, plan))
  }

  /** A snapshot of 0 falls back to the catalog price. */
  function ChargeOf(row: Row, m: Module, yearly: bool): int {
    if yearly then (if row.yearly != 0 then row.yearly else m.yearly)
    else (if row.monthly != 0 then row.monthly else m.monthly)
  }

  predicate Billable(cat: Catalog, business: string, plan: string, rows: Rows, id: string) {
    On(rows, id) && Owned(rows, id) && id in cat.modules && !InPlan(cat, business, plan, id)
  }

  /** What one module adds to the amount. */
  function Contribution(cat: Catalog, business: string, sub: Subscription, rows: Rows, id: string): int {
    if Billable(cat, business, sub.plan, rows, id) then ChargeOf(rows[id], cat.modules[id], sub.yearly) else 0
  }

  /** The rows the add-on query selects, each with its charge. */
  function Charges(cat: Catalog, business: string, sub: Subscription, rows: Rows): map<string, int> {
    map id | id in rows && Billable(cat, business, sub.plan, rows, id) ::
      ChargeOf(rows[id], cat.modules[id], sub.yearly)
  }

  ghost function Total(m: map<string, int>): int {
    if m == map[] then 0
    else
      var id :| id in m;
      m[id] + Total(m - {id})
  }

  ghost function Addons(cat: Catalog, business: string, sub: Subscription, rows: Rows): int {
    Total(Charges(cat, business, sub, rows))
  }

  function PriceFor(p: Price, yearly: bool): int {
    if yearly then p.yearly else p.monthly
  }

  function BusinessPlanPrice(cat: Catalog, business: string, plan: string, yearly: bool): Option<int> {
    var k := PlanKey(business, plan);
    if k in cat.matrix && cat.matrix[k].active then Some(PriceFor(cat.matrix[k], yearly)) else None
  }

  /** The matrix price, else the older table's price, else nothing. */
  function BaseAmount(cat: Catalog, business: string, plan: string, yearly: bool): int {
    if plan == "" then 0
    else
      var p := if business != "" then BusinessPlanPrice(cat, business, plan, yearly) else None;
      if p.Some? then p.value
      else if plan in cat.plans && cat.plans[plan].active then PriceFor(cat.plans[plan], yearly)
      else 0
  }

  const NoSubscription := Subscription("", "active", false, 0, 0, 0)

  function Current(sub: Option<Subscription>): Subscription {
    if sub.Some? then sub.value else NoSubscription
  }

  ghost function Recalculated(cat: Catalog, business: string, sub: Option<Subscription>, rows: Rows): Subscription {
    var s := Current(sub);
    var base := BaseAmount(cat, business, s.plan, s.yearly);
    var addons := Addons(cat, business, s, rows);
    s.(base := base, addons := addons, amount := base + addons)
  }

  function SavedSubscription(sub: Option<Subscription>, plan: string, status: string, yearly: bool,
                          price: int): Subscription {
    match sub
    case None => Subscription(plan, status, yearly, price, 0, price)
    case Some(s) => Subscription(plan, status, yearly, price, s.addons, price)
  }

  // ---------------------------------------------------------------- changing one module

  function Toggled(row: Option<Row>, m: Module, enabled: bool, source: Source): Row {
    match row
    case None => Row(enabled, source, m.monthly, m.yearly, false)
    case Some(r) =>
      Row(enabled, source,
          if r.priceOverride then r.monthly else m.monthly,
          if r.priceOverride then r.yearly else m.yearly, r.priceOverride)
  }

  function Repriced(row: Option<Row>, monthly: int, yearly: int): Row {
    match row
    case None => Row(false, Manual, monthly, yearly, true)
    case Some(r) => r.(monthly := monthly, yearly := yearly, priceOverride := true)
  }

  // ---------------------------------------------------------------- one tenant's rows and the requests on them

  datatype Failure =
    | InvalidStatus | CustomPlan | InvalidPlan | BusinessNotFound | PlanNotFound | SaveFailed
    | ModuleNotFound | InvalidPrice | RecalculateFailed

  const Statuses := {"trial", "active", "past_due", "cancelled", "expired", "manual"}
  const Plans := {"starter", "pro", "enterprise"}

  /** The SUM of the add-on query. */
  method SumQuery(charges: map<string, int>) returns (total: int)
    ensures total == Total(charges)
  {
    total := 0;
    var rest := charges;
    while rest != map[]
      invariant total + Total(rest) == Total(charges)
      decreases |rest|
    {
      var id :| id in rest;
      TotalSplit(rest, id);
      total := total + rest[id];
      rest := rest - {id};
    }
  }

  class Tenant {
    var rows: Rows
    var subscription: Option<Subscription>

    /** `business` is what the tenant id resolves to, or "" when it resolves to nothing. */
    method Recalculate(cat: Catalog, business: string, dbOk: bool) returns (ok: bool)
      modifies this`subscription
      ensures ok == dbOk
      ensures !ok ==> subscription == old(subscription)
      ensures ok ==> subscription == Some(Recalculated(cat, business, old(subscription), rows))
      ensures ok && old(subscription).None? ==>
                var s := subscription.value;
                s.plan == "" && s.status == "active" && !s.yearly && s.base == 0 && s.amount == s.addons
      ensures ok && old(subscription).Some? ==>
                var s, was := subscription.value, old(subscription).value;
                s.plan == was.plan && s.status == was.status && s.yearly == was.yearly && s.amount == s.base + s.addons
    {
      var s := Current(subscription);
      var base := BaseAmount(cat, business, s.plan, s.yearly);
      var addons := SumQuery(Charges(cat, business, s, rows));
      if !dbOk {
        return false;
      }
      subscription := Some(s.(base := base, addons := addons, amount := base + addons));
      return true;
    }

    /**
      `requested` is the business resolved from the request's identifiers, `business` the one resolved from
      the tenant id alone; `txOk` is false if the transaction fails anywhere, `recalcOk` if the totals do.
     */
    method SavePlan(cat: Catalog, requested: Option<string>, business: string, plan: string, status: string,
                    yearly: bool, txOk: bool, recalcOk: bool) returns (r: Result<(), Failure>)
      modifies this
      ensures r.Err? && r.error != RecalculateFailed ==> rows == old(rows) && subscription == old(subscription)
      ensures var price := if requested.Some? then BusinessPlanPrice(cat, requested.value, plan, yearly) else None;
              var s := if status == "" then "active" else status;
              && (r.Ok? || r.error == RecalculateFailed <==>
                    txOk && s in Statuses && plan in Plans && requested.Some? && requested.value != "" && price.Some?)
              && (r.Ok? || r.error == RecalculateFailed ==>
                    rows == Assigned(cat, old(rows), Included(cat, PlanKey(requested.value, plan))))
              && (r.Err? && r.error == RecalculateFailed ==>
                    subscription == Some(SavedSubscription(old(subscription), plan, s, yearly, price.value)))
              && (r.Ok? ==>
                    subscription == Some(Recalculated(cat, business,
                      Some(SavedSubscription(old(subscription), plan, s, yearly, price.value)), rows)))
      ensures r.Ok? ==> recalcOk
      ensures r.Ok? || r.error == RecalculateFailed ==>
                var k := PlanKey(requested.value, plan);
                forall id :: id in rows && rows[id].enabled <==>
                  || (k in cat.planModules && id in cat.planModules[k] && id in cat.modules && cat.modules[id].active)
                  || (id in old(rows) && old(rows)[id].enabled && old(rows)[id].source in {Manual, Upgrade})
      ensures r.Ok? || r.error == RecalculateFailed ==>
                && plan in {"starter", "pro", "enterprise"}
                && subscription.Some? && subscription.value.plan == plan && subscription.value.yearly == yearly
                && subscription.value.status == (if status == "" then "active" else status)
                && subscription.value.status in {"trial", "active", "past_due", "cancelled", "expired", "manual"}
      ensures r.Ok? && business == requested.value ==>
                var k := PlanKey(business, plan);
                && k in cat.matrix && cat.matrix[k].active
                && subscription.value.base == (if yearly then cat.matrix[k].yearly else cat.matrix[k].monthly)
      ensures r.Err? && r.error == RecalculateFailed ==>
                var k := PlanKey(requested.value, plan);
                && k in cat.matrix && cat.matrix[k].active
                && subscription.value.base == (if yearly then cat.matrix[k].yearly else cat.matrix[k].monthly)
                && subscription.value.amount == subscription.value.base
                && subscription.value.addons == (if old(subscription).None? then 0 else old(subscription).value.addons)
    {
      var s := if status == "" then "active" else status;
      if s !in Statuses {
        return Err(InvalidStatus);
      }
      if plan == "custom" {
        return Err(CustomPlan);
      }
      if plan !in Plans {
        return Err(InvalidPlan);
      }
      if requested.None? || requested.value == "" {
        return Err(BusinessNotFound);
      }
      var price := BusinessPlanPrice(cat, requested.value, plan, yearly);
      if price.None? {
        return Err(PlanNotFound);
      }
      if !txOk {
        return Err(SaveFailed);
      }
      subscription := Some(SavedSubscription(subscription, plan, s, yearly, price.value));
      rows := Assigned(cat, rows, Included(cat, PlanKey(requested.value, plan)));
      var ok := Recalculate(cat, business, recalcOk);
      if !ok {
        return Err(RecalculateFailed);
      }
      return Ok(());
    }

    /** A failed recalculation is reported as a warning here, not as an error. */
    method UpdateModule(cat: Catalog, business: string, id: string, enabled: bool, source: Source,
                        dbOk: bool, recalcOk: bool) returns (r: Result<bool, Failure>)
      modifies this
      ensures r.Err? ==> rows == old(rows) && subscription == old(subscription)
      ensures r.Ok? <==> id in cat.modules && cat.modules[id].active && dbOk
      ensures r.Ok? ==> rows == old(rows)[id := Toggled(Find(old(rows), id), cat.modules[id], enabled, source)]
      ensures r.Ok? ==>
                && id in rows && rows[id].enabled == enabled && rows[id].source == source
                && rows[id].priceOverride == (id in old(rows) && old(rows)[id].priceOverride)
                && (if id in old(rows) && old(rows)[id].priceOverride
                    then rows[id].monthly == old(rows)[id].monthly && rows[id].yearly == old(rows)[id].yearly
                    else rows[id].monthly == cat.modules[id].monthly && rows[id].yearly == cat.modules[id].yearly)
      ensures r.Ok? ==> r.value == recalcOk
      ensures r.Ok? && recalcOk ==> subscription == Some(Recalculated(cat, business, old(subscription), rows))
      ensures r.Ok? && !recalcOk ==> subscription == old(subscription)
    {
      if id !in cat.modules || !cat.modules[id].active {
        return Err(ModuleNotFound);
      }
      if !dbOk {
        return Err(SaveFailed);
      }
      rows := rows[id := Toggled(Find(rows, id), cat.modules[id], enabled, source)];
      var ok := Recalculate(cat, business, recalcOk);
      return Ok(ok);
    }

    method UpdatePrice(cat: Catalog, business: string, id: string, monthly: int, yearly: int,
                       dbOk: bool, recalcOk: bool) returns (r: Result<(), Failure>)
      modifies this
      ensures r.Err? && r.error != RecalculateFailed ==> rows == old(rows) && subscription == old(subscription)
      ensures r.Ok? || r.error == RecalculateFailed <==>
                monthly >= 0 && yearly >= 0 && id in cat.modules && cat.modules[id].active && dbOk
      ensures r.Ok? || r.error == RecalculateFailed ==>
                rows == old(rows)[id := Repriced(Find(old(rows), id), monthly, yearly)]
      ensures r.Ok? || r.error == RecalculateFailed ==>
                && id in rows && rows[id].monthly == monthly && rows[id].yearly == yearly && rows[id].priceOverride
                && rows[id].enabled == (id in old(rows) && old(rows)[id].enabled)
                && rows[id].source == (if id in old(rows) then old(rows)[id].source else Manual)
      ensures r.Ok? ==> recalcOk && subscription == Some(Recalculated(cat, business, old(subscription), rows))
      ensures r.Err? ==> subscription == old(subscription)
    {
      if monthly < 0 || yearly < 0 {
        return Err(InvalidPrice);
      }
      if id !in cat.modules || !cat.modules[id].active {
        return Err(ModuleNotFound);
      }
      if !dbOk {
        return Err(SaveFailed);
      }
      rows := rows[id := Repriced(Find(rows, id), monthly, yearly)];
      var ok := Recalculate(cat, business, recalcOk);
      if !ok {
        return Err(RecalculateFailed);
      }
      return Ok(());
    }
  }

  // ---------------------------------------------------------------- what a plan assignment means

  /** A module is on afterwards iff the plan includes it or it was on and not owned by a plan. */
  lemma EnabledAfterAssignment(cat: Catalog, rows: Rows, ids: set<string>, id: string)
    requires ids <= cat.modules.Keys
    ensures On(Assigned(cat, rows, ids), id) <==> id in ids || (On(rows, id) && Owned(rows, id))
  {
  }

  /** Sources other than plan, overridden prices and rows outside the plan survive; nothing is deleted. */
  lemma AssignmentKeeps(cat: Catalog, rows: Rows, ids: set<string>, id: string)
    requires ids <= cat.modules.Keys && id in rows
    ensures id in Assigned(cat, rows, ids)
    ensures var r, r' := rows[id], Assigned(cat, rows, ids)[id];
            && r'.source == r.source && r'.priceOverride == r.priceOverride
            && (r.priceOverride || id !in ids ==> r'.monthly == r.monthly && r'.yearly == r.yearly)
            && (!r.priceOverride && id in ids ==>
                  r'.monthly == cat.modules[id].monthly && r'.yearly == cat.modules[id].yearly)
  {
  }

  /** A module the tenant did not have is on afterwards, owned by the plan, at its catalog prices. */
  lemma AssignmentAdds(cat: Catalog, rows: Rows, ids: set<string>, id: string)
    requires ids <= cat.modules.Keys && id !in rows
    ensures id in Assigned(cat, rows, ids) <==> id in ids
    ensures id in ids ==>
              Assigned(cat, rows, ids)[id] == Row(true, Plan, cat.modules[id].monthly, cat.modules[id].yearly, false)
  {
  }

  lemma AssigningTwiceIsOnce(cat: Catalog, rows: Rows, ids: set<string>)
    requires ids <= cat.modules.Keys
    ensures Assigned(cat, Assigned(cat, rows, ids), ids) == Assigned(cat, rows, ids)
  {
    var once := Assigned(cat, rows, ids);
    var twice := Assigned(cat, once, ids);
    assert twice.Keys == once.Keys;
    forall id | id in once
      ensures twice[id] == once[id]
    {
    }
  }

  /** A switched-off manual or upgrade module that the earlier plan includes and the later one does not. */
  predicate Leaks(rows: Rows, before: set<string>, after: set<string>, id: string) {
    id in before && id !in after && Owned(rows, id) && !rows[id].enabled
  }

  /**
    Going through another plan first makes no difference to the modules that end up on, if and only if that
    plan includes no manual or upgrade module that was switched off.
   */
  lemma EarlierPlanLeavesNoTrace(cat: Catalog, rows: Rows, before: set<string>, after: set<string>)
    requires before <= cat.modules.Keys && after <= cat.modules.Keys
    ensures (forall id :: On(Assigned(cat, Assigned(cat, rows, before), after), id)
                          <==> On(Assigned(cat, rows, after), id))
            <==> (forall id :: !Leaks(rows, before, after, id))
  {
    var mid := Assigned(cat, rows, before);
    forall id
      ensures On(Assigned(cat, mid, after), id) == On(Assigned(cat, rows, after), id)
              <==> !Leaks(rows, before, after, id)
    {
      EnabledAfterAssignment(cat, mid, after, id);
      EnabledAfterAssignment(cat, rows, after, id);
      EnabledAfterAssignment(cat, rows, before, id);
    }
  }

  // ---------------------------------------------------------------- sums over rows

  /** The total does not depend on the order in which rows are picked. */
  lemma {:induction false} TotalSplit(m: map<string, int>, id: string)
    requires id in m
    ensures Total(m) == m[id] + Total(m - {id})
    decreases |m|
  {
    var first :| first in m && Total(m) == m[first] + Total(m - {first});
    if first != id {
      TotalSplit(m - {first}, id);
      TotalSplit(m - {id}, first);
      assert m - {first} - {id} == m - {id} - {first};
    }
  }

  lemma TotalWithout(m: map<string, int>, id: string)
    ensures Total(m) == (if id in m then m[id] else 0) + Total(m - {id})
  {
    if id in m {
      TotalSplit(m, id);
    } else {
      assert m - {id} == m;
    }
  }

  /** Two row maps that differ in one module differ in the add-ons by that module's contribution alone. */
  lemma OneModuleChanges(cat: Catalog, business: string, sub: Subscription, rows: Rows, rows': Rows, id: string)
    requires rows - {id} == rows' - {id}
    ensures Addons(cat, business, sub, rows') - Addons(cat, business, sub, rows)
         == Contribution(cat, business, sub, rows', id) - Contribution(cat, business, sub, rows, id)
  {
    var c, c' := Charges(cat, business, sub, rows), Charges(cat, business, sub, rows');
    assert c - {id} == c' - {id} by {
      forall k | k != id
        ensures k in c <==> k in c'
        ensures k in c ==> c[k] == c'[k]
      {
        assert k in rows - {id} <==> k in rows;
        assert k in rows' - {id} <==> k in rows';
        if k in rows {
          assert rows[k] == (rows - {id})[k] == (rows' - {id})[k] == rows'[k];
        }
      }
    }
    TotalWithout(c, id);
    TotalWithout(c', id);
  }

  // ---------------------------------------------------------------- the amount after each request

  /** Every recalculation leaves amount = base + add-ons, and a second one changes nothing. */
  lemma RecalculationIsAFixpoint(cat: Catalog, business: string, sub: Option<Subscription>, rows: Rows)
    ensures var s := Recalculated(cat, business, sub, rows);
            && s.amount == s.base + s.addons
            && s.base == BaseAmount(cat, business, s.plan, s.yearly)
            && s.addons == Addons(cat, business, s, rows)
            && Recalculated(cat, business, Some(s), rows) == s
  {
    var s := Recalculated(cat, business, sub, rows);
    assert Charges(cat, business, s, rows) == Charges(cat, business, Current(sub), rows);
  }

  /**
    The base of a recalculated amount: the active matrix row of the tenant's business decides by its column for the
    billing cycle, else an active row of the older table; without either, or without a plan, it is 0.
   */
  lemma BaseIs(cat: Catalog, business: string, plan: string, yearly: bool)
    ensures var k := PlanKey(business, plan);
            var matrix := business != "" && k in cat.matrix && cat.matrix[k].active;
            var older := plan in cat.plans && cat.plans[plan].active;
            && (plan != "" && matrix && yearly ==> BaseAmount(cat, business, plan, yearly) == cat.matrix[k].yearly)
            && (plan != "" && matrix && !yearly ==> BaseAmount(cat, business, plan, yearly) == cat.matrix[k].monthly)
            && (plan != "" && !matrix && older && yearly ==>
                  BaseAmount(cat, business, plan, yearly) == cat.plans[plan].yearly)
            && (plan != "" && !matrix && older && !yearly ==>
                  BaseAmount(cat, business, plan, yearly) == cat.plans[plan].monthly)
            && (plan == "" || (!matrix && !older) ==> BaseAmount(cat, business, plan, yearly) == 0)
  {
  }

  /** Any change of one row moves the recalculated amount by that module's change in contribution. */
  lemma AmountMovesByContribution(cat: Catalog, business: string, sub: Subscription, rows: Rows, id: string, row: Row)
    requires sub == Recalculated(cat, business, Some(sub), rows)
    ensures Recalculated(cat, business, Some(sub), rows[id := row]).amount
         == sub.amount + Contribution(cat, business, sub, rows[id := row], id)
                       - Contribution(cat, business, sub, rows, id)
  {
    assert rows[id := row] - {id} == rows - {id};
    OneModuleChanges(cat, business, sub, rows, rows[id := row], id);
  }

  /**
    What a row costs where the module was off: nothing if it is off, owned by the plan, unknown to the catalog or
    included in the plan of the tenant's business, else its saved price for the billing cycle, or the catalog's
    where that is 0.
   */
  lemma RowCosts(cat: Catalog, business: string, sub: Subscription, rows: Rows, id: string, row: Row)
    requires sub == Recalculated(cat, business, Some(sub), rows) && (id in rows ==> !rows[id].enabled)
    ensures var k := PlanKey(business, sub.plan);
            var included := business != "" && sub.plan != "" && k in cat.planModules && id in cat.planModules[k];
            var cost := Recalculated(cat, business, Some(sub), rows[id := row]).amount - sub.amount;
            if !row.enabled || row.source == Plan || id !in cat.modules || included then cost == 0
            else if sub.yearly then cost == if row.yearly != 0 then row.yearly else cat.modules[id].yearly
            else cost == if row.monthly != 0 then row.monthly else cat.modules[id].monthly
  {
    AmountMovesByContribution(cat, business, sub, rows, id, row);
  }

  /** A saved price is the price charged, unless it is 0 and the catalog price is not. */
  lemma ChargedPriceIffNonzero(row: Option<Row>, m: Module, monthly: int, yearly: int, cycle: bool)
    ensures var asked := if cycle then yearly else monthly;
            var listed := if cycle then m.yearly else m.monthly;
            ChargeOf(Repriced(row, monthly, yearly), m, cycle) == asked <==> asked != 0 || listed == 0
  {
  }

  /** Modules of the assigned plan are free and every other one that is on is charged. */
  lemma PlanModulesAreFree(cat: Catalog, business: string, sub: Subscription, rows: Rows, id: string)
    requires business != "" && sub.plan != ""
    ensures var ids := Included(cat, PlanKey(business, sub.plan));
            var rows' := Assigned(cat, rows, ids);
            && (id in ids ==> On(rows', id) && Contribution(cat, business, sub, rows', id) == 0)
            && (Billable(cat, business, sub.plan, rows', id) <==>
                  On(rows, id) && Owned(rows, id) && id in cat.modules
                  && id !in ModulesOf(cat, PlanKey(business, sub.plan)))
  {
    EnabledAfterAssignment(cat, rows, Included(cat, PlanKey(business, sub.plan)), id);
  }

  /**
    When the plan is saved but the totals are not, the row still says amount = base + add-ons if and only if
    the tenant had no add-ons before.
   */
  lemma SavedAmountIsConsistentIff(sub: Option<Subscription>, plan: string, status: string, yearly: bool, price: int)
    ensures var s := SavedSubscription(sub, plan, status, yearly, price);
            s.amount == s.base + s.addons <==> Current(sub).addons == 0
  {
  }
}
