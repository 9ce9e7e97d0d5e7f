/** `POST /api/analytics` (app/api/analytics/route.ts): the margin calculator. Each posted item
    is priced with the store's `getCostPrice`, its actual margin compared with the item's
    expected one, and the answer carries the items, a summary and three lists of insights.
    Nothing is saved. */
module Analytics {
  import opened Wrappers
  import opened Cells
  import opened Money
  import opened Grouping
  import opened Sorting
  import ApiDb

  /** One element of the posted `items` array; each field is whatever JSON value was sent,
      `Absent` when it was missing or null. */
  datatype RequestItem = RequestItem(itemName: Cell, quantity: Cell, netAmount: Cell, tax: Cell)

  /** An element of `calculatedItems`. */
  datatype Calculated = Calculated(
    itemName: string, quantity: real, netAmount: real, tax: real, costPrice: real,
    expectedMargin: real, totalCost: real, profit: real, actualMargin: real, marginDiff: real)

  function NetOf(c: Calculated): real { c.netAmount }
  function CostOf(c: Calculated): real { c.totalCost }
  function TaxOf(c: Calculated): real { c.tax }
  function QuantityOf(c: Calculated): real { c.quantity }
  function ProfitOf(c: Calculated): real { c.profit }

  /** An item named `name` with these figures, priced at `info`: its cost is the unit cost
      times the quantity, its profit what the net amount leaves after that cost, its actual
      margin that profit as a percentage of the net amount to one decimal, and its margin
      difference the shortfall against the expected margin. */
  function Priced(info: ApiDb.CostInfo, name: string, quantity: real, netAmount: real, tax: real): (c: Calculated)
    ensures c.itemName == name && c.quantity == quantity && c.netAmount == netAmount && c.tax == tax
    ensures c.costPrice == info.costPrice && c.expectedMargin == info.marginPercent
    ensures c.totalCost == c.costPrice * c.quantity && c.profit + c.totalCost == c.netAmount
    ensures c.actualMargin == OneDecimalMargin(c.profit, c.netAmount)
    ensures c.marginDiff == c.actualMargin - c.expectedMargin
  {
    var totalCost := info.costPrice * quantity;
    var actualMargin := OneDecimalMargin(netAmount - totalCost, netAmount);
    Calculated(name, quantity, netAmount, tax, info.costPrice, info.marginPercent,
               totalCost, netAmount - totalCost, actualMargin, actualMargin - info.marginPercent)
  }

  /** The `map` callback: the figures read with `Number(x) || 0` and priced at the store's
      answer `info` for the name. */
  function Calculate(info: ApiDb.CostInfo, name: string, item: RequestItem): (c: Calculated)
    ensures c == Priced(info, name, c.quantity, c.netAmount, c.tax)
    ensures item.quantity.Num? ==> c.quantity == item.quantity.n
    ensures item.netAmount.Num? ==> c.netAmount == item.netAmount.n
    ensures item.tax.Num? ==> c.tax == item.tax.n
    ensures item.quantity.Absent? ==> c.quantity == 0.0
    ensures item.netAmount.Absent? ==> c.netAmount == 0.0
    ensures item.tax.Absent? ==> c.tax == 0.0
  {
    var quantity, netAmount, tax := NumberOr0(item.quantity), NumberOr0(item.netAmount), NumberOr0(item.tax);
    Priced(info, name, quantity, netAmount, tax)
  }

  /** A figure sent as text is read with `Number(text) || 0`. */
  lemma CalculateReadsText(info: ApiDb.CostInfo, name: string, item: RequestItem)
    ensures var c := Calculate(info, name, item);
            (item.quantity.Str? ==> c.quantity == StringToNumber(item.quantity.s)) &&
            (item.netAmount.Str? ==> c.netAmount == StringToNumber(item.netAmount.s)) &&
            (item.tax.Str? ==> c.tax == StringToNumber(item.tax.s))
  {
  }

  /** `getCostPrice` lower-cases the name, so each name must be a string. */
  predicate AllNamed(items: seq<RequestItem>) {
    forall i :: 0 <= i < |items| ==> items[i].itemName.Str?
  }

  /** `db.getCostPrice` over the store's inventory `inv`. */
  function Pricing(inv: seq<ApiDb.InventoryItem>): string -> ApiDb.CostInfo {
    (name: string) => ApiDb.CostPrice(inv, name)
  }

  /** The item's name when it is a string. */
  function NameOf(item: RequestItem): string {
    if item.itemName.Str? then item.itemName.s else ""
  }

  /** The callback of `items.map(...)`, each item priced by `cost` (`Pricing` of the store's
      inventory). */
  function Calculator(cost: string -> ApiDb.CostInfo): RequestItem -> Calculated {
    (item: RequestItem) => Calculate(cost(NameOf(item)), NameOf(item), item)
  }

  /** More than 10 points below the expected margin. */
  predicate HasMarginIssue(c: Calculated) { c.marginDiff < -10.0 }

  /** An actual margin under 40 percent. */
  predicate IsLowMargin(c: Calculated) { c.actualMargin < 40.0 }

  /** The three shapes of the insight lists. */
  datatype MarginIssue = MarginIssue(itemName: string, expectedMargin: real, actualMargin: real)
  datatype TopItem = TopItem(itemName: string, profit: real, margin: real)
  datatype LowMargin = LowMargin(itemName: string, margin: real)

  function IssueOf(c: Calculated): MarginIssue { MarginIssue(c.itemName, c.expectedMargin, c.actualMargin) }
  function TopOf(c: Calculated): TopItem { TopItem(c.itemName, c.profit, c.actualMargin) }
  function LowOf(c: Calculated): LowMargin { LowMargin(c.itemName, c.actualMargin) }

  datatype Summary = Summary(
    totalItems: nat, totalOrders: real, totalRevenue: real, totalCost: real,
    totalProfit: real, totalTax: real, netMargin: real)

  datatype Insights = Insights(
    marginIssuesCount: nat, marginIssues: seq<MarginIssue>,
    topProfitItems: seq<TopItem>, lowMarginItems: seq<LowMargin>)

  /** The answer: the calculation, a refusal with a status and message, or the 500 of the
      `TypeError` thrown when some item name is not a string (its message is the engine's). */
  datatype Response = Success(items: seq<Calculated>, summary: Summary, insights: Insights)
                    | Failure(status: nat, error: string)
                    | Crashed

  /** The summary, computed before the sort. */
  function SummaryOf(cs: seq<Calculated>): Summary {
    var revenue, cost := Sum(cs, NetOf), Sum(cs, CostOf);
    Summary(|cs|, Sum(cs, QuantityOf), revenue, cost, revenue - cost, Sum(cs, TaxOf),
            OneDecimalMargin(revenue - cost, revenue))
  }

  /** The handler for the body's `items` (`None` when it is missing or not an array). The margin
      issues are filtered before `.sort` reorders `calculatedItems` in place, so they keep the
      posted order; the top items, the low-margin items and the returned items are all read
      after it, in descending profit order. */
  function Respond(cost: string -> ApiDb.CostInfo, items: Option<seq<RequestItem>>): (r: Response)
    ensures items.None? <==> r == Failure(400, "Missing items array")
    ensures r == Crashed <==> items.Some? && !AllNamed(items.value)
    ensures r.Success? ==>
              var cs := Mapped(items.value, Calculator(cost));
              r.summary == SummaryOf(cs) &&
              r.insights.marginIssues == Mapped(Filter(cs, HasMarginIssue), IssueOf) &&
              r.insights.marginIssuesCount == |r.insights.marginIssues| &&
              multiset(r.items) == multiset(cs) && SortedDesc(r.items, ProfitOf) &&
              r.insights.topProfitItems == Mapped(Take(r.items, 5), TopOf) &&
              r.insights.lowMarginItems == Mapped(Filter(r.items, IsLowMargin), LowOf)
  {
    if items.None? then Failure(400, "Missing items array")
    else if !AllNamed(items.value) then Crashed
    else
      var cs := Mapped(items.value, Calculator(cost));
      var issues := Filter(cs, HasMarginIssue);
      var sorted := SortDesc(cs, ProfitOf);
      Success(sorted, SummaryOf(cs),
              Insights(|issues|, Mapped(issues, IssueOf), Mapped(Take(sorted, 5), TopOf), Mapped(Filter(sorted, IsLowMargin), LowOf)))
  }

  /** What every calculated item keeps: its profit and cost add up to its net amount, and its
      margin difference is its actual less its expected margin. */
  predicate Consistent(c: Calculated) {
    c.profit + c.totalCost == c.netAmount && c.marginDiff == c.actualMargin - c.expectedMargin
  }

  lemma AllConsistent(cost: string -> ApiDb.CostInfo, items: seq<RequestItem>)
    ensures var cs := Mapped(items, Calculator(cost));
            forall i :: 0 <= i < |cs| ==> Consistent(cs[i])
  {
    var cs := Mapped(items, Calculator(cost));
    forall i | 0 <= i < |cs| ensures Consistent(cs[i]) {
      var item := items[i];
      assert cs[i] == Calculate(cost(NameOf(item)), NameOf(item), item);
    }
  }

  /** A successful answer is the calculation of the posted items. */
  lemma Answered(cost: string -> ApiDb.CostInfo, items: Option<seq<RequestItem>>)
    requires Respond(cost, items).Success?
    ensures var r, cs := Respond(cost, items), Mapped(items.value, Calculator(cost));
            multiset(r.items) == multiset(cs) && |r.items| == |cs| && r.summary == SummaryOf(cs) &&
            (forall i :: 0 <= i < |cs| ==> Consistent(cs[i])) &&
            (forall c :: c in r.items ==> c in cs)
  {
    var r, cs := Respond(cost, items), Mapped(items.value, Calculator(cost));
    AllConsistent(cost, items.value);
    assert |multiset(cs)| == |multiset(r.items)|;
    forall c | c in r.items ensures c in cs {
      assert c in multiset(r.items);
    }
  }

  /** The summary agrees with the returned items, although they were reordered after it was
      computed: its totals are their sums, its profit their profits' sum, and its margin that
      profit as a percentage of the revenue, to one decimal. */
  lemma SummaryMatchesItems(cost: string -> ApiDb.CostInfo, items: Option<seq<RequestItem>>)
    requires Respond(cost, items).Success?
    ensures var r := Respond(cost, items);
            r.summary.totalItems == |r.items| &&
            r.summary.totalRevenue == Sum(r.items, NetOf) && r.summary.totalCost == Sum(r.items, CostOf) &&
            r.summary.totalTax == Sum(r.items, TaxOf) && r.summary.totalOrders == Sum(r.items, QuantityOf) &&
            r.summary.totalProfit == Sum(r.items, ProfitOf) &&
            r.summary.netMargin == OneDecimalMargin(r.summary.totalProfit, r.summary.totalRevenue)
  {
    var r, cs := Respond(cost, items), Mapped(items.value, Calculator(cost));
    Answered(cost, items);
    SumPermutation(cs, r.items, NetOf);
    SumPermutation(cs, r.items, CostOf);
    SumPermutation(cs, r.items, TaxOf);
    SumPermutation(cs, r.items, QuantityOf);
    SumPermutation(cs, r.items, ProfitOf);
    ProfitsAddUp(cs);
  }

  /** Each item's profit is its net amount less its cost, so the profits add up likewise. */
  lemma {:induction false} ProfitsAddUp(cs: seq<Calculated>)
    requires forall i :: 0 <= i < |cs| ==> Consistent(cs[i])
    ensures Sum(cs, ProfitOf) == Sum(cs, NetOf) - Sum(cs, CostOf)
  {
    if cs != [] {
      ProfitsAddUp(cs[..|cs| - 1]);
    }
  }

  /** The margin issues of consistent items list an item exactly when it is more than 10 points
      below its expected margin: the listed fields determine the difference. */
  lemma IssuesExact(cs: seq<Calculated>, c: Calculated)
    requires forall i :: 0 <= i < |cs| ==> Consistent(cs[i])
    requires c in cs
    ensures IssueOf(c) in Mapped(Filter(cs, HasMarginIssue), IssueOf) <==> HasMarginIssue(c)
  {
    var issues := Filter(cs, HasMarginIssue);
    var listed := Mapped(issues, IssueOf);
    var i :| 0 <= i < |cs| && cs[i] == c;
    assert Consistent(c);
    if IssueOf(c) in listed {
      var k :| 0 <= k < |issues| && listed[k] == IssueOf(c);
      assert issues[k] in cs;
      var j :| 0 <= j < |cs| && cs[j] == issues[k];
      assert Consistent(issues[k]);
    }
  }

  /** The low-margin list names an item exactly when its margin is under 40. */
  lemma LowsExact(xs: seq<Calculated>, c: Calculated)
    requires c in xs
    ensures LowOf(c) in Mapped(Filter(xs, IsLowMargin), LowOf) <==> IsLowMargin(c)
  {
    var lows := Filter(xs, IsLowMargin);
    var listed := Mapped(lows, LowOf);
    if LowOf(c) in listed {
      var k :| 0 <= k < |lows| && listed[k] == LowOf(c);
      assert IsLowMargin(lows[k]);
    }
  }

  /** An item is listed as a margin issue exactly when it is more than 10 points below its
      expected margin, and as a low-margin item exactly when its margin is under 40. */
  lemma InsightsExact(cost: string -> ApiDb.CostInfo, items: Option<seq<RequestItem>>, c: Calculated)
    requires Respond(cost, items).Success? && c in Respond(cost, items).items
    ensures IssueOf(c) in Respond(cost, items).insights.marginIssues <==> HasMarginIssue(c)
    ensures LowOf(c) in Respond(cost, items).insights.lowMarginItems <==> IsLowMargin(c)
  {
    Answered(cost, items);
    IssuesExact(Mapped(items.value, Calculator(cost)), c);
    LowsExact(Respond(cost, items).items, c);
  }

  /** The top list is the first five returned items, or all of them when there are fewer, and
      none of the items left out made more profit than any item listed. */
  lemma TopItemsAreTheMostProfitable(cost: string -> ApiDb.CostInfo, items: Option<seq<RequestItem>>)
    requires Respond(cost, items).Success?
    ensures var r := Respond(cost, items);
            var top := r.insights.topProfitItems;
            |top| == (if |r.items| < 5 then |r.items| else 5) &&
            (forall i :: 0 <= i < |top| ==> top[i] == TopOf(r.items[i])) &&
            (forall i, j :: 0 <= i < |top| <= j < |r.items| ==> top[i].profit >= r.items[j].profit)
  {
  }

  /** An item the inventory does not know costs nothing and is expected to make 45 percent, so
      whenever it sold for anything it makes 100 percent, 55 points above expectation, and it is
      never a margin issue or a low-margin item. */
  lemma UnknownItemBeatsExpectation(inv: seq<ApiDb.InventoryItem>, name: string, item: RequestItem)
    requires ApiDb.Unknown(inv, ApiDb.Query(name))
    requires NumberOr0(item.netAmount) > 0.0
    ensures var c := Calculate(Pricing(inv)(name), name, item);
            c.costPrice == 0.0 && c.expectedMargin == 45.0 && c.actualMargin == 100.0 &&
            c.marginDiff == 55.0 && !HasMarginIssue(c) && !IsLowMargin(c)
  {
    ApiDb.UnknownNoOverlap(inv, ApiDb.Query(name));
    assert Pricing(inv)(name) == ApiDb.CostInfo(0.0, 45.0);
    FreeItemMakes100(name, item);
  }

  lemma FreeItemMakes100(name: string, item: RequestItem)
    requires NumberOr0(item.netAmount) > 0.0
    ensures var c := Calculate(ApiDb.CostInfo(0.0, 45.0), name, item);
            c.actualMargin == 100.0 && c.marginDiff == 55.0
  {
    PricedFree(ApiDb.CostInfo(0.0, 45.0), name, NumberOr0(item.quantity), NumberOr0(item.netAmount), NumberOr0(item.tax));
  }

  /** At no cost, the whole net amount is profit. */
  lemma PricedFree(info: ApiDb.CostInfo, name: string, quantity: real, netAmount: real, tax: real)
    requires info.costPrice == 0.0 && netAmount > 0.0
    ensures var c := Priced(info, name, quantity, netAmount, tax);
            c.actualMargin == 100.0 && c.marginDiff == 100.0 - info.marginPercent
  {
    var c := Priced(info, name, quantity, netAmount, tax);
    assert c.totalCost == 0.0;
    MarginAtMost100(netAmount, 0.0);
    assert c.actualMargin == OneDecimalMargin(netAmount - 0.0, netAmount);
  }
}
