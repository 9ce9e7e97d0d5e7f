/** The records the report engine produces (`SaleItem`, `CategorySummary` of lib/api-db.ts)
    and the arithmetic shared by every copy of the engine: the cost, profit and margin of one
    item row, the summary of one category bucket, and the report totals. */
module Sales {
  import opened Money
  import opened Grouping

  datatype SaleItem = SaleItem(
    itemName: string, category: string, quantity: real, myAmount: real, discount: real,
    netAmount: real, tax: real, totalSales: real, costPrice: real, totalCost: real,
    profit: real, margin: real)

  datatype CategorySummary = CategorySummary(
    name: string, itemCount: nat, totalQuantity: real, totalRevenue: real, totalCost: real,
    totalProfit: real, totalTax: real, avgMargin: real)

  /** The `summary` object of a parsed report. */
  datatype Totals = Totals(
    totalItems: nat, totalOrders: real, totalRevenue: real, totalCost: real,
    totalProfit: real, totalTax: real, netMargin: real)

  function Net(i: SaleItem): real { i.netAmount }
  function CostOf(i: SaleItem): real { i.totalCost }
  function TaxOf(i: SaleItem): real { i.tax }
  function QuantityOf(i: SaleItem): real { i.quantity }
  function ProfitOf(i: SaleItem): real { i.profit }
  function CategoryOf(i: SaleItem): string { i.category }
  function ItemNameOf(i: SaleItem): string { i.itemName }

  /** Columns 2 to 7 of an item row, each read with `Number(x) || 0`. */
  datatype Figures = Figures(
    quantity: real, myAmount: real, discount: real, netAmount: real, tax: real, totalSales: real)

  /** One sale line priced at `costPrice` a unit: the figures are kept as read, the cost is the
      unit cost times the quantity, the profit is what the net amount leaves after that cost,
      and the margin is the profit as a percentage of the net amount, to one decimal. */
  function PriceItem(name: string, category: string, f: Figures, costPrice: real): (r: SaleItem)
    ensures r.itemName == name && r.category == category && r.costPrice == costPrice
    ensures r.quantity == f.quantity && r.myAmount == f.myAmount && r.discount == f.discount
    ensures r.netAmount == f.netAmount && r.tax == f.tax && r.totalSales == f.totalSales
    ensures r.totalCost == costPrice * f.quantity
    ensures r.profit + r.totalCost == r.netAmount
    ensures r.margin == OneDecimalMargin(r.profit, r.netAmount)
  {
    var totalCost := costPrice * f.quantity;
    var profit := f.netAmount - totalCost;
    SaleItem(name, category, f.quantity, f.myAmount, f.discount, f.netAmount, f.tax,
             f.totalSales, costPrice, totalCost, profit, OneDecimalMargin(profit, f.netAmount))
  }

  /** A name the inventory does not know is priced at 0: its whole net amount counts as
      profit, at a margin of exactly 100 percent (0 when there is no positive net amount). */
  lemma UnmatchedItem(name: string, category: string, f: Figures)
    ensures var r := PriceItem(name, category, f, 0.0);
            r.totalCost == 0.0 && r.profit == f.netAmount &&
            r.margin == (if f.netAmount > 0.0 then 100.0 else 0.0)
  {
    if f.netAmount > 0.0 {
      MarginAtMost100(f.netAmount, 0.0);
    }
  }

  /** The worked example of the test script: 3 × "Chilli Chicken" for a net 1047 at a unit
      cost of 175 costs 525, leaves 522 and a margin of 49.9 percent. */
  lemma ChilliChickenExample()
    ensures var r := PriceItem("Chilli Chicken", "Dine In Food Menu",
                               Figures(3.0, 1047.0, 0.0, 1047.0, 52.38, 1099.38), 175.0);
            r.totalCost == 525.0 && r.profit == 522.0 && r.margin == 49.9
  {
    RoundUnique(522.0 / 1047.0 * 1000.0, 499);
  }

  /** With a cost and a quantity that are not negative, no margin exceeds 100 percent. */
  lemma MarginBounded(name: string, category: string, f: Figures, costPrice: real)
    requires costPrice >= 0.0 && f.quantity >= 0.0
    ensures PriceItem(name, category, f, costPrice).margin <= 100.0
  {
    var r := PriceItem(name, category, f, costPrice);
    if f.netAmount > 0.0 {
      assert r.totalCost >= 0.0 by {
        assert costPrice * f.quantity >= 0.0 * f.quantity;
      }
      assert r.profit == f.netAmount - r.totalCost;
      MarginAtMost100(f.netAmount, r.totalCost);
    }
  }

  /** One bucket's summary: its size, the sums of its quantities, net amounts, costs and tax,
      the profit those leave, and that profit's one-decimal margin. */
  function Summarize(name: string, bucket: seq<SaleItem>): (c: CategorySummary)
    ensures c.name == name && c.itemCount == |bucket|
    ensures c.totalQuantity == Sum(bucket, QuantityOf) && c.totalRevenue == Sum(bucket, Net)
    ensures c.totalCost == Sum(bucket, CostOf) && c.totalTax == Sum(bucket, TaxOf)
    ensures c.totalProfit == c.totalRevenue - c.totalCost
    ensures c.avgMargin == OneDecimalMargin(c.totalProfit, c.totalRevenue)
  {
    var revenue := Sum(bucket, Net);
    var cost := Sum(bucket, CostOf);
    CategorySummary(name, |bucket|, Sum(bucket, QuantityOf), revenue, cost, revenue - cost,
                    Sum(bucket, TaxOf), OneDecimalMargin(revenue - cost, revenue))
  }

  /** A category with no items still has a summary, of zeros. */
  lemma EmptyCategory(name: string)
    ensures Summarize(name, []) == CategorySummary(name, 0, 0.0, 0.0, 0.0, 0.0, 0.0, 0.0)
  {
  }

  /** The report summary: the item count, the sums over all items, the pre-tax profit and
      its one-decimal margin. */
  function Total(items: seq<SaleItem>): (t: Totals)
    ensures t.totalItems == |items| && t.totalOrders == Sum(items, QuantityOf)
    ensures t.totalRevenue == Sum(items, Net) && t.totalCost == Sum(items, CostOf)
    ensures t.totalTax == Sum(items, TaxOf)
    ensures t.totalProfit == t.totalRevenue - t.totalCost
    ensures t.netMargin == OneDecimalMargin(t.totalProfit, t.totalRevenue)
  {
    var revenue := Sum(items, Net);
    var cost := Sum(items, CostOf);
    Totals(|items|, Sum(items, QuantityOf), revenue, cost, revenue - cost, Sum(items, TaxOf),
           OneDecimalMargin(revenue - cost, revenue))
  }

  /** `Array.from(categoryMap.entries()).map(...)`: one summary per key, in key order. */
  function Summaries(order: seq<string>, buckets: map<string, seq<SaleItem>>): (r: seq<CategorySummary>)
    requires forall k :: k in order ==> k in buckets
    ensures |r| == |order|
    ensures forall i :: 0 <= i < |order| ==> r[i] == Summarize(order[i], buckets[order[i]])
  {
    if order == [] then []
    else Summaries(order[..|order| - 1], buckets) + [Summarize(order[|order| - 1], buckets[order[|order| - 1]])]
  }

  function RevenueOf(c: CategorySummary): real { c.totalRevenue }
  function CategoryCostOf(c: CategorySummary): real { c.totalCost }
  function CategoryTaxOf(c: CategorySummary): real { c.totalTax }
  function ItemCountOf(c: CategorySummary): real { c.itemCount as real }
  function CategoryQuantityOf(c: CategorySummary): real { c.totalQuantity }
  function CategoryProfitOf(c: CategorySummary): real { c.totalProfit }

  /** The buckets are the groups of `items` by category. */
  ghost predicate GroupedBy(items: seq<SaleItem>, order: seq<string>, buckets: map<string, seq<SaleItem>>) {
    NoDuplicates(order) &&
    (forall k :: k in buckets <==> k in order) &&
    (forall k :: k in buckets ==> buckets[k] == Where(items, CategoryOf, k)) &&
    (forall i :: 0 <= i < |items| ==> items[i].category in buckets)
  }

  lemma {:induction false} SummariesSum(order: seq<string>, buckets: map<string, seq<SaleItem>>, items: seq<SaleItem>, f: SaleItem -> real, g: CategorySummary -> real)
    requires forall k :: k in order ==> k in buckets && buckets[k] == Where(items, CategoryOf, k)
    requires forall k :: k in order ==> g(Summarize(k, buckets[k])) == Sum(buckets[k], f)
    ensures Sum(Summaries(order, buckets), g) == SumOverKeys(order, items, CategoryOf, f)
  {
    if order != [] {
      SummariesSum(order[..|order| - 1], buckets, items, f, g);
    }
  }

  /** The buckets partition the items, so the category summaries add up to the report
      summary: the same revenue, cost, tax, quantity (the summary's `totalOrders`) and profit,
      and as many items. */
  lemma CategoriesAddUp(items: seq<SaleItem>, order: seq<string>, buckets: map<string, seq<SaleItem>>)
    requires GroupedBy(items, order, buckets)
    ensures var cs, t := Summaries(order, buckets), Total(items);
            Sum(cs, RevenueOf) == t.totalRevenue && Sum(cs, CategoryCostOf) == t.totalCost &&
            Sum(cs, CategoryTaxOf) == t.totalTax && Sum(cs, ItemCountOf) == t.totalItems as real &&
            Sum(cs, CategoryQuantityOf) == t.totalOrders && Sum(cs, CategoryProfitOf) == t.totalProfit
  {
    forall i | 0 <= i < |items| ensures CategoryOf(items[i]) in order {
      assert items[i].category in buckets;
    }
    SummariesSum(order, buckets, items, Net, RevenueOf);
    GroupsPartitionSum(order, items, CategoryOf, Net);
    SummariesSum(order, buckets, items, CostOf, CategoryCostOf);
    GroupsPartitionSum(order, items, CategoryOf, CostOf);
    SummariesSum(order, buckets, items, TaxOf, CategoryTaxOf);
    GroupsPartitionSum(order, items, CategoryOf, TaxOf);
    forall k | k in order ensures ItemCountOf(Summarize(k, buckets[k])) == Sum(buckets[k], One) {
      SumOfOnes(buckets[k]);
    }
    SummariesSum(order, buckets, items, One, ItemCountOf);
    GroupsPartitionSum(order, items, CategoryOf, One);
    SumOfOnes(items);
    SummariesSum(order, buckets, items, QuantityOf, CategoryQuantityOf);
    GroupsPartitionSum(order, items, CategoryOf, QuantityOf);
    SumDifference(Summaries(order, buckets), CategoryProfitOf, RevenueOf, CategoryCostOf);
  }

  function One(i: SaleItem): real { 1.0 }

  lemma {:induction false} SumOfOnes(xs: seq<SaleItem>)
    ensures Sum(xs, One) == |xs| as real
  {
    if xs != [] {
      SumOfOnes(xs[..|xs| - 1]);
    }
  }
}
