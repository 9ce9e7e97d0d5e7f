/** The server-side in-memory store of lib/api-db.ts: the inventory, seeded from the default
    list with ids 1..n, the saved sales records, their id counters, the name lookup that
    prices a sale line, and the aggregate queries over the saved records. Timestamps
    (`new Date()`) are the parameter `now`. */
module ApiDb {
  import opened Wrappers
  import opened Strings
  import opened Money
  import opened Grouping
  import opened Lookup
  import opened Sorting
  import opened Sales
  import opened Tally
  import InventoryData

  datatype InventoryItem = InventoryItem(
    id: int, name: string, costPrice: real, sellingPrice: real, marginPercent: real,
    category: string, updatedAt: int)

  /** `Omit<InventoryItem, 'id' | 'updatedAt'>`. */
  datatype NewInventoryItem = NewInventoryItem(
    name: string, costPrice: real, sellingPrice: real, marginPercent: real, category: string)

  /** `Partial<InventoryItem>`: the fields an update overrides. Its `updatedAt`, if any, is
      always replaced by the time of the update, so it is not carried. */
  datatype InventoryUpdate = InventoryUpdate(
    id: Option<int>, name: Option<string>, costPrice: Option<real>, sellingPrice: Option<real>,
    marginPercent: Option<real>, category: Option<string>)

  /** `Omit<SalesRecord, 'id' | 'createdAt'>`: what a caller saves. */
  datatype SalesFields = SalesFields(
    fileName: string, date: string, dateRange: string, restaurantName: string,
    items: seq<SaleItem>, categories: seq<CategorySummary>, totalRevenue: real,
    totalCost: real, totalProfit: real, totalTax: real, totalOrders: real, netMargin: real)

  datatype SalesRecord = SalesRecord(id: int, fields: SalesFields, createdAt: int)

  function EntryName(e: InventoryItem): string { e.name }
  function EntryCategory(e: InventoryItem): string { e.category }
  function EntryMargin(e: InventoryItem): real { e.marginPercent }
  function RecordDate(r: SalesRecord): string { r.fields.date }
  function RecordRevenue(r: SalesRecord): real { r.fields.totalRevenue }
  function RecordProfit(r: SalesRecord): real { r.fields.totalProfit }
  function RecordOrders(r: SalesRecord): real { r.fields.totalOrders }
  function RecordTax(r: SalesRecord): real { r.fields.totalTax }

  // ---------------------------------------------------------------------------------------
  // Inventory

  /** The store's copy of one seed entry, with its id and timestamp. */
  function Entry(d: InventoryData.InventoryItemData, id: int, now: int): InventoryItem {
    InventoryItem(id, d.name, d.costPrice, d.sellingPrice, d.marginPercent, d.category, now)
  }

  /** `DEFAULT_INVENTORY.map((item, index) => ({ ...item, id: index + 1, updatedAt: now }))`. */
  function Stamp(seed: seq<InventoryData.InventoryItemData>, now: int): (r: seq<InventoryItem>)
    ensures |r| == |seed|
    ensures forall i :: 0 <= i < |seed| ==> r[i] == Entry(seed[i], i + 1, now)
  {
    if seed == [] then [] else Stamp(seed[..|seed| - 1], now) + [Entry(seed[|seed| - 1], |seed|, now)]
  }

  /** `name.toLowerCase().trim()`. */
  function Query(name: string): string { Trim(Lower(name)) }

  /** No inventory name equals, contains or is contained in the query `q`. */
  predicate Unknown(inv: seq<InventoryItem>, q: string) {
    inv == [] || (!Overlaps(inv[|inv| - 1].name, q) && Unknown(inv[..|inv| - 1], q))
  }

  lemma {:induction false} UnknownNoOverlap(inv: seq<InventoryItem>, q: string)
    ensures Unknown(inv, q) <==> forall i :: 0 <= i < |inv| ==> !Overlaps(inv[i].name, q)
  {
    if inv != [] {
      var init := inv[..|inv| - 1];
      UnknownNoOverlap(init, q);
      assert forall i :: 0 <= i < |init| ==> init[i] == inv[i];
    }
  }

  /** `getInventoryByName(name)`: the first item whose lower-cased name is the query, else the
      first whose lower-cased name contains the query or is contained in it, else nothing. */
  function InventoryByName(inv: seq<InventoryItem>, name: string): (r: Option<InventoryItem>)
    ensures r.Some? ==> r.value in inv && Overlaps(r.value.name, Query(name))
    ensures r.None? <==> forall i :: 0 <= i < |inv| ==> !Overlaps(inv[i].name, Query(name))
    ensures (exists i :: 0 <= i < |inv| && SameName(inv[i].name, Query(name))) ==>
              exists i :: 0 <= i < |inv| && r == Some(inv[i]) && SameName(inv[i].name, Query(name)) &&
                          forall j :: 0 <= j < i ==> !SameName(inv[j].name, Query(name))
    ensures (forall i :: 0 <= i < |inv| ==> !SameName(inv[i].name, Query(name))) && r.Some? ==>
              exists i :: 0 <= i < |inv| && r == Some(inv[i]) &&
                          forall j :: 0 <= j < i ==> !Overlaps(inv[j].name, Query(name))
  {
    var q := Query(name);
    var k := FuzzyIndex(inv, EntryName, q);
    if k.None? then None
    else
      var i := k.value;
      assert Overlaps(inv[i].name, q) by {
        if SameName(inv[i].name, q) {
          SameNameOverlaps(inv[i].name, q);
        }
      }
      Some(inv[i])
  }

  /** The `{ costPrice, marginPercent }` that `getCostPrice` returns. */
  datatype CostInfo = CostInfo(costPrice: real, marginPercent: real)

  /** `getCostPrice(itemName)`: the found item's cost and target margin; an unknown item costs
      nothing and is expected to make the default 45 percent. */
  function CostPrice(inv: seq<InventoryItem>, itemName: string): (r: CostInfo)
    ensures (forall i :: 0 <= i < |inv| ==> !Overlaps(inv[i].name, Query(itemName))) ==>
              r == CostInfo(0.0, 45.0)
    ensures InventoryByName(inv, itemName).Some? ==>
              var e := InventoryByName(inv, itemName).value;
              r == CostInfo(e.costPrice, e.marginPercent)
  {
    var found := InventoryByName(inv, itemName);
    if found.Some? then CostInfo(found.value.costPrice, found.value.marginPercent)
    else CostInfo(0.0, 45.0)
  }

  /** `getInventoryByCategory(category)`: the items of that category, in list order. */
  function InventoryByCategory(inv: seq<InventoryItem>, category: string): (r: seq<InventoryItem>)
    ensures |r| <= |inv|
    ensures forall e :: e in r <==> e in inv && e.category == category
  {
    Where(inv, EntryCategory, category)
  }

  /** The filter distributes over concatenation and keeps a single item exactly when it has the
      category: the result is the items of that category in list order. */
  lemma InventoryByCategoryInListOrder(a: seq<InventoryItem>, b: seq<InventoryItem>, e: InventoryItem, category: string)
    ensures InventoryByCategory(a + b, category) == InventoryByCategory(a, category) + InventoryByCategory(b, category)
    ensures InventoryByCategory([e], category) == if e.category == category then [e] else []
  {
    WhereAppend(a, b, EntryCategory, category);
    WhereSingleton(e, EntryCategory, category);
  }

  /** `getInventoryCategories()`: the distinct categories in first-seen order. */
  function InventoryCategories(inv: seq<InventoryItem>): (r: seq<string>)
    ensures NoDuplicates(r)
    ensures forall c :: c in r <==> exists e :: e in inv && e.category == c
    ensures forall c :: c in r <==> c in Mapped(inv, EntryCategory)
    ensures forall i, j :: 0 <= i < j < |r| ==> FirstPosition(Mapped(inv, EntryCategory), r[i]) < FirstPosition(Mapped(inv, EntryCategory), r[j])
  {
    DistinctKeysInFirstSeenOrder(inv, EntryCategory);
    DistinctKeys(inv, EntryCategory)
  }

  /** One row of `getInventoryStats().categories`. */
  datatype CategoryStat = CategoryStat(name: string, count: nat, avgMargin: int)

  datatype InventoryStats = InventoryStats(totalItems: nat, categories: seq<CategoryStat>)

  /** One category's item count and its mean target margin rounded to a whole percent
      (`members` is never empty, so the mean is defined). */
  function StatOf(inv: seq<InventoryItem>, cat: string): (s: CategoryStat)
    requires InventoryByCategory(inv, cat) != []
    ensures s.name == cat && s.count == |InventoryByCategory(inv, cat)| && s.count >= 1
    ensures var mean := Sum(InventoryByCategory(inv, cat), EntryMargin) / s.count as real;
            mean - 0.5 < s.avgMargin as real <= mean + 0.5
  {
    var members := InventoryByCategory(inv, cat);
    CategoryStat(cat, |members|, Round(Sum(members, EntryMargin) / |members| as real))
  }

  /** Every listed category has at least one item. */
  lemma CategoryNonEmpty(inv: seq<InventoryItem>, cat: string)
    requires cat in InventoryCategories(inv)
    ensures InventoryByCategory(inv, cat) != []
  {
    var e :| e in inv && e.category == cat;
    assert e in InventoryByCategory(inv, cat);
  }

  function StatsOf(inv: seq<InventoryItem>, cats: seq<string>): (r: seq<CategoryStat>)
    requires forall i :: 0 <= i < |cats| ==> InventoryByCategory(inv, cats[i]) != []
    ensures |r| == |cats| && forall i :: 0 <= i < |cats| ==> r[i] == StatOf(inv, cats[i])
  {
    if cats == [] then [] else StatsOf(inv, cats[..|cats| - 1]) + [StatOf(inv, cats[|cats| - 1])]
  }

  /** `getInventoryStats()`: the item count and one row per category, in category order. */
  function InventoryStatsOf(inv: seq<InventoryItem>): (r: InventoryStats)
    ensures r.totalItems == |inv|
    ensures |r.categories| == |InventoryCategories(inv)|
    ensures forall i :: 0 <= i < |r.categories| ==>
              InventoryByCategory(inv, InventoryCategories(inv)[i]) != [] &&
              r.categories[i] == StatOf(inv, InventoryCategories(inv)[i])
  {
    var cats := InventoryCategories(inv);
    assert forall i :: 0 <= i < |cats| ==> InventoryByCategory(inv, cats[i]) != [] by {
      forall i | 0 <= i < |cats| ensures InventoryByCategory(inv, cats[i]) != [] {
        CategoryNonEmpty(inv, cats[i]);
      }
    }
    InventoryStats(|inv|, StatsOf(inv, cats))
  }

  function StatCount(s: CategoryStat): nat { s.count }

  function CountSum(ss: seq<CategoryStat>): nat {
    if ss == [] then 0 else CountSum(ss[..|ss| - 1]) + ss[|ss| - 1].count
  }

  /** The category counts add up to the number of items: every item is counted in exactly
      one category. */
  lemma StatsCountAddsUp(inv: seq<InventoryItem>)
    ensures CountSum(InventoryStatsOf(inv).categories) == InventoryStatsOf(inv).totalItems
  {
    var cats := InventoryCategories(inv);
    forall i | 0 <= i < |cats| ensures InventoryByCategory(inv, cats[i]) != [] {
      CategoryNonEmpty(inv, cats[i]);
    }
    assert InventoryStatsOf(inv) == InventoryStats(|inv|, StatsOf(inv, cats));
    StatsCountOverKeys(inv, cats);
    forall i | 0 <= i < |inv| ensures EntryCategory(inv[i]) in cats {
      assert inv[i] in inv;
    }
    GroupsPartitionCount(cats, inv, EntryCategory);
  }

  lemma {:induction false} StatsCountOverKeys(inv: seq<InventoryItem>, cats: seq<string>)
    requires forall i :: 0 <= i < |cats| ==> InventoryByCategory(inv, cats[i]) != []
    ensures CountSum(StatsOf(inv, cats)) == CountOverKeys(cats, inv, EntryCategory)
  {
    if cats != [] {
      var init := cats[..|cats| - 1];
      StatsCountOverKeys(inv, init);
      var r := StatsOf(inv, cats);
      assert r[..|r| - 1] == StatsOf(inv, init);
    }
  }

  /** With every target margin between 0 and 100, every category's rounded mean is too. */
  lemma StatsMarginBounded(inv: seq<InventoryItem>)
    requires forall i :: 0 <= i < |inv| ==> 0.0 <= inv[i].marginPercent <= 100.0
    ensures forall i :: 0 <= i < |InventoryStatsOf(inv).categories| ==>
              0 <= InventoryStatsOf(inv).categories[i].avgMargin <= 100
  {
    var cats := InventoryCategories(inv);
    forall i | 0 <= i < |cats| ensures 0 <= InventoryStatsOf(inv).categories[i].avgMargin <= 100 {
      CategoryNonEmpty(inv, cats[i]);
      StatMarginBounded(inv, cats[i]);
    }
  }

  lemma StatMarginBounded(inv: seq<InventoryItem>, cat: string)
    requires forall i :: 0 <= i < |inv| ==> 0.0 <= inv[i].marginPercent <= 100.0
    requires InventoryByCategory(inv, cat) != []
    ensures 0 <= StatOf(inv, cat).avgMargin <= 100
  {
    var members := InventoryByCategory(inv, cat);
    forall j | 0 <= j < |members| ensures 0.0 <= members[j].marginPercent <= 100.0 {
      assert members[j] in inv;
    }
    SumBounded(members);
    MeanBounded(Sum(members, EntryMargin), |members|);
  }

  /** A total of `n` values between 0 and 100 has a mean between 0 and 100. */
  lemma MeanBounded(total: real, n: nat)
    requires n >= 1 && 0.0 <= total <= 100.0 * n as real
    ensures 0.0 <= total / n as real <= 100.0
  {
  }

  lemma {:induction false} SumBounded(xs: seq<InventoryItem>)
    requires forall j :: 0 <= j < |xs| ==> 0.0 <= xs[j].marginPercent <= 100.0
    ensures 0.0 <= Sum(xs, EntryMargin) <= 100.0 * |xs| as real
  {
    if xs != [] {
      SumBounded(xs[..|xs| - 1]);
    }
  }

  /** `{ ...inventory[index], ...updates, updatedAt: now }`. */
  function ApplyUpdate(e: InventoryItem, u: InventoryUpdate, now: int): (r: InventoryItem)
    ensures r.updatedAt == now
    ensures r.id == (if u.id.Some? then u.id.value else e.id)
    ensures r.name == (if u.name.Some? then u.name.value else e.name)
    ensures r.costPrice == (if u.costPrice.Some? then u.costPrice.value else e.costPrice)
    ensures r.sellingPrice == (if u.sellingPrice.Some? then u.sellingPrice.value else e.sellingPrice)
    ensures r.marginPercent == (if u.marginPercent.Some? then u.marginPercent.value else e.marginPercent)
    ensures r.category == (if u.category.Some? then u.category.value else e.category)
  {
    InventoryItem(
      if u.id.Some? then u.id.value else e.id,
      if u.name.Some? then u.name.value else e.name,
      if u.costPrice.Some? then u.costPrice.value else e.costPrice,
      if u.sellingPrice.Some? then u.sellingPrice.value else e.sellingPrice,
      if u.marginPercent.Some? then u.marginPercent.value else e.marginPercent,
      if u.category.Some? then u.category.value else e.category,
      now)
  }

  /** Applying the same update twice is applying it once. */
  lemma UpdateIdempotent(e: InventoryItem, u: InventoryUpdate, now: int)
    ensures ApplyUpdate(ApplyUpdate(e, u, now), u, now) == ApplyUpdate(e, u, now)
  {
  }

  /** An update that names no field only refreshes the timestamp. */
  lemma EmptyUpdate(e: InventoryItem, now: int)
    ensures ApplyUpdate(e, InventoryUpdate(None, None, None, None, None, None), now) == e.(updatedAt := now)
  {
  }

  function HasId(id: int): InventoryItem -> bool {
    (e: InventoryItem) => e.id == id
  }

  function RecordHasId(id: int): SalesRecord -> bool {
    (r: SalesRecord) => r.id == id
  }

  /** The ids increase along the list and stay below the counter. */
  ghost predicate IdsBelow(ids: seq<int>, counter: int) {
    (forall i :: 0 <= i < |ids| ==> ids[i] < counter) &&
    (forall i, j :: 0 <= i < j < |ids| ==> ids[i] < ids[j])
  }

  function EntryId(e: InventoryItem): int { e.id }
  function RecordId(r: SalesRecord): int { r.id }

  /** Appending an id above all the others keeps the ids increasing. */
  lemma IdsBelowSnoc(ids: seq<int>, counter: int)
    requires IdsBelow(ids, counter)
    ensures IdsBelow(ids + [counter], counter + 1)
  {
  }

  /** `xs.splice(i, 1)`. */
  function Without<T>(xs: seq<T>, i: nat): (r: seq<T>)
    requires i < |xs|
    ensures |r| == |xs| - 1
  {
    xs[..i] + xs[i + 1..]
  }

  /** Removing an element removes its image from the mapped sequence. */
  lemma MappedWithout<T, U>(xs: seq<T>, f: T -> U, i: nat)
    requires i < |xs|
    ensures Mapped(Without(xs, i), f) == Without(Mapped(xs, f), i)
  {
    var a, b := Mapped(Without(xs, i), f), Without(Mapped(xs, f), i);
    forall j | 0 <= j < |a| ensures a[j] == b[j] {
      assert Without(xs, i)[j] == xs[if j < i then j else j + 1];
    }
  }

  /** Removing one id keeps the ids increasing. */
  lemma IdsBelowRemove(ids: seq<int>, counter: int, i: nat)
    requires IdsBelow(ids, counter) && i < |ids|
    ensures IdsBelow(Without(ids, i), counter)
  {
    var r := Without(ids, i);
    forall a | 0 <= a < |r| ensures r[a] == ids[if a < i then a else a + 1] {
    }
  }

  /** Increasing ids are distinct: once the element at `i` is removed, its id is gone. */
  lemma IdsBelowUnique(ids: seq<int>, counter: int, i: nat)
    requires IdsBelow(ids, counter) && i < |ids|
    ensures forall j :: 0 <= j < |Without(ids, i)| ==> Without(ids, i)[j] != ids[i]
  {
    var r := Without(ids, i);
    forall a | 0 <= a < |r| ensures r[a] != ids[i] {
      assert r[a] == ids[if a < i then a else a + 1];
    }
  }

  // ---------------------------------------------------------------------------------------
  // Sales records

  /** `[...salesRecords].reverse()`: newest first. */
  function Reversed<T>(xs: seq<T>): (r: seq<T>)
    ensures |r| == |xs| && forall i :: 0 <= i < |xs| ==> r[i] == xs[|xs| - 1 - i]
  {
    if xs == [] then [] else [xs[|xs| - 1]] + Reversed(xs[..|xs| - 1])
  }

  /** Reversing is its own inverse: the copy holds exactly the records, in the other order. */
  lemma ReversedTwice<T>(xs: seq<T>)
    ensures Reversed(Reversed(xs)) == xs
  {
  }

  /** `salesRecords.find(r => r.id === id)`. */
  function SalesRecordById(rs: seq<SalesRecord>, id: int): (r: Option<SalesRecord>)
    ensures r.Some? ==> r.value in rs && r.value.id == id
    ensures r.None? <==> forall i :: 0 <= i < |rs| ==> rs[i].id != id
  {
    var k := FirstIndex(rs, RecordHasId(id));
    if k.Some? then Some(rs[k.value])
    else
      assert forall i :: 0 <= i < |rs| ==> !RecordHasId(id)(rs[i]);
      None
  }

  /** `r => r.date >= startDate && r.date <= endDate`, comparing the strings. */
  function InDateRange(startDate: string, endDate: string): SalesRecord -> bool {
    (r: SalesRecord) => LexLe(startDate, r.fields.date) && LexLe(r.fields.date, endDate)
  }

  /** `getSalesRecordsByDateRange(start, end)`: the records dated from `start` to `end`
      inclusive, in store order. */
  function SalesRecordsByDateRange(rs: seq<SalesRecord>, startDate: string, endDate: string): (r: seq<SalesRecord>)
    ensures |r| <= |rs|
    ensures forall x :: x in r <==> x in rs && LexLe(startDate, x.fields.date) && LexLe(x.fields.date, endDate)
  {
    Filter(rs, InDateRange(startDate, endDate))
  }

  /** A range whose end comes before its start selects nothing. */
  lemma EmptyDateRange(rs: seq<SalesRecord>, startDate: string, endDate: string)
    requires !LexLe(startDate, endDate)
    ensures SalesRecordsByDateRange(rs, startDate, endDate) == []
  {
    var r := SalesRecordsByDateRange(rs, startDate, endDate);
    if r != [] {
      assert r[0] in r;
      LexLeTransitive(startDate, r[0].fields.date, endDate);
    }
  }

  /** The answer of `getDashboardStats()`. The empty store's answer has no `totalTax`. */
  datatype Dashboard = Dashboard(
    totalRevenue: real, totalProfit: real, totalOrders: real, totalTax: Option<real>,
    avgMargin: real, recordCount: nat)

  /** `getDashboardStats()`: zeros for an empty store, otherwise the sums of the records'
      revenue, profit, orders and tax and the one-decimal margin of profit on revenue. */
  function DashboardOf(rs: seq<SalesRecord>): (d: Dashboard)
    ensures rs == [] ==> d == Dashboard(0.0, 0.0, 0.0, None, 0.0, 0)
    ensures rs != [] ==> d.totalRevenue == Sum(rs, RecordRevenue) && d.totalProfit == Sum(rs, RecordProfit) &&
                         d.totalOrders == Sum(rs, RecordOrders) && d.totalTax == Some(Sum(rs, RecordTax)) &&
                         d.recordCount == |rs|
    ensures d.avgMargin == OneDecimalMargin(d.totalProfit, d.totalRevenue)
  {
    if rs == [] then Dashboard(0.0, 0.0, 0.0, None, 0.0, 0)
    else
      var revenue, profit := Sum(rs, RecordRevenue), Sum(rs, RecordProfit);
      Dashboard(revenue, profit, Sum(rs, RecordOrders), Some(Sum(rs, RecordTax)),
                OneDecimalMargin(profit, revenue), |rs|)
  }

  /** Saving one more record adds its figures to the dashboard totals and counts it once. */
  lemma DashboardSnoc(rs: seq<SalesRecord>, r: SalesRecord)
    ensures var before, after := DashboardOf(rs), DashboardOf(rs + [r]);
            after.totalRevenue == before.totalRevenue + r.fields.totalRevenue &&
            after.totalProfit == before.totalProfit + r.fields.totalProfit &&
            after.totalOrders == before.totalOrders + r.fields.totalOrders &&
            after.totalTax == Some((if rs == [] then 0.0 else before.totalTax.value) + r.fields.totalTax) &&
            after.recordCount == before.recordCount + 1
  {
    var all := rs + [r];
    assert all[..|rs|] == rs;
    assert Sum(all, RecordRevenue) == Sum(rs, RecordRevenue) + r.fields.totalRevenue;
    assert Sum(all, RecordProfit) == Sum(rs, RecordProfit) + r.fields.totalProfit;
    assert Sum(all, RecordOrders) == Sum(rs, RecordOrders) + r.fields.totalOrders;
    assert Sum(all, RecordTax) == Sum(rs, RecordTax) + r.fields.totalTax;
  }

  // ---------------------------------------------------------------------------------------
  // Analytics: `Map` accumulations over the saved records

  /** `record.items` for every record, in store order. */
  function AllItems(rs: seq<SalesRecord>): seq<SaleItem> {
    if rs == [] then [] else AllItems(rs[..|rs| - 1]) + rs[|rs| - 1].fields.items
  }

  lemma AllItemsSnoc(rs: seq<SalesRecord>, r: SalesRecord)
    ensures AllItems(rs + [r]) == AllItems(rs) + r.fields.items
  {
    assert (rs + [r])[..|rs|] == rs;
  }

  /** The running totals of `getCategoryAnalytics` (`getTopItems` keeps three of them). */
  datatype ItemTotals = ItemTotals(revenue: real, cost: real, profit: real, orders: real, tax: real)

  const NoTotals := ItemTotals(0.0, 0.0, 0.0, 0.0, 0.0)

  /** One `map.set(key, { revenue: current.revenue + item.netAmount, … })`. */
  function AddItem(t: ItemTotals, i: SaleItem): ItemTotals {
    ItemTotals(t.revenue + i.netAmount, t.cost + i.totalCost, t.profit + i.profit,
               t.orders + i.quantity, t.tax + i.tax)
  }

  /** The totals of a group are the sums of its items' figures. */
  ghost predicate SumsOf(t: ItemTotals, xs: seq<SaleItem>) {
    t.revenue == Sum(xs, Net) && t.cost == Sum(xs, CostOf) && t.profit == Sum(xs, ProfitOf) &&
    t.orders == Sum(xs, QuantityOf) && t.tax == Sum(xs, TaxOf)
  }

  lemma {:induction false} FoldItemTotals(xs: seq<SaleItem>)
    ensures SumsOf(Fold(xs, NoTotals, AddItem), xs)
  {
    if xs != [] {
      FoldItemTotals(xs[..|xs| - 1]);
    }
  }

  /** A key's tallied totals are the sums over the items with that key. */
  lemma TalliedSums(xs: seq<SaleItem>, key: SaleItem -> string, k: string)
    requires k in TallyOf(xs, key, NoTotals, AddItem).totals
    ensures SumsOf(TallyOf(xs, key, NoTotals, AddItem).totals[k], Where(xs, key, k))
  {
    TallyTotals(xs, key, k, NoTotals, AddItem);
    GroupFoldIsFoldOfGroup(xs, key, k, NoTotals, AddItem);
    FoldItemTotals(Where(xs, key, k));
  }

  /** One element of `getCategoryAnalytics()`. */
  datatype CategoryAnalytics = CategoryAnalytics(
    name: string, revenue: real, cost: real, profit: real, orders: real, tax: real, margin: real)

  function CategoryRow(name: string, t: ItemTotals): (c: CategoryAnalytics)
    ensures c.name == name && c.revenue == t.revenue && c.cost == t.cost && c.profit == t.profit
    ensures c.orders == t.orders && c.tax == t.tax && c.margin == OneDecimalMargin(t.profit, t.revenue)
  {
    CategoryAnalytics(name, t.revenue, t.cost, t.profit, t.orders, t.tax, OneDecimalMargin(t.profit, t.revenue))
  }

  /** `Array.from(categoryTotals.entries()).map(…)`. */
  function CategoryRows(keys: seq<string>, totals: map<string, ItemTotals>): (r: seq<CategoryAnalytics>)
    requires forall k :: k in keys ==> k in totals
    ensures |r| == |keys| && forall i :: 0 <= i < |keys| ==> r[i] == CategoryRow(keys[i], totals[keys[i]])
  {
    if keys == [] then [] else CategoryRows(keys[..|keys| - 1], totals) + [CategoryRow(keys[|keys| - 1], totals[keys[|keys| - 1]])]
  }

  /** What `getCategoryAnalytics()` returns for the records `rs`. */
  function CategoryAnalyticsOf(rs: seq<SalesRecord>): seq<CategoryAnalytics> {
    var t := TallyOf(AllItems(rs), CategoryOf, NoTotals, AddItem);
    TallyDomain(AllItems(rs), CategoryOf, NoTotals, AddItem);
    CategoryRows(t.keys, t.totals)
  }

  /** One row per category that occurs, in first-seen order, each with the sums over the
      items of that category and the one-decimal margin of their profit on revenue. */
  lemma CategoryAnalyticsCorrect(rs: seq<SalesRecord>)
    ensures var r, items := CategoryAnalyticsOf(rs), AllItems(rs);
            |r| == |DistinctKeys(items, CategoryOf)| &&
            forall i :: 0 <= i < |r| ==>
              r[i].name == DistinctKeys(items, CategoryOf)[i] &&
              r[i].revenue == Sum(Where(items, CategoryOf, r[i].name), Net) &&
              r[i].cost == Sum(Where(items, CategoryOf, r[i].name), CostOf) &&
              r[i].profit == Sum(Where(items, CategoryOf, r[i].name), ProfitOf) &&
              r[i].orders == Sum(Where(items, CategoryOf, r[i].name), QuantityOf) &&
              r[i].tax == Sum(Where(items, CategoryOf, r[i].name), TaxOf) &&
              r[i].margin == OneDecimalMargin(r[i].profit, r[i].revenue)
  {
    var items := AllItems(rs);
    var t := TallyOf(items, CategoryOf, NoTotals, AddItem);
    TallyKeys(items, CategoryOf, NoTotals, AddItem);
    forall k | k in t.keys ensures SumsOf(t.totals[k], Where(items, CategoryOf, k)) {
      TalliedSums(items, CategoryOf, k);
    }
  }

  function RowRevenue(c: CategoryAnalytics): real { c.revenue }

  lemma {:induction false} CategoryRowsRevenue(keys: seq<string>, totals: map<string, ItemTotals>, items: seq<SaleItem>)
    requires forall k :: k in keys ==> k in totals && totals[k].revenue == Sum(Where(items, CategoryOf, k), Net)
    ensures Sum(CategoryRows(keys, totals), RowRevenue) == SumOverKeys(keys, items, CategoryOf, Net)
  {
    if keys != [] {
      CategoryRowsRevenue(keys[..|keys| - 1], totals, items);
    }
  }

  /** The categories partition the items: their revenues add up to the revenue of every
      saved item. */
  lemma CategoryRevenueAddsUp(rs: seq<SalesRecord>)
    ensures Sum(CategoryAnalyticsOf(rs), RowRevenue) == Sum(AllItems(rs), Net)
  {
    var items := AllItems(rs);
    var t := TallyOf(items, CategoryOf, NoTotals, AddItem);
    var keys := DistinctKeys(items, CategoryOf);
    TallyKeys(items, CategoryOf, NoTotals, AddItem);
    forall k | k in keys ensures k in t.totals && t.totals[k].revenue == Sum(Where(items, CategoryOf, k), Net) {
      TalliedSums(items, CategoryOf, k);
    }
    CategoryRowsRevenue(keys, t.totals, items);
    forall i | 0 <= i < |items| ensures CategoryOf(items[i]) in keys {
      assert items[i] in items;
    }
    GroupsPartitionSum(keys, items, CategoryOf, Net);
  }

  /** One element of `getTopItems(limit)`. */
  datatype TopItem = TopItem(name: string, quantity: real, revenue: real, profit: real)

  function TopRow(name: string, t: ItemTotals): (r: TopItem)
    ensures r.name == name && r.quantity == t.orders && r.revenue == t.revenue && r.profit == t.profit
  {
    TopItem(name, t.orders, t.revenue, t.profit)
  }

  function TopRows(keys: seq<string>, totals: map<string, ItemTotals>): (r: seq<TopItem>)
    requires forall k :: k in keys ==> k in totals
    ensures |r| == |keys| && forall i :: 0 <= i < |keys| ==> r[i] == TopRow(keys[i], totals[keys[i]])
  {
    if keys == [] then [] else TopRows(keys[..|keys| - 1], totals) + [TopRow(keys[|keys| - 1], totals[keys[|keys| - 1]])]
  }

  function TopRevenue(t: TopItem): real { t.revenue }

  /** What `getTopItems(limit)` returns for the records `rs`: the per-name aggregates, by
      revenue, highest first, cut to `limit`. */
  function TopItemsOf(rs: seq<SalesRecord>, limit: int): seq<TopItem> {
    var t := TallyOf(AllItems(rs), ItemNameOf, NoTotals, AddItem);
    TallyDomain(AllItems(rs), ItemNameOf, NoTotals, AddItem);
    Take(SortDesc(TopRows(t.keys, t.totals), TopRevenue), limit)
  }

  /** The row of one item name: the sums over the sale lines of that name. */
  ghost predicate Aggregates(row: TopItem, items: seq<SaleItem>) {
    row.name in DistinctKeys(items, ItemNameOf) &&
    row.quantity == Sum(Where(items, ItemNameOf, row.name), QuantityOf) &&
    row.revenue == Sum(Where(items, ItemNameOf, row.name), Net) &&
    row.profit == Sum(Where(items, ItemNameOf, row.name), ProfitOf)
  }

  /** `limit` rows, or all of them when there are fewer item names (`slice(0, limit)` drops
      `-limit` rows from the end when `limit` is negative), highest revenue first, each the
      aggregate of one item name. */
  lemma TopItemsCorrect(rs: seq<SalesRecord>, limit: int)
    ensures var r, n := TopItemsOf(rs, limit), |DistinctKeys(AllItems(rs), ItemNameOf)|;
            (limit >= 0 ==> |r| == if limit < n then limit else n) &&
            (limit < 0 ==> |r| == if n + limit > 0 then n + limit else 0) &&
            SortedDesc(r, TopRevenue) &&
            forall i :: 0 <= i < |r| ==> Aggregates(r[i], AllItems(rs))
  {
    var items := AllItems(rs);
    var t := TallyOf(items, ItemNameOf, NoTotals, AddItem);
    TallyKeys(items, ItemNameOf, NoTotals, AddItem);
    var rows := TopRows(t.keys, t.totals);
    var sorted := SortDesc(rows, TopRevenue);
    var r := Take(sorted, limit);
    assert r == TopItemsOf(rs, limit);
    TopRowsAggregate(items);
    forall i | 0 <= i < |r| ensures Aggregates(r[i], items) {
      assert r[i] == sorted[i];
      assert sorted[i] in multiset(rows);
    }
    SortedPrefix(sorted, r, TopRevenue);
  }

  lemma TopRowsAggregate(items: seq<SaleItem>)
    ensures var t := TallyOf(items, ItemNameOf, NoTotals, AddItem);
            (forall k :: k in t.keys ==> k in t.totals) &&
            forall j :: 0 <= j < |t.keys| ==> Aggregates(TopRows(t.keys, t.totals)[j], items)
  {
    var t := TallyOf(items, ItemNameOf, NoTotals, AddItem);
    TallyKeys(items, ItemNameOf, NoTotals, AddItem);
    forall j | 0 <= j < |t.keys| ensures Aggregates(TopRows(t.keys, t.totals)[j], items) {
      TalliedSums(items, ItemNameOf, t.keys[j]);
    }
  }

  /** No item name left out of the list sold more than any name in it. */
  lemma TopItemsBeatLeftOut(rs: seq<SalesRecord>, limit: int)
    ensures var r, items := TopItemsOf(rs, limit), AllItems(rs);
            forall k :: k in DistinctKeys(items, ItemNameOf) && (forall i :: 0 <= i < |r| ==> r[i].name != k) ==>
              forall i :: 0 <= i < |r| ==> Sum(Where(items, ItemNameOf, k), Net) <= r[i].revenue
  {
    var items := AllItems(rs);
    var t := TallyOf(items, ItemNameOf, NoTotals, AddItem);
    TallyKeys(items, ItemNameOf, NoTotals, AddItem);
    TopRowsAggregate(items);
    var rows := TopRows(t.keys, t.totals);
    var sorted := SortDesc(rows, TopRevenue);
    var r := Take(sorted, limit);
    assert r == TopItemsOf(rs, limit);
    forall j | 0 <= j < |rows|
      ensures rows[j].name == t.keys[j] && rows[j].revenue == Sum(Where(items, ItemNameOf, t.keys[j]), Net)
    {
      assert Aggregates(rows[j], items);
    }
    CutRowsBeatLeftOut(items, t.keys, rows, sorted, r);
  }

  /** The name-by-name form of `TopItemsBeatLeftOut`, on any sorted permutation of the rows. */
  lemma CutRowsBeatLeftOut(items: seq<SaleItem>, keys: seq<string>, rows: seq<TopItem>, sorted: seq<TopItem>, r: seq<TopItem>)
    requires |rows| == |keys| && forall j :: 0 <= j < |rows| ==>
               rows[j].name == keys[j] && rows[j].revenue == Sum(Where(items, ItemNameOf, keys[j]), Net)
    requires multiset(sorted) == multiset(rows) && SortedDesc(sorted, TopRevenue) && r <= sorted
    ensures forall k :: k in keys && (forall i :: 0 <= i < |r| ==> r[i].name != k) ==>
              forall i :: 0 <= i < |r| ==> Sum(Where(items, ItemNameOf, k), Net) <= r[i].revenue
  {
    forall k | k in keys && (forall i :: 0 <= i < |r| ==> r[i].name != k)
      ensures forall i :: 0 <= i < |r| ==> Sum(Where(items, ItemNameOf, k), Net) <= r[i].revenue
    {
      var j :| 0 <= j < |keys| && keys[j] == k;
      LeftOutBelow(rows, sorted, r, TopRevenue, j);
    }
  }

  /** Rows of equal revenue keep the order in which their names were first sold, which is
      the insertion order of the `Map` that the stable sort preserves. */
  lemma TopItemsTiesInFirstSeenOrder(rs: seq<SalesRecord>, limit: int)
    ensures var r, ks := TopItemsOf(rs, limit), Mapped(AllItems(rs), ItemNameOf);
            forall i, j :: 0 <= i < j < |r| && r[i].revenue == r[j].revenue ==>
              r[i].name in ks && r[j].name in ks && FirstPosition(ks, r[i].name) < FirstPosition(ks, r[j].name)
  {
    var items := AllItems(rs);
    var ks := Mapped(items, ItemNameOf);
    var t := TallyOf(items, ItemNameOf, NoTotals, AddItem);
    TallyKeys(items, ItemNameOf, NoTotals, AddItem);
    DistinctKeysInFirstSeenOrder(items, ItemNameOf);
    var rows := TopRows(t.keys, t.totals);
    var sorted := SortDesc(rows, TopRevenue);
    var r := Take(sorted, limit);
    assert r == TopItemsOf(rs, limit);
    RowsNoDuplicates(t.keys, rows);
    SortDescStable(rows, TopRevenue);
    StablePrefix(rows, sorted, r, TopRevenue);
    TiedRowsByName(ks, t.keys, rows, r);
  }

  /** Rows named by distinct keys are distinct. */
  lemma RowsNoDuplicates(keys: seq<string>, rows: seq<TopItem>)
    requires NoDuplicates(keys) && |rows| == |keys| && forall j :: 0 <= j < |rows| ==> rows[j].name == keys[j]
    ensures NoDuplicates(rows)
  {
    forall a, b | 0 <= a < b < |rows| ensures rows[a] != rows[b] {
      assert rows[a].name == keys[a] && rows[b].name == keys[b];
    }
  }

  /** The name-by-name form of `TopItemsTiesInFirstSeenOrder`: rows that keep the order of
      their keys, named by keys in first-seen order of `ks`, keep that order among ties. */
  lemma TiedRowsByName(ks: seq<string>, keys: seq<string>, rows: seq<TopItem>, r: seq<TopItem>)
    requires |rows| == |keys| && forall j :: 0 <= j < |rows| ==> rows[j].name == keys[j]
    requires forall k :: k in keys ==> k in ks
    requires forall a, b :: 0 <= a < b < |keys| ==> FirstPosition(ks, keys[a]) < FirstPosition(ks, keys[b])
    requires StableFrom(rows, r, TopRevenue)
    ensures forall i, j :: 0 <= i < j < |r| && r[i].revenue == r[j].revenue ==>
              r[i].name in ks && r[j].name in ks && FirstPosition(ks, r[i].name) < FirstPosition(ks, r[j].name)
  {
    forall i, j | 0 <= i < j < |r| && r[i].revenue == r[j].revenue
      ensures r[i].name in ks && r[j].name in ks && FirstPosition(ks, r[i].name) < FirstPosition(ks, r[j].name)
    {
      assert TopRevenue(r[i]) == TopRevenue(r[j]);
      var a, b := FirstPosition(rows, r[i]), FirstPosition(rows, r[j]);
      assert r[i].name == keys[a] && r[j].name == keys[b];
    }
  }

  /** With a `limit` of at least the number of item names, every name has its row. */
  lemma TopItemsComplete(rs: seq<SalesRecord>, limit: int)
    requires limit >= |DistinctKeys(AllItems(rs), ItemNameOf)|
    ensures forall k :: k in DistinctKeys(AllItems(rs), ItemNameOf) ==>
              exists i :: 0 <= i < |TopItemsOf(rs, limit)| && TopItemsOf(rs, limit)[i].name == k
  {
    var items := AllItems(rs);
    var t := TallyOf(items, ItemNameOf, NoTotals, AddItem);
    TallyKeys(items, ItemNameOf, NoTotals, AddItem);
    var rows := TopRows(t.keys, t.totals);
    var sorted := SortDesc(rows, TopRevenue);
    var r := Take(sorted, limit);
    assert r == TopItemsOf(rs, limit);
    assert r == sorted;
    forall k | k in t.keys ensures exists i :: 0 <= i < |r| && r[i].name == k {
      var j :| 0 <= j < |t.keys| && t.keys[j] == k;
      var i := PermutedIndex(rows, sorted, j);
      assert r[i].name == k;
    }
  }

  /** An element of `xs` sits somewhere in any permutation `ys` of it. */
  lemma PermutedIndex<T>(xs: seq<T>, ys: seq<T>, j: nat) returns (i: nat)
    requires multiset(xs) == multiset(ys) && j < |xs|
    ensures i < |ys| && ys[i] == xs[j]
  {
    assert xs[j] in multiset(ys);
    i :| 0 <= i < |ys| && ys[i] == xs[j];
  }

  lemma SortedPrefix<T>(xs: seq<T>, p: seq<T>, key: T -> real)
    requires SortedDesc(xs, key) && p <= xs
    ensures SortedDesc(p, key)
  {
    forall i, j | 0 <= i < j < |p| ensures key(p[i]) >= key(p[j]) {
      assert p[i] == xs[i] && p[j] == xs[j];
    }
  }

  /** The running totals of `getDailyTrends`. */
  datatype DayTotals = DayTotals(revenue: real, profit: real, orders: real)

  const NoDayTotals := DayTotals(0.0, 0.0, 0.0)

  function AddRecord(t: DayTotals, r: SalesRecord): DayTotals {
    DayTotals(t.revenue + r.fields.totalRevenue, t.profit + r.fields.totalProfit, t.orders + r.fields.totalOrders)
  }

  lemma {:induction false} FoldDayTotals(xs: seq<SalesRecord>)
    ensures var t := Fold(xs, NoDayTotals, AddRecord);
            t.revenue == Sum(xs, RecordRevenue) && t.profit == Sum(xs, RecordProfit) && t.orders == Sum(xs, RecordOrders)
  {
    if xs != [] {
      FoldDayTotals(xs[..|xs| - 1]);
    }
  }

  /** One element of `getDailyTrends()`. */
  datatype DayTrend = DayTrend(date: string, revenue: real, profit: real, orders: real)

  function DayRows(keys: seq<string>, totals: map<string, DayTotals>): (r: seq<DayTrend>)
    requires forall k :: k in keys ==> k in totals
    ensures |r| == |keys|
    ensures forall i :: 0 <= i < |keys| ==>
              r[i] == DayTrend(keys[i], totals[keys[i]].revenue, totals[keys[i]].profit, totals[keys[i]].orders)
  {
    if keys == [] then []
    else
      var k := keys[|keys| - 1];
      DayRows(keys[..|keys| - 1], totals) + [DayTrend(k, totals[k].revenue, totals[k].profit, totals[k].orders)]
  }

  function TrendDate(d: DayTrend): string { d.date }

  /** What `getDailyTrends()` returns for the records `rs`: one row per date, in date order. */
  function DailyTrendsOf(rs: seq<SalesRecord>): seq<DayTrend> {
    var t := TallyOf(rs, RecordDate, NoDayTotals, AddRecord);
    TallyDomain(rs, RecordDate, NoDayTotals, AddRecord);
    SortAsc(DayRows(t.keys, t.totals), TrendDate)
  }

  /** The row of one date: the sums over the records of that date. */
  ghost predicate DayAggregates(d: DayTrend, rs: seq<SalesRecord>) {
    d.date in DistinctKeys(rs, RecordDate) &&
    d.revenue == Sum(Where(rs, RecordDate, d.date), RecordRevenue) &&
    d.profit == Sum(Where(rs, RecordDate, d.date), RecordProfit) &&
    d.orders == Sum(Where(rs, RecordDate, d.date), RecordOrders)
  }

  /** As many rows as there are dates, every date with its row, in ascending order, each the
      sums over the records of that date. */
  lemma DailyTrendsCorrect(rs: seq<SalesRecord>)
    ensures var r := DailyTrendsOf(rs);
            |r| == |DistinctKeys(rs, RecordDate)| && SortedAsc(r, TrendDate) &&
            (forall i :: 0 <= i < |r| ==> DayAggregates(r[i], rs)) &&
            (forall k :: k in DistinctKeys(rs, RecordDate) ==> exists i :: 0 <= i < |r| && r[i].date == k)
  {
    var t := TallyOf(rs, RecordDate, NoDayTotals, AddRecord);
    TallyKeys(rs, RecordDate, NoDayTotals, AddRecord);
    var rows := DayRows(t.keys, t.totals);
    var r := SortAsc(rows, TrendDate);
    assert r == DailyTrendsOf(rs);
    forall j | 0 <= j < |rows| ensures DayAggregates(rows[j], rs) {
      var k := t.keys[j];
      TallyTotals(rs, RecordDate, k, NoDayTotals, AddRecord);
      GroupFoldIsFoldOfGroup(rs, RecordDate, k, NoDayTotals, AddRecord);
      FoldDayTotals(Where(rs, RecordDate, k));
    }
    forall i | 0 <= i < |r| ensures DayAggregates(r[i], rs) {
      assert r[i] in multiset(rows);
    }
    forall k | k in t.keys ensures exists i :: 0 <= i < |r| && r[i].date == k {
      var j :| 0 <= j < |t.keys| && t.keys[j] == k;
      assert rows[j] in multiset(r);
      var i :| 0 <= i < |r| && r[i] == rows[j];
    }
  }

  /** The store. `inventory` and `salesRecords` are the module-level arrays; the counters are
      the next ids to hand out. */
  class Db {
    var inventory: seq<InventoryItem>
    var salesRecords: seq<SalesRecord>
    var inventoryIdCounter: int
    var salesIdCounter: int

    /** Sales record ids increase in insertion order and stay below the counter, which
        starts at 1 and only grows. */
    ghost predicate Valid()
      reads this
    {
      1 <= salesIdCounter && 1 <= inventoryIdCounter &&
      IdsBelow(Mapped(salesRecords, RecordId), salesIdCounter)
    }

    /** The inventory ids increase along the list and stay below the counter: true of the
        seed, kept by adding and deleting, and by every update that leaves the id alone. */
    ghost predicate FreshInventoryIds()
      reads this
    {
      IdsBelow(Mapped(inventory, EntryId), inventoryIdCounter)
    }

    /** No record was ever deleted: the records carry the ids 1, 2, 3, … in order. */
    ghost predicate Consecutive()
      reads this
    {
      salesIdCounter == |salesRecords| + 1 &&
      forall i :: 0 <= i < |salesRecords| ==> salesRecords[i].id == i + 1
    }

    /** The store at start-up: the seed list with ids 1..n, no records, counters n + 1 and 1. */
    constructor(seed: seq<InventoryData.InventoryItemData>, now: int)
      ensures inventory == Stamp(seed, now) && salesRecords == []
      ensures inventoryIdCounter == |seed| + 1 && salesIdCounter == 1
      ensures Valid() && FreshInventoryIds() && Consecutive()
    {
      inventory := Stamp(seed, now);
      salesRecords := [];
      inventoryIdCounter := |seed| + 1;
      salesIdCounter := 1;
      new;
      assert Mapped([], RecordId) == [];
    }

    /** `addInventoryItem(item)`: the item gets the counter as its id and goes last; nothing
        else changes. */
    method AddInventoryItem(item: NewInventoryItem, now: int) returns (r: InventoryItem)
      requires Valid()
      modifies this
      ensures r == InventoryItem(old(inventoryIdCounter), item.name, item.costPrice, item.sellingPrice,
                                 item.marginPercent, item.category, now)
      ensures inventory == old(inventory) + [r] && inventoryIdCounter == old(inventoryIdCounter) + 1
      ensures salesRecords == old(salesRecords) && salesIdCounter == old(salesIdCounter)
      ensures Valid()
      ensures old(FreshInventoryIds()) ==> FreshInventoryIds()
    {
      r := InventoryItem(inventoryIdCounter, item.name, item.costPrice, item.sellingPrice,
                         item.marginPercent, item.category, now);
      ghost var ids := Mapped(inventory, EntryId);
      inventory := inventory + [r];
      inventoryIdCounter := inventoryIdCounter + 1;
      assert Mapped(inventory, EntryId) == ids + [r.id];
      if IdsBelow(ids, r.id) {
        IdsBelowSnoc(ids, r.id);
      }
    }

    /** `updateInventoryItem(id, updates)`: the first item with the id is replaced, in place,
        by its update stamped `now`, and returned; with no such item nothing changes. */
    method UpdateInventoryItem(id: int, u: InventoryUpdate, now: int) returns (r: Option<InventoryItem>)
      requires Valid()
      modifies this
      ensures FirstIndex(old(inventory), HasId(id)).None? ==> r.None? && inventory == old(inventory)
      ensures FirstIndex(old(inventory), HasId(id)).Some? ==>
                var i := FirstIndex(old(inventory), HasId(id)).value;
                r == Some(ApplyUpdate(old(inventory)[i], u, now)) && inventory == old(inventory)[i := r.value]
      ensures inventoryIdCounter == old(inventoryIdCounter)
      ensures salesRecords == old(salesRecords) && salesIdCounter == old(salesIdCounter)
      ensures Valid()
      ensures old(FreshInventoryIds()) && u.id.None? ==> FreshInventoryIds()
    {
      var index := FirstIndex(inventory, HasId(id));
      if index.Some? {
        var i := index.value;
        var e := ApplyUpdate(inventory[i], u, now);
        ghost var ids := Mapped(inventory, EntryId);
        inventory := inventory[i := e];
        r := Some(e);
        if u.id.None? {
          assert Mapped(inventory, EntryId) == ids;
        }
      } else {
        r := None;
      }
    }

    /** `deleteInventoryItem(id)`: the first item with the id is removed and the answer is
        `true`; with no such item nothing changes and the answer is `false`. */
    method DeleteInventoryItem(id: int) returns (deleted: bool)
      requires Valid()
      modifies this
      ensures deleted <==> FirstIndex(old(inventory), HasId(id)).Some?
      ensures deleted ==> inventory == Without(old(inventory), FirstIndex(old(inventory), HasId(id)).value)
      ensures !deleted ==> inventory == old(inventory)
      ensures inventoryIdCounter == old(inventoryIdCounter)
      ensures salesRecords == old(salesRecords) && salesIdCounter == old(salesIdCounter)
      ensures Valid()
      ensures old(FreshInventoryIds()) ==> FreshInventoryIds()
      ensures old(FreshInventoryIds()) ==> forall j :: 0 <= j < |inventory| ==> inventory[j].id != id
    {
      var index := FirstIndex(inventory, HasId(id));
      if index.Some? {
        var i := index.value;
        ghost var ids := Mapped(inventory, EntryId);
        MappedWithout(inventory, EntryId, i);
        inventory := Without(inventory, i);
        deleted := true;
        if IdsBelow(ids, inventoryIdCounter) {
          IdsBelowRemove(ids, inventoryIdCounter, i);
          IdsBelowUnique(ids, inventoryIdCounter, i);
          forall j | 0 <= j < |inventory| ensures inventory[j].id != id {
            assert inventory[j].id == Mapped(inventory, EntryId)[j];
          }
        }
      } else {
        deleted := false;
        forall j | 0 <= j < |inventory| ensures inventory[j].id != id {
          assert !HasId(id)(inventory[j]);
        }
      }
    }

    /** `addSalesRecord(record)`: the record gets the counter as its id and goes last;
        nothing else changes. */
    method AddSalesRecord(fields: SalesFields, now: int) returns (r: SalesRecord)
      requires Valid()
      modifies this
      ensures r == SalesRecord(old(salesIdCounter), fields, now)
      ensures salesRecords == old(salesRecords) + [r] && salesIdCounter == old(salesIdCounter) + 1
      ensures inventory == old(inventory) && inventoryIdCounter == old(inventoryIdCounter)
      ensures Valid()
      ensures old(Consecutive()) ==> Consecutive() && r.id == |salesRecords|
    {
      r := SalesRecord(salesIdCounter, fields, now);
      ghost var ids := Mapped(salesRecords, RecordId);
      salesRecords := salesRecords + [r];
      salesIdCounter := salesIdCounter + 1;
      assert Mapped(salesRecords, RecordId) == ids + [r.id];
      IdsBelowSnoc(ids, r.id);
    }

    /** `deleteSalesRecord(id)`: the first record with the id is removed and the answer is
        `true`; with no such record nothing changes and the answer is `false`. */
    method DeleteSalesRecord(id: int) returns (deleted: bool)
      requires Valid()
      modifies this
      ensures deleted <==> FirstIndex(old(salesRecords), RecordHasId(id)).Some?
      ensures deleted ==> salesRecords == Without(old(salesRecords), FirstIndex(old(salesRecords), RecordHasId(id)).value)
      ensures !deleted ==> salesRecords == old(salesRecords)
      ensures salesIdCounter == old(salesIdCounter)
      ensures inventory == old(inventory) && inventoryIdCounter == old(inventoryIdCounter)
      ensures Valid()
      ensures forall j :: 0 <= j < |salesRecords| ==> salesRecords[j].id != id
    {
      var index := FirstIndex(salesRecords, RecordHasId(id));
      if index.Some? {
        var i := index.value;
        ghost var ids := Mapped(salesRecords, RecordId);
        MappedWithout(salesRecords, RecordId, i);
        salesRecords := Without(salesRecords, i);
        deleted := true;
        IdsBelowRemove(ids, salesIdCounter, i);
        IdsBelowUnique(ids, salesIdCounter, i);
        forall j | 0 <= j < |salesRecords| ensures salesRecords[j].id != id {
          assert salesRecords[j].id == Mapped(salesRecords, RecordId)[j];
        }
      } else {
        deleted := false;
        forall j | 0 <= j < |salesRecords| ensures salesRecords[j].id != id {
          assert !RecordHasId(id)(salesRecords[j]);
        }
      }
    }
    /** `getCategoryAnalytics()`: the two nested `forEach` loops over the records and their
        items, then one row per map entry. */
    method GetCategoryAnalytics() returns (r: seq<CategoryAnalytics>)
      ensures r == CategoryAnalyticsOf(salesRecords)
    {
      var t := Table([], map[]);
      ghost var done: seq<SaleItem> := [];
      var i := 0;
      assert salesRecords[..0] == [];
      while i < |salesRecords|
        invariant 0 <= i <= |salesRecords|
        invariant done == AllItems(salesRecords[..i])
        invariant t == TallyOf(done, CategoryOf, NoTotals, AddItem)
      {
        var record := salesRecords[i];
        t := TallyInto(done, t, record.fields.items, CategoryOf, NoTotals, AddItem);
        assert salesRecords[..i + 1] == salesRecords[..i] + [record];
        AllItemsSnoc(salesRecords[..i], record);
        done := done + record.fields.items;
        i := i + 1;
      }
      assert salesRecords[..i] == salesRecords;
      TallyDomain(done, CategoryOf, NoTotals, AddItem);
      r := CategoryRows(t.keys, t.totals);
    }

    /** `getTopItems(limit)` (`limit` is 10 when the caller gives none). */
    method GetTopItems(limit: int) returns (r: seq<TopItem>)
      ensures r == TopItemsOf(salesRecords, limit)
    {
      var t := Table([], map[]);
      ghost var done: seq<SaleItem> := [];
      var i := 0;
      assert salesRecords[..0] == [];
      while i < |salesRecords|
        invariant 0 <= i <= |salesRecords|
        invariant done == AllItems(salesRecords[..i])
        invariant t == TallyOf(done, ItemNameOf, NoTotals, AddItem)
      {
        var record := salesRecords[i];
        t := TallyInto(done, t, record.fields.items, ItemNameOf, NoTotals, AddItem);
        assert salesRecords[..i + 1] == salesRecords[..i] + [record];
        AllItemsSnoc(salesRecords[..i], record);
        done := done + record.fields.items;
        i := i + 1;
      }
      assert salesRecords[..i] == salesRecords;
      TallyDomain(done, ItemNameOf, NoTotals, AddItem);
      r := Take(SortDesc(TopRows(t.keys, t.totals), TopRevenue), limit);
    }

    /** `getDailyTrends()`: one `forEach` over the records keyed by date, then the rows in
        date order. */
    method GetDailyTrends() returns (r: seq<DayTrend>)
      ensures r == DailyTrendsOf(salesRecords)
    {
      var t := TallyInto([], Table([], map[]), salesRecords, RecordDate, NoDayTotals, AddRecord);
      assert [] + salesRecords == salesRecords;
      TallyDomain(salesRecords, RecordDate, NoDayTotals, AddRecord);
      r := SortAsc(DayRows(t.keys, t.totals), TrendDate);
    }
  }
}
