/** The seed inventory and its lookup helpers: each entry's cost is derived from its selling
    price and target margin, and names are resolved case-insensitively, exact names first. */
module InventoryData {
  import opened Strings
  import opened Wrappers
  import opened Money
  import opened Grouping
  import opened Lookup

  datatype InventoryItemData = InventoryItemData(
    name: string, costPrice: real, category: string, sellingPrice: real, marginPercent: real)

  /** `calcCost(sellingPrice, marginPercent)`: the cost that leaves the target margin,
      rounded half up to a whole amount. */
  function CalcCost(sellingPrice: real, marginPercent: real): (r: int)
    ensures sellingPrice * (1.0 - marginPercent / 100.0) - 0.5 < r as real <= sellingPrice * (1.0 - marginPercent / 100.0) + 0.5
  {
    Round(sellingPrice * (1.0 - marginPercent / 100.0))
  }

  /** With a margin between 0 and 100 percent and a whole selling price, the cost is between
      zero and the selling price. */
  lemma CalcCostBounds(sellingPrice: int, marginPercent: real)
    requires sellingPrice >= 0 && 0.0 <= marginPercent <= 100.0
    ensures 0 <= CalcCost(sellingPrice as real, marginPercent) <= sellingPrice
  {
    var s := sellingPrice as real;
    var f := 1.0 - marginPercent / 100.0;
    assert 0.0 <= f <= 1.0;
    assert s - s * f == s * (1.0 - f) && 0.0 <= s * (1.0 - f);
    RoundAtMostWhole(s * f, sellingPrice);
  }

  /** Rounding never moves a value past a whole number on either side of it. */
  lemma RoundAtMostWhole(x: real, n: int)
    requires 0.0 <= x <= n as real
    ensures 0 <= Round(x) <= n
  {
  }

  /** The rounding is half up: 199 at a 50% margin costs 100, not 99. */
  lemma CalcCostHalfUp()
    ensures CalcCost(199.0, 50.0) == 100
    ensures CalcCost(449.0, 40.0) == 269
  {
    RoundUnique(99.5, 100);
    RoundUnique(269.4, 269);
  }

  /** A whole percentage. */
  type Percent = m: int | 0 <= m <= 100

  /** One line of the seed list as written: name, selling price, target margin, category. */
  datatype SeedRow = SeedRow(name: string, sellingPrice: nat, marginPercent: Percent, category: string)

  /** The entry a seed line produces, with its cost computed by `calcCost`. */
  function Seed(row: SeedRow): (e: InventoryItemData)
    ensures e.name == row.name && e.category == row.category
    ensures e.sellingPrice == row.sellingPrice as real && e.marginPercent == row.marginPercent as real
    ensures 0.0 <= e.costPrice <= e.sellingPrice
  {
    CalcCostBounds(row.sellingPrice, row.marginPercent as real);
    InventoryItemData(row.name, CalcCost(row.sellingPrice as real, row.marginPercent as real) as real,
                      row.category, row.sellingPrice as real, row.marginPercent as real)
  }

  const SeedRows: seq<SeedRow> := [
      SeedRow("Non Veg Sweet Corn Soup", 199, 50, "Dine In Food Menu"),
      SeedRow("Crispy Corn", 249, 52, "Dine In Food Menu"),
      SeedRow("Mushroom Salt And Pepper", 299, 50, "Dine In Food Menu"),
      SeedRow("Chilli Chicken", 349, 48, "Dine In Food Menu"),
      SeedRow("Chilli Prawns", 449, 42, "Dine In Food Menu"),
      SeedRow("Dragon Chicken", 349, 48, "Dine In Food Menu"),
      SeedRow("Chilli Egg", 249, 50, "Dine In Food Menu"),
      SeedRow("Chicken Lollipop", 399, 45, "Dine In Food Menu"),
      SeedRow("Chicken Drum Sticks", 399, 45, "Dine In Food Menu"),
      SeedRow("Appolo Fish", 299, 48, "Dine In Food Menu"),
      SeedRow("Pepper Chicken", 399, 47, "Dine In Food Menu"),
      SeedRow("Chilli Loose Prawn", 449, 40, "Dine In Food Menu"),
      SeedRow("Chicken Roast", 349, 48, "Dine In Food Menu"),
      SeedRow("Chicken 65", 349, 48, "Dine In Food Menu"),
      SeedRow("Crunchi Chicken", 399, 47, "Dine In Food Menu"),
      SeedRow("Salt French Fries", 199, 60, "Dine In Food Menu"),
      SeedRow("Green Salda", 149, 65, "Dine In Food Menu"),
      SeedRow("Kaju Fry", 349, 35, "Dine In Food Menu"),
      SeedRow("kaju chicken", 399, 38, "Dine In Food Menu"),
      SeedRow("Veg Fried Rice", 249, 55, "Dine In Food Menu"),
      SeedRow("Egg Fried Rice", 279, 52, "Dine In Food Menu"),
      SeedRow("spl veg fried rice", 299, 50, "Dine In Food Menu"),
      SeedRow("spl non veg fried rice", 349, 48, "Dine In Food Menu"),
      SeedRow("mixed non veg fried rice", 399, 45, "Dine In Food Menu"),
      SeedRow("Konaseema Boneless Biriyani", 449, 42, "Dine In Food Menu"),
      SeedRow("butter garlice prwans", 499, 38, "Dine In Food Menu"),
      SeedRow("Coke", 99, 70, "Bar Menu"),
      SeedRow("Thumsup", 99, 70, "Bar Menu"),
      SeedRow("Sprit", 99, 70, "Bar Menu"),
      SeedRow("Fresh Lemon Soda", 129, 72, "Bar Menu"),
      SeedRow("Blue Lagoon", 199, 65, "Bar Menu"),
      SeedRow("Orange Mojito", 199, 65, "Bar Menu"),
      SeedRow("Mango Mojito", 199, 65, "Bar Menu"),
      SeedRow("Pineapple Mojito", 199, 65, "Bar Menu"),
      SeedRow("Virgin Mojito", 179, 65, "Bar Menu"),
      SeedRow("Mint & Mango", 199, 65, "Bar Menu"),
      SeedRow("Red Bull", 249, 55, "Bar Menu"),
      SeedRow("Cranberry (premium)", 249, 45, "Bar Menu"),
      SeedRow("Kf Strong", 299, 50, "Bar Menu"),
      SeedRow("Kf Ultra", 349, 48, "Bar Menu"),
      SeedRow("Heineken Tin", 399, 40, "Bar Menu"),
      SeedRow("Budweiser", 349, 42, "Bar Menu"),
      SeedRow("Budweiser Magnum", 449, 40, "Bar Menu"),
      SeedRow("Budweiser 500ml", 399, 42, "Bar Menu"),
      SeedRow("Screwdriver", 399, 60, "Bar Menu"),
      SeedRow("Absolut (30 Ml)", 299, 55, "Bar Menu"),
      SeedRow("Black Dog (30 Ml)", 299, 55, "Bar Menu"),
      SeedRow("M.m Green 30ml", 199, 58, "Bar Menu"),
      SeedRow("MC 1 QUTR", 349, 52, "Bar Menu"),
      SeedRow("Jocobs Greek (150 Ml)", 799, 45, "Bar Menu"),
      SeedRow("Water Bottle", 49, 60, "Others")

    ]

  /** `rows.map(Seed)`. */
  function SeedAll(rows: seq<SeedRow>): (r: seq<InventoryItemData>)
    ensures |r| == |rows| && forall i :: 0 <= i < |rows| ==> r[i] == Seed(rows[i])
  {
    if rows == [] then [] else [Seed(rows[0])] + SeedAll(rows[1..])
  }

  /** `DEFAULT_INVENTORY`. */
  const DefaultInventory: seq<InventoryItemData> := SeedAll(SeedRows)

  function NameOf(e: InventoryItemData): string { e.name }

  function CategoryOf(e: InventoryItemData): string { e.category }

  /** The entry costs no more than it sells for, and nothing negative. */
  predicate WellPriced(e: InventoryItemData) {
    0.0 <= e.costPrice <= e.sellingPrice
  }

  lemma SeedAllWellPriced(rows: seq<SeedRow>)
    ensures forall i :: 0 <= i < |SeedAll(rows)| ==> WellPriced(SeedAll(rows)[i])
  {
    var r := SeedAll(rows);
    forall i | 0 <= i < |r| ensures WellPriced(r[i]) {
      assert r[i] == Seed(rows[i]);
    }
  }

  /** No seeded item costs more than it sells for. */
  lemma SeedCostsWithinPrice()
    ensures |DefaultInventory| == 51
    ensures forall i :: 0 <= i < |DefaultInventory| ==> WellPriced(DefaultInventory[i])
  {
    assert |SeedRows| == 51;
    SeedAllWellPriced(SeedRows);
  }

  /** `getItemCost(itemName)` over the list `inv` (`DEFAULT_INVENTORY` in the program): the cost
      and target margin of the entry found by the two-tier lookup on the trimmed, lower-cased
      name, or `null`. */
  function GetItemCost(inv: seq<InventoryItemData>, itemName: string): (r: Option<(real, real)>)
    ensures var i := FuzzyIndex(inv, NameOf, Lower(Trim(itemName)));
            (r.None? <==> i.None?) &&
            (r.Some? ==> r.value == (inv[i.value].costPrice, inv[i.value].marginPercent))
  {
    match FuzzyIndex(inv, NameOf, Lower(Trim(itemName)))
    case None => None
    case Some(i) => Some((inv[i].costPrice, inv[i].marginPercent))
  }

  /** An exact name beats an earlier partial one: "Budweiser Magnum" contains "budweiser",
      which comes first in the list, yet it resolves to its own entry and its own cost. */
  lemma ExactNameWins(table: seq<InventoryItemData>, itemName: string)
    requires table == [Seed(SeedRow("Budweiser", 349, 42, "Bar Menu")), Seed(SeedRow("Budweiser Magnum", 449, 40, "Bar Menu"))]
    requires Trim(itemName) == "Budweiser Magnum"
    ensures Overlaps(table[0].name, Lower(Trim(itemName)))
    ensures GetItemCost(table, itemName) == Some((269.0, 40.0))
  {
    var q := Lower("Budweiser Magnum");
    LowerPrefix("Budweiser", "Budweiser Magnum");
    ExactSecond(table, q);
    CalcCostHalfUp();
  }

  /** Of two entries whose names differ in length, a query equal to the second's lower-cased
      name picks the second. */
  lemma ExactSecond(table: seq<InventoryItemData>, q: string)
    requires |table| == 2 && |table[0].name| != |table[1].name| && q == Lower(table[1].name)
    ensures FuzzyIndex(table, NameOf, q) == Some(1)
  {
    assert SameName(NameOf(table[1]), q);
    assert |Lower(NameOf(table[0]))| != |q|;
  }

  /** `getItemsByCategory(category)`: exactly the entries of that category, in list order. */
  function GetItemsByCategory(inv: seq<InventoryItemData>, category: string): (r: seq<InventoryItemData>)
    ensures forall e :: e in r <==> e in inv && e.category == category
    ensures |r| <= |inv|
  {
    Where(inv, CategoryOf, category)
  }

  /** The category list of a concatenation is the concatenation of the lists, and a single
      entry is kept exactly when it has the category: the list is the entries of that category
      in list order. */
  lemma ItemsByCategoryInListOrder(a: seq<InventoryItemData>, b: seq<InventoryItemData>, e: InventoryItemData, category: string)
    ensures GetItemsByCategory(a + b, category) == GetItemsByCategory(a, category) + GetItemsByCategory(b, category)
    ensures GetItemsByCategory([e], category) == if e.category == category then [e] else []
  {
    WhereAppend(a, b, CategoryOf, category);
    WhereSingleton(e, CategoryOf, category);
  }

  /** `getAllCategories()`: the distinct categories, in first-occurrence order. */
  function GetAllCategories(inv: seq<InventoryItemData>): (r: seq<string>)
    ensures NoDuplicates(r)
    ensures forall c :: c in r <==> exists e :: e in inv && e.category == c
    ensures forall c :: c in r <==> c in Mapped(inv, CategoryOf)
    ensures forall i, j :: 0 <= i < j < |r| ==> FirstPosition(Mapped(inv, CategoryOf), r[i]) < FirstPosition(Mapped(inv, CategoryOf), r[j])
  {
    DistinctKeysInFirstSeenOrder(inv, CategoryOf);
    DistinctKeys(inv, CategoryOf)
  }

  /** Every entry falls in exactly one of the listed categories: the category lists together
      hold the whole inventory. */
  lemma CategoriesCoverInventory(inv: seq<InventoryItemData>)
    ensures CountOverKeys(GetAllCategories(inv), inv, CategoryOf) == |inv|
  {
    var cs := GetAllCategories(inv);
    forall i | 0 <= i < |inv| ensures CategoryOf(inv[i]) in cs {
      assert inv[i] in inv;
    }
    GroupsPartitionCount(cs, inv, CategoryOf);
  }
}
