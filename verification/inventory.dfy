/**
 * The pure and loop logic inside the inventory handlers
 * (webapp/web/handlers/inventory.go): filter placeholders and sort orders of
 * the warehouse and shelf listings, their summary counters, the grouping of
 * low-stock alerts, the stock-transfer history pagination, and the checks
 * and field patching of discount rules.  Rows come from SQL whose CASE
 * expressions compute the status texts; the rows are inputs here.
 */
module InventoryHandlers {
  import opened Wrappers
  import opened Paging
  import SalesHandlers

  // ---------------------------------------------------------------------
  // Status texts written by the SQL queries

  const Expired: string := "H\U{1EBF}t h\U{1EA1}n"
  const NearExpiry: string := "S\U{1EAF}p h\U{1EBF}t h\U{1EA1}n"
  const LowStock: string := "S\U{1EAF}p h\U{1EBF}t h\U{E0}ng"
  const OutOfStock: string := "H\U{1EBF}t h\U{E0}ng"
  const ReorderNow: string := "C\U{1EA7}n nh\U{1EAD}p ngay"
  const ReorderSoon: string := "C\U{1EA7}n \U{111}\U{1EB7}t h\U{E0}ng"
  const RefillShelf: string := "C\U{1EA7}n b\U{1ED5} sung k\U{1EC7}"

  // ---------------------------------------------------------------------
  // Filters and sort orders

  /**
   * One filter step in the style of these handlers: `argCount` is incremented
   * first and then written as the placeholder.
   */
  method AddCountedFilter<K>(conds: seq<Condition<K>>, args: seq<Arg>, argCount: int,
                             ghost fs: seq<Filter<K>>, param: string, f: Filter<K>)
    returns (conds': seq<Condition<K>>, args': seq<Arg>, argCount': int)
    requires conds == Numbered(fs, 1) && args == ArgsOf(fs) && argCount == |fs|
    ensures conds' == Numbered(fs + When(param, f), 1) && args' == ArgsOf(fs + When(param, f))
    ensures argCount' == |fs + When(param, f)|
  {
    conds', args', argCount' := conds, args, argCount;
    if param != "" {
      argCount' := argCount' + 1;
      NumberedStep(fs, f);
      conds' := conds' + [Condition(f.kind, Repeat(argCount', f.uses))];
      args' := args' + [f.arg];
    } else {
      assert fs + When(param, f) == fs;
    }
  }

  datatype StockCondition =
    | WarehouseIs
    | ShelfIs
    | CategoryIs
    | StockSearch      // product name, product code or batch code LIKE one pattern

  function WarehouseFilters(warehouseId: string, categoryId: string, search: string): seq<Filter<StockCondition>> {
    When(warehouseId, Filter(WarehouseIs, Text(warehouseId), 1))
    + When(categoryId, Filter(CategoryIs, Text(categoryId), 1))
    + When(search, Filter(StockSearch, Text("%" + search + "%"), 3))
  }

  function ShelfFilters(shelfId: string, categoryId: string, search: string): seq<Filter<StockCondition>> {
    When(shelfId, Filter(ShelfIs, Text(shelfId), 1))
    + When(categoryId, Filter(CategoryIs, Text(categoryId), 1))
    + When(search, Filter(StockSearch, Text("%" + search + "%"), 3))
  }

  /** Three optional filters appended in order, counting placeholders from `$1`. */
  method ThreeFilters<K>(p1: string, f1: Filter<K>, p2: string, f2: Filter<K>, p3: string, f3: Filter<K>)
    returns (conds: seq<Condition<K>>, args: seq<Arg>, argCount: int)
    ensures var fs := When(p1, f1) + When(p2, f2) + When(p3, f3);
            conds == Numbered(fs, 1) && args == ArgsOf(fs) && argCount == |args|
  {
    conds, args, argCount := [], [], 0;
    ghost var fs: seq<Filter<K>> := [];
    conds, args, argCount := AddCountedFilter(conds, args, argCount, fs, p1, f1);
    fs := fs + When(p1, f1);
    conds, args, argCount := AddCountedFilter(conds, args, argCount, fs, p2, f2);
    fs := fs + When(p2, f2);
    conds, args, argCount := AddCountedFilter(conds, args, argCount, fs, p3, f3);
    fs := fs + When(p3, f3);
    assert [] + When(p1, f1) == When(p1, f1);
  }

  /** The two stock listings, which differ in their table alias and in their second sort key. */
  datatype StockTable = Warehouse | Shelf

  /** The order by expiry, and the fallback order by ascending quantity. */
  function ExpiryOrder(t: StockTable): string {
    match t
    case Warehouse => " ORDER BY days_until_expiry ASC, wi.quantity DESC"
    case Shelf => " ORDER BY days_until_expiry ASC, si.quantity DESC"
  }

  function QuantityOrder(t: StockTable): string {
    match t
    case Warehouse => " ORDER BY wi.quantity ASC"
    case Shelf => " ORDER BY si.quantity ASC"
  }

  /** The sort key only one listing knows, and the order it selects. */
  function SecondKey(t: StockTable): string {
    match t
    case Warehouse => "value"
    case Shelf => "sales"
  }

  function SecondOrder(t: StockTable): string {
    match t
    case Warehouse => " ORDER BY total_value DESC"
    case Shelf => " ORDER BY sold_today DESC, si.quantity ASC"
  }

  /** The `ORDER BY` of a stock listing; an unknown key sorts by ascending quantity. */
  function StockOrder(t: StockTable, sortBy: string): (r: string)
    ensures r == QuantityOrder(t) <==>
              sortBy != "expiry" && sortBy != SecondKey(t) && sortBy != "name"
    ensures sortBy == SecondKey(t) <==> r == SecondOrder(t)
  {
    if sortBy == "expiry" then ExpiryOrder(t)
    else if sortBy == SecondKey(t) then SecondOrder(t)
    else if sortBy == "name" then " ORDER BY p.product_name ASC"
    else QuantityOrder(t)
  }

  /** The warehouse listing query: one argument per non-empty filter, then the sort order. */
  method WarehouseQuery(warehouseId: string, categoryId: string, search: string, sortBy: string)
    returns (conds: seq<Condition<StockCondition>>, args: seq<Arg>, argCount: int, order: string)
    ensures conds == Numbered(WarehouseFilters(warehouseId, categoryId, search), 1)
    ensures args == ArgsOf(WarehouseFilters(warehouseId, categoryId, search)) && argCount == |args|
    ensures order == StockOrder(Warehouse, sortBy)
  {
    conds, args, argCount := ThreeFilters(warehouseId, Filter(WarehouseIs, Text(warehouseId), 1),
                                          categoryId, Filter(CategoryIs, Text(categoryId), 1),
                                          search, Filter(StockSearch, Text("%" + search + "%"), 3));
    if sortBy == "expiry" {
      order := " ORDER BY days_until_expiry ASC, wi.quantity DESC";
    } else if sortBy == "value" {
      order := " ORDER BY total_value DESC";
    } else if sortBy == "name" {
      order := " ORDER BY p.product_name ASC";
    } else {
      order := " ORDER BY wi.quantity ASC";
    }
  }

  /** The shelf listing query: one argument per non-empty filter, then the sort order. */
  method ShelfQuery(shelfId: string, categoryId: string, search: string, sortBy: string)
    returns (conds: seq<Condition<StockCondition>>, args: seq<Arg>, argCount: int, order: string)
    ensures conds == Numbered(ShelfFilters(shelfId, categoryId, search), 1)
    ensures args == ArgsOf(ShelfFilters(shelfId, categoryId, search)) && argCount == |args|
    ensures order == StockOrder(Shelf, sortBy)
  {
    conds, args, argCount := ThreeFilters(shelfId, Filter(ShelfIs, Text(shelfId), 1),
                                          categoryId, Filter(CategoryIs, Text(categoryId), 1),
                                          search, Filter(StockSearch, Text("%" + search + "%"), 3));
    if sortBy == "expiry" {
      order := " ORDER BY days_until_expiry ASC, si.quantity DESC";
    } else if sortBy == "sales" {
      order := " ORDER BY sold_today DESC, si.quantity ASC";
    } else if sortBy == "name" {
      order := " ORDER BY p.product_name ASC";
    } else {
      order := " ORDER BY si.quantity ASC";
    }
  }

  // ---------------------------------------------------------------------
  // Stock transfer history

  datatype TransferCondition =
    | TransferFrom
    | TransferTo
    | TransferSearch   // product name, product code, warehouse name or shelf name LIKE one pattern

  function TransferFilters(fromDate: string, toDate: string, search: string): seq<Filter<TransferCondition>> {
    When(fromDate, Filter(TransferFrom, Text(fromDate), 1))
    + When(toDate, Filter(TransferTo, Text(toDate), 1))
    + When(search, Filter(TransferSearch, Text("%" + search + "%"), 4))
  }

  /**
   * The list query.  `LIMIT` and `OFFSET` are formatted into the text as
   * numbers, not bound as arguments, so the arguments are the filters' only.
   */
  method TransferQuery(fromDate: string, toDate: string, search: string, page: int, limit: int)
    returns (conds: seq<Condition<TransferCondition>>, args: seq<Arg>, argCount: int, limitText: int, offsetText: int)
    ensures conds == Numbered(TransferFilters(fromDate, toDate, search), 1)
    ensures args == ArgsOf(TransferFilters(fromDate, toDate, search)) && argCount == |args|
    ensures limitText == limit && offsetText == Offset(page, limit)
  {
    var offset := (page - 1) * limit;
    conds, args, argCount := ThreeFilters(fromDate, Filter(TransferFrom, Text(fromDate), 1),
                                          toDate, Filter(TransferTo, Text(toDate), 1),
                                          search, Filter(TransferSearch, Text("%" + search + "%"), 4));
    limitText, offsetText := limit, offset;
  }

  /** The count query and the list query apply identical conditions with identical arguments. */
  method TransferQueries(fromDate: string, toDate: string, search: string, page: int, limit: int)
    returns (conds: seq<Condition<TransferCondition>>, args: seq<Arg>,
             countConds: seq<Condition<TransferCondition>>, countArgs: seq<Arg>)
    ensures countConds == conds && countArgs == args
    ensures |args| == |TransferFilters(fromDate, toDate, search)|
  {
    var argCount, limitText, offsetText, countArgCount;
    conds, args, argCount, limitText, offsetText := TransferQuery(fromDate, toDate, search, page, limit);
    countConds, countArgs, countArgCount := ThreeFilters(fromDate, Filter(TransferFrom, Text(fromDate), 1),
                                                         toDate, Filter(TransferTo, Text(toDate), 1),
                                                         search, Filter(TransferSearch, Text("%" + search + "%"), 4));
  }

  /**
   * The error of the count query is ignored, so a failed count leaves the
   * total at zero: the history then reports zero pages for any positive limit.
   */
  lemma IgnoredCountGivesNoPages(limit: int)
    requires limit > 0
    ensures TotalPages(0, limit) == Some(0)
  {
    assert GoDiv(limit - 1, limit) * limit <= limit - 1 < GoDiv(limit - 1, limit) * limit + limit;
    if GoDiv(limit - 1, limit) >= 1 {
      MulMonotone(1, GoDiv(limit - 1, limit), limit);
    } else if GoDiv(limit - 1, limit) <= -1 {
      MulMonotone(GoDiv(limit - 1, limit), -1, limit);
    }
  }

  // ---------------------------------------------------------------------
  // Summary counters

  /** How many elements of `xs` satisfy `p`. */
  function CountIf<T>(xs: seq<T>, p: T -> bool): (n: nat)
    ensures n <= |xs|
  {
    if |xs| == 0 then 0 else CountIf(xs[..|xs| - 1], p) + (if p(xs[|xs| - 1]) then 1 else 0)
  }

  /** Two conditions that never hold together count at most every element once. */
  lemma {:induction false} CountIfDisjoint<T>(xs: seq<T>, p: T -> bool, q: T -> bool)
    requires forall x :: !(p(x) && q(x))
    ensures CountIf(xs, p) + CountIf(xs, q) <= |xs|
  {
    if |xs| > 0 {
      CountIfDisjoint(xs[..|xs| - 1], p, q);
    }
  }

  function SumOf<T>(xs: seq<T>, f: T -> int): int {
    if |xs| == 0 then 0 else SumOf(xs[..|xs| - 1], f) + f(xs[|xs| - 1])
  }

  /** A warehouse row: its quantity and the expiry status computed by the query. */
  datatype WarehouseItem = WarehouseItem(quantity: int, expiryStatus: string)

  datatype WarehouseSummary = WarehouseSummary(totalItems: int, totalQuantity: int, expiredCount: int, nearExpiryCount: int)

  predicate ItemExpired(i: WarehouseItem) { i.expiryStatus == Expired }

  /** Counted only in the `else if` branch, so never together with `ItemExpired`. */
  predicate ItemNearExpiry(i: WarehouseItem) { i.expiryStatus != Expired && i.expiryStatus == NearExpiry }

  function ItemQuantity(i: WarehouseItem): int { i.quantity }

  method SummarizeWarehouse(items: seq<WarehouseItem>) returns (s: WarehouseSummary)
    ensures s.totalItems == |items| && s.totalQuantity == SumOf(items, ItemQuantity)
    ensures s.expiredCount == CountIf(items, ItemExpired) && s.nearExpiryCount == CountIf(items, ItemNearExpiry)
  {
    s := WarehouseSummary(0, 0, 0, 0);
    var k := 0;
    while k < |items|
      invariant 0 <= k <= |items|
      invariant s.totalItems == k && s.totalQuantity == SumOf(items[..k], ItemQuantity)
      invariant s.expiredCount == CountIf(items[..k], ItemExpired)
      invariant s.nearExpiryCount == CountIf(items[..k], ItemNearExpiry)
    {
      var item := items[k];
      assert items[..k + 1][..k] == items[..k];
      s := s.(totalItems := s.totalItems + 1, totalQuantity := s.totalQuantity + item.quantity);
      if item.expiryStatus == Expired {
        s := s.(expiredCount := s.expiredCount + 1);
      } else if item.expiryStatus == NearExpiry {
        s := s.(nearExpiryCount := s.nearExpiryCount + 1);
      }
      k := k + 1;
    }
    assert items[..k] == items;
  }

  /** Expired and near-expiry rows are counted apart, so together they are at most the row count. */
  lemma WarehouseCountsBounded(items: seq<WarehouseItem>)
    ensures CountIf(items, ItemExpired) + CountIf(items, ItemNearExpiry) <= |items|
  {
    CountIfDisjoint(items, ItemExpired, ItemNearExpiry);
  }

  /** A shelf row: its quantity, the stock status and the expiry status computed by the query. */
  datatype ShelfItem = ShelfItem(quantity: int, stockStatus: string, expiryStatus: string)

  datatype ShelfSummary = ShelfSummary(totalItems: int, totalQuantity: int, lowStockCount: int,
                                       nearExpiryCount: int, expiredCount: int)

  predicate ShelfLow(i: ShelfItem) { i.stockStatus == LowStock }
  predicate ShelfExpired(i: ShelfItem) { i.expiryStatus == Expired }
  predicate ShelfNearExpiry(i: ShelfItem) { i.expiryStatus != Expired && i.expiryStatus == NearExpiry }
  function ShelfQuantity(i: ShelfItem): int { i.quantity }

  method SummarizeShelf(items: seq<ShelfItem>) returns (s: ShelfSummary)
    ensures s.totalItems == |items| && s.totalQuantity == SumOf(items, ShelfQuantity)
    ensures s.lowStockCount == CountIf(items, ShelfLow)
    ensures s.expiredCount == CountIf(items, ShelfExpired) && s.nearExpiryCount == CountIf(items, ShelfNearExpiry)
  {
    s := ShelfSummary(0, 0, 0, 0, 0);
    var k := 0;
    while k < |items|
      invariant 0 <= k <= |items|
      invariant s.totalItems == k && s.totalQuantity == SumOf(items[..k], ShelfQuantity)
      invariant s.lowStockCount == CountIf(items[..k], ShelfLow)
      invariant s.expiredCount == CountIf(items[..k], ShelfExpired)
      invariant s.nearExpiryCount == CountIf(items[..k], ShelfNearExpiry)
    {
      var item := items[k];
      assert items[..k + 1][..k] == items[..k];
      s := s.(totalItems := s.totalItems + 1, totalQuantity := s.totalQuantity + item.quantity);
      if item.stockStatus == LowStock {
        s := s.(lowStockCount := s.lowStockCount + 1);
      }
      if item.expiryStatus == Expired {
        s := s.(expiredCount := s.expiredCount + 1);
      } else if item.expiryStatus == NearExpiry {
        s := s.(nearExpiryCount := s.nearExpiryCount + 1);
      }
      k := k + 1;
    }
    assert items[..k] == items;
  }

  /** Each shelf counter is at most the row count, and the two expiry counters together too. */
  lemma ShelfCountsBounded(items: seq<ShelfItem>)
    ensures CountIf(items, ShelfLow) <= |items|
    ensures CountIf(items, ShelfExpired) + CountIf(items, ShelfNearExpiry) <= |items|
  {
    CountIfDisjoint(items, ShelfExpired, ShelfNearExpiry);
  }

  /** The low-stock counter is independent of the expiry counters: one row can count in both. */
  lemma LowStockCountedIndependently(item: ShelfItem)
    requires item.stockStatus == LowStock && item.expiryStatus == Expired
    ensures CountIf([item], ShelfLow) + CountIf([item], ShelfExpired) == 2
  {
    assert [item][..0] == [];
  }

  // ---------------------------------------------------------------------
  // Low-stock alert groups

  datatype AlertGroup = Critical | Warning | ShelfRefill

  /** The `switch` on the status: two statuses are critical, any status not listed goes nowhere. */
  function GroupOf(status: string): (g: Option<AlertGroup>)
    ensures g == Some(Critical) <==> status == OutOfStock || status == ReorderNow
    ensures g == Some(Warning) <==> status == ReorderSoon
    ensures g == Some(ShelfRefill) <==> status == RefillShelf
  {
    if status == OutOfStock || status == ReorderNow then Some(Critical)
    else if status == ReorderSoon then Some(Warning)
    else if status == RefillShelf then Some(ShelfRefill)
    else None
  }

  /** A low-stock row: the product and the status computed by the query. */
  datatype LowStockProduct = LowStockProduct(productId: int, status: string)

  /** The products put into group `g` (or into no group, for `None`), in input order. */
  function InGroup(ps: seq<LowStockProduct>, g: Option<AlertGroup>): (r: seq<LowStockProduct>)
    ensures |r| <= |ps|
  {
    if |ps| == 0 then []
    else InGroup(ps[..|ps| - 1], g) + (if GroupOf(ps[|ps| - 1].status) == g then [ps[|ps| - 1]] else [])
  }

  method GroupByStatus(ps: seq<LowStockProduct>)
    returns (critical: seq<LowStockProduct>, warning: seq<LowStockProduct>, refill: seq<LowStockProduct>)
    ensures critical == InGroup(ps, Some(Critical))
    ensures warning == InGroup(ps, Some(Warning))
    ensures refill == InGroup(ps, Some(ShelfRefill))
  {
    critical, warning, refill := [], [], [];
    var k := 0;
    while k < |ps|
      invariant 0 <= k <= |ps|
      invariant critical == InGroup(ps[..k], Some(Critical))
      invariant warning == InGroup(ps[..k], Some(Warning))
      invariant refill == InGroup(ps[..k], Some(ShelfRefill))
    {
      var product := ps[k];
      assert ps[..k + 1][..k] == ps[..k];
      if product.status == OutOfStock || product.status == ReorderNow {
        critical := critical + [product];
      } else if product.status == ReorderSoon {
        warning := warning + [product];
      } else if product.status == RefillShelf {
        refill := refill + [product];
      }
      k := k + 1;
    }
    assert ps[..k] == ps;
  }

  /** The last product goes to its own group and to no other. */
  lemma InGroupLast(ps: seq<LowStockProduct>, g: Option<AlertGroup>)
    requires |ps| > 0
    ensures multiset(InGroup(ps, g)) == multiset(InGroup(ps[..|ps| - 1], g))
            + (if GroupOf(ps[|ps| - 1].status) == g then multiset{ps[|ps| - 1]} else multiset{})
  {
  }

  lemma MultisetLast<T>(xs: seq<T>)
    requires |xs| > 0
    ensures multiset(xs) == multiset(xs[..|xs| - 1]) + multiset{xs[|xs| - 1]}
  {
    assert xs == xs[..|xs| - 1] + [xs[|xs| - 1]];
  }

  /** Adding `p` to the bag of group `k` adds it once to the union of the four bags. */
  lemma AddedToOneGroup(c: multiset<LowStockProduct>, w: multiset<LowStockProduct>, s: multiset<LowStockProduct>,
                        n: multiset<LowStockProduct>, p: LowStockProduct, k: Option<AlertGroup>)
    ensures (c + (if k == Some(Critical) then multiset{p} else multiset{}))
            + (w + (if k == Some(Warning) then multiset{p} else multiset{}))
            + (s + (if k == Some(ShelfRefill) then multiset{p} else multiset{}))
            + (n + (if k == None then multiset{p} else multiset{}))
            == c + w + s + n + multiset{p}
  {
    match k
    case Some(Critical) =>
      assert (c + multiset{p}) + w + s + n == c + w + s + n + multiset{p};
    case Some(Warning) =>
      assert c + (w + multiset{p}) + s + n == c + w + s + n + multiset{p};
    case Some(ShelfRefill) =>
      assert c + w + (s + multiset{p}) + n == c + w + s + n + multiset{p};
    case None =>
      assert c + w + s + (n + multiset{p}) == c + w + s + n + multiset{p};
  }

  /** Every product lands in exactly one of the three groups or in none: the groups partition the input. */
  lemma {:induction false} GroupsPartition(ps: seq<LowStockProduct>)
    ensures multiset(InGroup(ps, Some(Critical))) + multiset(InGroup(ps, Some(Warning)))
            + multiset(InGroup(ps, Some(ShelfRefill))) + multiset(InGroup(ps, None)) == multiset(ps)
  {
    if |ps| > 0 {
      var init := ps[..|ps| - 1];
      GroupsPartition(init);
      MultisetLast(ps);
      InGroupLast(ps, Some(Critical));
      InGroupLast(ps, Some(Warning));
      InGroupLast(ps, Some(ShelfRefill));
      InGroupLast(ps, None);
      AddedToOneGroup(multiset(InGroup(init, Some(Critical))), multiset(InGroup(init, Some(Warning))),
                      multiset(InGroup(init, Some(ShelfRefill))), multiset(InGroup(init, None)),
                      ps[|ps| - 1], GroupOf(ps[|ps| - 1].status));
    }
  }

  /** The three groups together hold at most `TotalAlerts` products. */
  lemma GroupSizesBounded(ps: seq<LowStockProduct>)
    ensures |InGroup(ps, Some(Critical))| + |InGroup(ps, Some(Warning))| + |InGroup(ps, Some(ShelfRefill))| <= |ps|
  {
    GroupsPartition(ps);
    assert |multiset(ps)| == |ps|;
  }

  /** Every product of a group has a status of that group. */
  lemma {:induction false} GroupMembers(ps: seq<LowStockProduct>, g: Option<AlertGroup>, p: LowStockProduct)
    requires p in InGroup(ps, g)
    ensures p in ps && GroupOf(p.status) == g
  {
    if |ps| > 0 {
      if p in InGroup(ps[..|ps| - 1], g) {
        GroupMembers(ps[..|ps| - 1], g, p);
      }
    }
  }

  // ---------------------------------------------------------------------
  // Discount rules

  type Float = SalesHandlers.Float

  /**
   * The fields of a discount rule the handlers read or write; the creation
   * time is left out.  The percentage is a float64 as the body parser decodes
   * it, so it can be NaN or an infinity.
   */
  datatype DiscountRule = DiscountRule(
    ruleId: nat,
    categoryId: nat,
    daysBeforeExpiry: int,
    discountPercentage: Float,
    ruleName: Option<string>,
    isActive: bool)

  datatype RuleError = MissingCategory | NonPositiveDays | PercentageOutOfRange | DuplicateRule

  /** The percentage passes Go's `p < 0 || p > 100` test: a finite value in [0, 100], or NaN. */
  predicate PercentagePasses(p: Float) {
    p.NaN? || (p.Finite? && 0.0 <= p.value <= 100.0)
  }

  /** The two range checks both handlers make, in order, with Go's float comparisons. */
  function RangeError(rule: DiscountRule): (r: Option<RuleError>)
    ensures r.None? <==> rule.daysBeforeExpiry > 0 && PercentagePasses(rule.discountPercentage)
    ensures r == Some(NonPositiveDays) <==> rule.daysBeforeExpiry <= 0
    ensures r == Some(PercentageOutOfRange) <==>
              rule.daysBeforeExpiry > 0 && !PercentagePasses(rule.discountPercentage)
    ensures r.Some? ==> r.value == NonPositiveDays || r.value == PercentageOutOfRange
  {
    if rule.daysBeforeExpiry <= 0 then Some(NonPositiveDays)
    else if SalesHandlers.Below(rule.discountPercentage, 0.0) || SalesHandlers.Above(rule.discountPercentage, 100.0) then
      Some(PercentageOutOfRange)
    else None
  }

  /**
   * Both infinities are refused, but NaN passes the range check, since every
   * comparison with NaN is false; a rule admitted by the checks has a finite
   * percentage in [0, 100] or a NaN one.
   */
  lemma NaNPercentagePasses(rule: DiscountRule)
    requires rule.daysBeforeExpiry > 0
    ensures rule.discountPercentage.NaN? ==> RangeError(rule).None?
    ensures rule.discountPercentage.PosInf? || rule.discountPercentage.NegInf? ==>
              RangeError(rule) == Some(PercentageOutOfRange)
    ensures RangeError(rule).None? && !rule.discountPercentage.NaN? ==>
              rule.discountPercentage.Finite? && 0.0 <= rule.discountPercentage.value <= 100.0
  {
  }

  /** A stored rule already covers this category and number of days. */
  predicate HasRuleFor(rules: seq<DiscountRule>, categoryId: nat, days: int) {
    exists i :: 0 <= i < |rules| && rules[i].categoryId == categoryId && rules[i].daysBeforeExpiry == days
  }

  /** The checks of `CreateDiscountRule`, in order, against the stored rules. */
  function CheckNewRule(rule: DiscountRule, stored: seq<DiscountRule>): (r: Option<RuleError>)
    ensures r == Some(MissingCategory) <==> rule.categoryId == 0
    ensures r == Some(NonPositiveDays) <==> rule.categoryId != 0 && rule.daysBeforeExpiry <= 0
    ensures r == Some(PercentageOutOfRange) <==>
              rule.categoryId != 0 && rule.daysBeforeExpiry > 0 && !PercentagePasses(rule.discountPercentage)
    ensures r == Some(DuplicateRule) <==>
              rule.categoryId != 0 && RangeError(rule).None? && HasRuleFor(stored, rule.categoryId, rule.daysBeforeExpiry)
    ensures r.None? <==> rule.categoryId != 0 && RangeError(rule).None? && !HasRuleFor(stored, rule.categoryId, rule.daysBeforeExpiry)
  {
    if rule.categoryId == 0 then Some(MissingCategory)
    else if RangeError(rule).Some? then RangeError(rule)
    else if HasRuleFor(stored, rule.categoryId, rule.daysBeforeExpiry) then Some(DuplicateRule)
    else None
  }

  /** A rule as `CreateDiscountRule` admits it. */
  predicate WellFormedRule(rule: DiscountRule) {
    rule.categoryId != 0 && RangeError(rule).None?
  }

  /** No two stored rules share a category and a number of days. */
  predicate UniqueKeys(rules: seq<DiscountRule>) {
    forall i, j :: 0 <= i < j < |rules| ==>
      !(rules[i].categoryId == rules[j].categoryId && rules[i].daysBeforeExpiry == rules[j].daysBeforeExpiry)
  }

  /** Creating only the rules the checks accept keeps every rule well formed and every key unique. */
  lemma CreateKeepsInvariant(rule: DiscountRule, stored: seq<DiscountRule>)
    requires UniqueKeys(stored) && forall i :: 0 <= i < |stored| ==> WellFormedRule(stored[i])
    requires CheckNewRule(rule, stored).None?
    ensures UniqueKeys(stored + [rule])
    ensures forall i :: 0 <= i < |stored + [rule]| ==> WellFormedRule((stored + [rule])[i])
  {
    var all := stored + [rule];
    forall i, j | 0 <= i < j < |all|
      ensures !(all[i].categoryId == all[j].categoryId && all[i].daysBeforeExpiry == all[j].daysBeforeExpiry)
    {
      if j == |stored| {
        assert all[i] == stored[i];
      }
    }
  }

  /** The body of `UpdateDiscountRule`: each field is optional, `None` when absent or `null`. */
  datatype RuleUpdate = RuleUpdate(
    categoryId: Option<nat>,
    daysBeforeExpiry: Option<int>,
    discountPercentage: Option<Float>,
    ruleName: Option<string>,
    isActive: Option<bool>)

  function Pick<T>(update: Option<T>, current: T): T {
    if update.Some? then update.value else current
  }

  /** The stored rule with every supplied field overwritten. */
  function Patched(rule: DiscountRule, u: RuleUpdate): DiscountRule {
    DiscountRule(rule.ruleId,
                 Pick(u.categoryId, rule.categoryId),
                 Pick(u.daysBeforeExpiry, rule.daysBeforeExpiry),
                 Pick(u.discountPercentage, rule.discountPercentage),
                 if u.ruleName.Some? then u.ruleName else rule.ruleName,
                 Pick(u.isActive, rule.isActive))
  }

  /** The field-by-field patch of `UpdateDiscountRule`. */
  method PatchRule(rule: DiscountRule, u: RuleUpdate) returns (r: DiscountRule)
    ensures r == Patched(rule, u)
    ensures r.ruleId == rule.ruleId
    ensures u.categoryId.None? ==> r.categoryId == rule.categoryId
    ensures u.daysBeforeExpiry.None? ==> r.daysBeforeExpiry == rule.daysBeforeExpiry
    ensures u.discountPercentage.None? ==> r.discountPercentage == rule.discountPercentage
    ensures u.ruleName.None? ==> r.ruleName == rule.ruleName
    ensures u.isActive.None? ==> r.isActive == rule.isActive
  {
    r := rule;
    if u.categoryId.Some? {
      r := r.(categoryId := u.categoryId.value);
    }
    if u.daysBeforeExpiry.Some? {
      r := r.(daysBeforeExpiry := u.daysBeforeExpiry.value);
    }
    if u.discountPercentage.Some? {
      r := r.(discountPercentage := u.discountPercentage.value);
    }
    if u.ruleName.Some? {
      r := r.(ruleName := u.ruleName);
    }
    if u.isActive.Some? {
      r := r.(isActive := u.isActive.value);
    }
  }

  const NoChange: RuleUpdate := RuleUpdate(None, None, None, None, None)

  /** Supplied fields take the new values; an empty update changes nothing; patching twice is patching once. */
  lemma PatchedFields(rule: DiscountRule, u: RuleUpdate)
    ensures u.categoryId.Some? ==> Patched(rule, u).categoryId == u.categoryId.value
    ensures u.daysBeforeExpiry.Some? ==> Patched(rule, u).daysBeforeExpiry == u.daysBeforeExpiry.value
    ensures u.discountPercentage.Some? ==> Patched(rule, u).discountPercentage == u.discountPercentage.value
    ensures u.ruleName.Some? ==> Patched(rule, u).ruleName == u.ruleName
    ensures u.isActive.Some? ==> Patched(rule, u).isActive == u.isActive.value
    ensures Patched(rule, NoChange) == rule
    ensures Patched(Patched(rule, u), u) == Patched(rule, u)
  {
  }

  /** Applying `u` and then `v` is applying `v` over `u`. */
  function Then(u: RuleUpdate, v: RuleUpdate): RuleUpdate {
    RuleUpdate(if v.categoryId.Some? then v.categoryId else u.categoryId,
               if v.daysBeforeExpiry.Some? then v.daysBeforeExpiry else u.daysBeforeExpiry,
               if v.discountPercentage.Some? then v.discountPercentage else u.discountPercentage,
               if v.ruleName.Some? then v.ruleName else u.ruleName,
               if v.isActive.Some? then v.isActive else u.isActive)
  }

  lemma PatchedThen(rule: DiscountRule, u: RuleUpdate, v: RuleUpdate)
    ensures Patched(Patched(rule, u), v) == Patched(rule, Then(u, v))
  {
  }

  /** The checks of `UpdateDiscountRule` after patching: only the two range checks. */
  function CheckPatchedRule(rule: DiscountRule, u: RuleUpdate): (r: Option<RuleError>)
    ensures r.None? <==> Patched(rule, u).daysBeforeExpiry > 0 && PercentagePasses(Patched(rule, u).discountPercentage)
    ensures r != Some(MissingCategory) && r != Some(DuplicateRule)
  {
    RangeError(Patched(rule, u))
  }

  /**
   * The update path checks neither the category nor uniqueness: a well-formed
   * rule can be patched to category 0, which creation would refuse.
   */
  lemma UpdateSkipsCategoryCheck(rule: DiscountRule, stored: seq<DiscountRule>)
    requires WellFormedRule(rule)
    ensures var u := RuleUpdate(Some(0), None, None, None, None);
            CheckPatchedRule(rule, u).None? && CheckNewRule(Patched(rule, u), stored) == Some(MissingCategory)
  {
  }
}
