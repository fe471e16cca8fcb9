/** The StockLevel transaction profile (TPC-C clause 2.8), read-only: how
    many distinct items of the district's twenty most recent orders are low
    on stock in the home warehouse.

    The order-line scan runs from (w, d, lower, 0) up to, not including,
    (w, d, next, 0), where next is the district's next order id and lower is
    next - 20 (or 0 below 20). */
module StockLevel {
  import opened Schema
  import opened Checker
  import opened OrderedScan

  datatype Request = Request(threshold: int, d: int)

  predicate WellFormed(req: Request, w: int, numWarehouses: int)
  {
    InWarehouseRange(w, numWarehouses) && InDistrictRange(req.d) && 10 <= req.threshold <= 20
  }

  /** The engine's order on order_line keys: lexicographic by warehouse,
      district, order id and line number. */
  predicate OrderLineKeyLess(a: OrderLineKey, b: OrderLineKey)
  {
    || a.w < b.w
    || (a.w == b.w && a.d < b.d)
    || (a.w == b.w && a.d == b.d && a.o < b.o)
    || (a.w == b.w && a.d == b.d && a.o == b.o && a.n < b.n)
  }

  lemma OrderLineKeyLessIsStrictTotal()
    ensures StrictTotalOrder(OrderLineKeyLess)
  {
  }

  /** The first order id of the scan window. */
  function LowerBound(next: int): int
  {
    if next >= 20 then next - 20 else 0
  }

  /** (w, d, lower, 0) <= k < (w, d, next, 0) in the lexicographic key order. */
  predicate InWindow(k: OrderLineKey, w: int, d: int, lower: int, next: int)
  {
    && k.w == w && k.d == d
    && (k.o > lower || (k.o == lower && k.n >= 0))
    && (k.o < next || (k.o == next && k.n < 0))
  }

  function WindowLines(ol: map<OrderLineKey, OrderLine>, w: int, d: int, lower: int, next: int): set<OrderLineKey>
  {
    set k | k in ol && InWindow(k, w, d, lower, next)
  }

  /** The distinct item ids the collecting visitor gathers. */
  function WindowItems(ol: map<OrderLineKey, OrderLine>, w: int, d: int, lower: int, next: int): set<int>
  {
    set k | k in ol && InWindow(k, w, d, lower, next) :: ol[k].iId
  }

  /** Every line in the window passes its sanity check. */
  predicate WindowSane(ol: map<OrderLineKey, OrderLine>, w: int, d: int, lower: int, next: int, numWarehouses: int)
  {
    forall k :: k in ol && InWindow(k, w, d, lower, next) ==> OrderLineOk(k, ol[k], numWarehouses)
  }

  /** The items of `items` whose home-warehouse stock is below the threshold. */
  function LowStock(stock: map<StockKey, Stock>, w: int, items: set<int>, threshold: int): set<int>
  {
    set i | i in items && StockKey(w, i) in stock && stock[StockKey(w, i)].quantity < threshold
  }

  /** The whole body of StockLevel: the low-stock count, or None when a
      fatal assertion fails. */
  function StockLevelOf(t: Tables, w: int, numWarehouses: int, req: Request): Option<int>
  {
    var dk := DistrictKey(w, req.d);
    if dk !in t.district || !DistrictOk(dk, t.district[dk], numWarehouses) then None
    else
      var next := t.district[dk].nextOId;
      var lower := LowerBound(next);
      if !WindowSane(t.orderLine, w, req.d, lower, next, numWarehouses) then None
      else
        var items := WindowItems(t.orderLine, w, req.d, lower, next);
        if !(forall i :: i in items ==> StockKey(w, i) in t.stock) then None
        else Some(|LowStock(t.stock, w, items, req.threshold)|)
  }

  // -------------------------------------------------------- properties

  /** For line numbers that pass the sanity check, the window holds exactly
      the lines of orders lower..next-1 of district (w, d), twenty orders once
      next reaches 20. */
  lemma WindowIsRecentOrders(k: OrderLineKey, w: int, d: int, next: int)
    requires k.n >= 1
    ensures InWindow(k, w, d, LowerBound(next), next) <==>
      k.w == w && k.d == d && LowerBound(next) <= k.o < next
    ensures next >= 20 ==> next - LowerBound(next) == 20
    ensures LowerBound(next) >= 0
  {
  }

  /** Every item of a sane window is a valid item id, so the item-range
      assertion inside the stock loop cannot fail. */
  lemma WindowItemsInRange(ol: map<OrderLineKey, OrderLine>, w: int, d: int, lower: int, next: int, numWarehouses: int)
    requires WindowSane(ol, w, d, lower, next, numWarehouses)
    ensures forall i :: i in WindowItems(ol, w, d, lower, next) ==> InItemRange(i)
  {
    forall i | i in WindowItems(ol, w, d, lower, next) ensures InItemRange(i) {
      var k :| k in ol && InWindow(k, w, d, lower, next) && ol[k].iId == i;
      assert OrderLineOk(k, ol[k], numWarehouses);
    }
  }

  /** The count is at most the number of distinct items, counts an item
      exactly when its stock is below the threshold, and does not shrink when
      the threshold grows. */
  lemma StockLevelCounts(t: Tables, w: int, numWarehouses: int, req: Request, higher: int)
    requires StockLevelOf(t, w, numWarehouses, req).Some? && higher >= req.threshold
    ensures var dk := DistrictKey(w, req.d);
      dk in t.district &&
      var next := t.district[dk].nextOId;
      var items := WindowItems(t.orderLine, w, req.d, LowerBound(next), next);
      && StockLevelOf(t, w, numWarehouses, req).value <= |items|
      && (forall i :: i in LowStock(t.stock, w, items, req.threshold) <==>
            i in items && t.stock[StockKey(w, i)].quantity < req.threshold)
      && StockLevelOf(t, w, numWarehouses, req).value <= |LowStock(t.stock, w, items, higher)|
  {
    var dk := DistrictKey(w, req.d);
    var next := t.district[dk].nextOId;
    var items := WindowItems(t.orderLine, w, req.d, LowerBound(next), next);
    SubsetCard(LowStock(t.stock, w, items, req.threshold), items);
    SubsetCard(LowStock(t.stock, w, items, req.threshold), LowStock(t.stock, w, items, higher));
  }

  lemma SubsetCard(a: set<int>, b: set<int>)
    requires a <= b
    ensures |a| <= |b|
  {
    assert b == a + (b - a);
  }
}
