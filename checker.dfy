/** The per-table sanity predicates that every decoded record must satisfy.
    In the benchmark a violation is a fatal invariant failure. */
module Checker {
  import opened Schema

  predicate InWarehouseRange(w: int, numWarehouses: int) { 1 <= w <= numWarehouses }
  predicate InDistrictRange(d: int) { 1 <= d <= NumDistrictsPerWarehouse }
  predicate InCustomerRange(c: int) { 1 <= c <= NumCustomersPerDistrict }
  predicate InItemRange(i: int) { 1 <= i <= NumItems }

  predicate CustomerOk(k: CustomerKey, v: Customer, numWarehouses: int)
  {
    && InWarehouseRange(k.w, numWarehouses) && InDistrictRange(k.d) && InCustomerRange(k.c)
    && (v.credit == "BC" || v.credit == "GC")
    && v.middle == "OE"
  }

  predicate WarehouseOk(w: int, v: Warehouse, numWarehouses: int)
  {
    InWarehouseRange(w, numWarehouses) && |v.state| == 2 && v.zip == "123456789"
  }

  predicate DistrictOk(k: DistrictKey, v: District, numWarehouses: int)
  {
    && InWarehouseRange(k.w, numWarehouses) && InDistrictRange(k.d)
    && v.nextOId >= 3001
    && |v.state| == 2 && v.zip == "123456789"
  }

  /** The price bound [1.00, 100.00] in cents. */
  predicate ItemOk(i: int, v: Item)
  {
    InItemRange(i) && 100 <= v.price <= 10000
  }

  predicate StockOk(k: StockKey, numWarehouses: int)
  {
    InWarehouseRange(k.w, numWarehouses) && InItemRange(k.i)
  }

  predicate NewOrderOk(k: OrderKey, numWarehouses: int)
  {
    InWarehouseRange(k.w, numWarehouses) && InDistrictRange(k.d)
  }

  predicate OOrderOk(k: OrderKey, v: OOrder, numWarehouses: int)
  {
    && InWarehouseRange(k.w, numWarehouses) && InDistrictRange(k.d)
    && InCustomerRange(v.cId)
    && 0 <= v.carrierId <= NumDistrictsPerWarehouse
    && 5 <= v.olCnt <= 15
  }

  predicate OrderLineOk(k: OrderLineKey, v: OrderLine, numWarehouses: int)
  {
    && InWarehouseRange(k.w, numWarehouses) && InDistrictRange(k.d)
    && 1 <= k.n <= 15
    && InItemRange(v.iId)
  }

  predicate WarehousesSane(m: map<int, Warehouse>, numWarehouses: int)
  {
    forall w :: w in m ==> WarehouseOk(w, m[w], numWarehouses)
  }

  predicate DistrictsSane(m: map<DistrictKey, District>, numWarehouses: int)
  {
    forall k :: k in m ==> DistrictOk(k, m[k], numWarehouses)
  }

  predicate CustomersSane(m: map<CustomerKey, Customer>, numWarehouses: int)
  {
    forall k :: k in m ==> CustomerOk(k, m[k], numWarehouses)
  }

  predicate ItemsSane(m: map<int, Item>)
  {
    forall i :: i in m ==> ItemOk(i, m[i])
  }

  predicate StocksSane(m: map<StockKey, Stock>, numWarehouses: int)
  {
    forall k :: k in m ==> StockOk(k, numWarehouses)
  }

  predicate NewOrdersSane(s: set<OrderKey>, numWarehouses: int)
  {
    forall k :: k in s ==> NewOrderOk(k, numWarehouses)
  }

  predicate OOrdersSane(m: map<OrderKey, OOrder>, numWarehouses: int)
  {
    forall k :: k in m ==> OOrderOk(k, m[k], numWarehouses)
  }

  predicate OrderLinesSane(m: map<OrderLineKey, OrderLine>, numWarehouses: int)
  {
    forall k :: k in m ==> OrderLineOk(k, m[k], numWarehouses)
  }

  /** Every row of every checked table passes its sanity check. */
  predicate TablesSane(t: Tables, numWarehouses: int)
  {
    && WarehousesSane(t.warehouse, numWarehouses)
    && DistrictsSane(t.district, numWarehouses)
    && CustomersSane(t.customer, numWarehouses)
    && ItemsSane(t.item)
    && StocksSane(t.stock, numWarehouses)
    && NewOrdersSane(t.newOrder, numWarehouses)
    && OOrdersSane(t.oorder, numWarehouses)
    && OrderLinesSane(t.orderLine, numWarehouses)
  }
}
