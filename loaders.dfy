/** The six loaders that fill an empty database before the run.

    Each loader stages rows in a transaction and commits it. The warehouse,
    item and district loaders treat any abort as fatal. The per-warehouse
    stock, customer and order loaders retry an aborted transaction; whether
    an abort is fatal depends on whether the loader was built for one
    warehouse or for all of them (warehouseId == -1). A loader returns false
    where the benchmark dies on a failed assertion. */
module Loaders {
  import opened Schema
  import opened Checker
  import opened Generators
  import opened Engine
  import opened LoadRows
  import opened OrderedScan

  // ------------------------------------------------------------ draws

  /** RandomStr(RandomNumber(lo, hi)): lo - 1 to hi - 1 characters. */
  method DrawStr(lo: int, hi: int) returns (s: string)
    requires 1 <= lo <= hi
    ensures lo - 1 <= |s| <= hi - 1
  {
    var len := RandomNumber(lo, hi);
    s := RandomStr(len);
  }

  /** i_data and s_data: for nine draws in ten, len - 1 random characters;
      otherwise len characters with "ORIGINAL" placed at a random offset. */
  method DrawData() returns (s: string)
    ensures 25 <= |s| <= 50
  {
    var len := RandomNumber(26, 50);
    var pick := RandomNumber(1, 100);
    if pick > 10 {
      s := RandomStr(len);
    } else {
      var startOriginal := RandomNumber(2, len - 8);
      var head := RandomStr(startOriginal + 1);
      var tail := RandomStr(len - startOriginal - 7);
      s := head + "ORIGINAL" + tail;
    }
  }

  method DrawWarehouse(w: int, numWarehouses: int) returns (v: Warehouse)
    requires InWarehouseRange(w, numWarehouses)
    ensures LoadedWarehouse(w, v, numWarehouses)
  {
    var name := DrawStr(6, 10);
    var street1 := DrawStr(10, 20);
    var street2 := DrawStr(10, 20);
    var city := DrawStr(10, 20);
    var state := RandomStr(3);
    var tax := RandomNumber(0, 2000);
    v := Warehouse(WarehouseYtd, tax, name, street1, street2, city, state, LoadedZip);
  }

  method DrawItem(i: int) returns (v: Item)
    requires InItemRange(i)
    ensures LoadedItem(i, v)
  {
    var name := DrawStr(14, 24);
    var price := RandomNumber(100, 10000);
    var data := DrawData();
    var imId := RandomNumber(1, 10000);
    v := Item(name, price, data, imId);
  }

  method DrawStock(k: StockKey, numWarehouses: int) returns (v: Stock)
    requires StockOk(k, numWarehouses)
    ensures LoadedStock(k, v, numWarehouses)
  {
    var quantity := RandomNumber(10, 100);
    var data := DrawData();
    var d1 := RandomStr(24);
    var d2 := RandomStr(24);
    var d3 := RandomStr(24);
    var d4 := RandomStr(24);
    var d5 := RandomStr(24);
    var d6 := RandomStr(24);
    var d7 := RandomStr(24);
    var d8 := RandomStr(24);
    var d9 := RandomStr(24);
    var d10 := RandomStr(24);
    v := Stock(quantity, 0, 0, 0, data, d1, d2, d3, d4, d5, d6, d7, d8, d9, d10);
  }

  method DrawDistrict(k: DistrictKey, numWarehouses: int) returns (v: District)
    requires InWarehouseRange(k.w, numWarehouses) && InDistrictRange(k.d)
    ensures LoadedDistrict(k, v, numWarehouses)
  {
    var tax := RandomNumber(0, 2000);
    var name := DrawStr(6, 10);
    var street1 := DrawStr(10, 20);
    var street2 := DrawStr(10, 20);
    var city := DrawStr(10, 20);
    var state := RandomStr(3);
    v := District(DistrictYtd, tax, InitialNextOrderId, name, street1, street2, city, state, LoadedZip);
  }

  method DrawCustomer(k: CustomerKey, since: int, numWarehouses: int) returns (v: Customer)
    requires InWarehouseRange(k.w, numWarehouses) && InDistrictRange(k.d) && InCustomerRange(k.c)
    requires 0 <= since < TimeModulus
    ensures LoadedCustomer(k, v, numWarehouses) && v.since == since
  {
    var discount := RandomNumber(1, 5000);
    var pick := RandomNumber(1, 100);
    var credit := if pick <= 10 then "BC" else "GC";
    var last;
    if k.c <= 1000 {
      last := CustomerLastName(k.c - 1);
    } else {
      last := GetNonUniformCustomerLastNameLoad();
    }
    var first := DrawStr(8, 16);
    var street1 := DrawStr(10, 20);
    var street2 := DrawStr(10, 20);
    var city := DrawStr(10, 20);
    var state := RandomStr(3);
    var zipHead := RandomNStr(4);
    var phone := RandomNStr(16);
    var data := DrawStr(300, 500);
    v := Customer(discount, credit, last, "OE", first,
                  CustomerCreditLimit, CustomerBalance, CustomerYtdPayment, 1, 0,
                  street1, street2, city, state, zipHead + "11111", phone, since, data);
    assert v.zip[4..] == "11111";
  }

  method DrawOrderLine(k: OrderLineKey, entry: int, numWarehouses: int) returns (v: OrderLine)
    requires InWarehouseRange(k.w, numWarehouses) && InDistrictRange(k.d) && 1 <= k.n <= 15
    ensures LoadedOrderLine(k, v, entry, numWarehouses)
  {
    var iId := RandomNumber(1, NumItems);
    var deliveryD, amount;
    if k.o < FirstUndeliveredOrderId {
      deliveryD, amount := entry, 0;
    } else {
      deliveryD := 0;
      amount := RandomNumber(1, 999999);
    }
    var distInfo := RandomStr(24);
    v := OrderLine(iId, deliveryD, amount, k.w, 5, distInfo);
  }

  // -------------------------------------------------------- warehouse

  /** Loads warehouses 1..numWarehouses in one transaction, then reads every
      one back in a second transaction. */
  method LoadWarehouses(store: Store, numWarehouses: int) returns (ok: bool)
    requires numWarehouses >= 1
    modifies store
    ensures ok ==> store.tables == old(store.tables).(warehouse := store.tables.warehouse)
    ensures ok ==> forall w :: InWarehouseRange(w, numWarehouses) ==>
      w in store.tables.warehouse && LoadedWarehouse(w, store.tables.warehouse[w], numWarehouses)
    ensures ok ==> forall w :: !InWarehouseRange(w, numWarehouses) ==>
      (w in store.tables.warehouse <==> w in old(store.tables.warehouse))
      && (w in store.tables.warehouse ==> store.tables.warehouse[w] == old(store.tables.warehouse[w]))
    ensures !ok ==> store.abortBudget < old(store.abortBudget)
  {
    var staged := store.tables;
    var warehouses: seq<Warehouse> := [];
    for i := 1 to numWarehouses + 1
      invariant |warehouses| == i - 1
      invariant store.tables == old(store.tables) && store.abortBudget == old(store.abortBudget)
      invariant staged == old(store.tables).(warehouse := staged.warehouse)
      invariant forall w :: 1 <= w < i ==>
        w in staged.warehouse && staged.warehouse[w] == warehouses[w - 1]
        && LoadedWarehouse(w, warehouses[w - 1], numWarehouses)
      invariant forall w :: !(1 <= w < i) ==>
        (w in staged.warehouse <==> w in old(store.tables.warehouse))
        && (w in staged.warehouse ==> staged.warehouse[w] == old(store.tables.warehouse[w]))
    {
      var v := DrawWarehouse(i, numWarehouses);
      staged := staged.(warehouse := staged.warehouse[i := v]);
      warehouses := warehouses + [v];
    }
    var verdict := store.Commit(staged);
    if verdict != Accepted {
      return false;
    }
    // The read-back compares each stored warehouse with the one pushed; it
    // cannot fail once the first transaction committed.
    assert forall w :: 1 <= w <= numWarehouses ==>
      w in store.tables.warehouse && store.tables.warehouse[w] == warehouses[w - 1];
    verdict := store.Commit(store.tables);
    ok := verdict == Accepted;
  }

  // ------------------------------------------------------------- item

  /** Loads items 1..NumItems, committing after every `batchSize` items
      (-1: a single transaction). */
  method LoadItems(store: Store, batchSize: int) returns (ok: bool)
    requires batchSize == -1 || batchSize > 0
    modifies store
    ensures ok ==> store.tables == old(store.tables).(item := store.tables.item)
    ensures ok ==> forall i :: InItemRange(i) ==> i in store.tables.item && LoadedItem(i, store.tables.item[i])
    ensures ok ==> forall i :: !InItemRange(i) ==>
      (i in store.tables.item <==> i in old(store.tables.item))
      && (i in store.tables.item ==> store.tables.item[i] == old(store.tables.item[i]))
    ensures !ok ==> store.abortBudget < old(store.abortBudget)
  {
    var staged := store.tables;
    for i := 1 to NumItems + 1
      invariant store.tables == old(store.tables).(item := store.tables.item)
      invariant staged == store.tables.(item := staged.item)
      invariant store.abortBudget == old(store.abortBudget)
      invariant forall j :: 1 <= j < i ==> j in staged.item && LoadedItem(j, staged.item[j])
      invariant forall j :: !(1 <= j < i) ==>
        (j in staged.item <==> j in old(store.tables.item))
        && (j in staged.item ==> staged.item[j] == old(store.tables.item[j]))
    {
      var v := DrawItem(i);
      staged := staged.(item := staged.item[i := v]);
      if batchSize != -1 && i % batchSize == 0 {
        var verdict := store.Commit(staged);
        if verdict != Accepted {
          return false;
        }
      }
    }
    var verdict := store.Commit(staged);
    ok := verdict == Accepted;
  }

  // ------------------------------------------------------------ stock

  /** Stages the stock rows of warehouse w for items from..last. */
  method StageStock(t: Tables, w: int, from: int, last: int, numWarehouses: int) returns (r: Tables)
    requires InWarehouseRange(w, numWarehouses) && from >= 1 && last <= NumItems
    ensures r == t.(stock := r.stock)
    ensures forall i :: from <= i <= last ==>
      StockKey(w, i) in r.stock && LoadedStock(StockKey(w, i), r.stock[StockKey(w, i)], numWarehouses)
    ensures forall k: StockKey :: !(k.w == w && from <= k.i <= last) ==>
      (k in r.stock <==> k in t.stock) && (k in r.stock ==> r.stock[k] == t.stock[k])
  {
    var stock := t.stock;
    var i := from;
    while i <= last
      invariant from <= i <= last + 1 || i == from
      invariant forall j :: from <= j < i ==>
        StockKey(w, j) in stock && LoadedStock(StockKey(w, j), stock[StockKey(w, j)], numWarehouses)
      invariant forall k: StockKey :: !(k.w == w && from <= k.i < i) ==>
        (k in stock <==> k in t.stock) && (k in stock ==> stock[k] == t.stock[k])
      decreases last + 1 - i
    {
      var v := DrawStock(StockKey(w, i), numWarehouses);
      stock := stock[StockKey(w, i) := v];
      i := i + 1;
    }
    r := t.(stock := stock);
  }

  /** The stock rows of one warehouse, in NumItems batch transactions as
      the benchmark writes them: batch b inserts the items from the 32-bit
      start BatchStartAsWritten(b) up to NumItems. Batch 0 inserts every
      item, the batches whose start wraps back into the item range insert
      those items again, and the others commit nothing. A refused commit is
      retried; an abort exception is fatal when loading every warehouse. */
  method LoadWarehouseStock(store: Store, w: int, warehouseId: int, numWarehouses: int) returns (ok: bool)
    requires InWarehouseRange(w, numWarehouses)
    modifies store
    ensures store.tables == old(store.tables).(stock := store.tables.stock)
    ensures ok ==> forall i :: InItemRange(i) ==>
      StockKey(w, i) in store.tables.stock && LoadedStock(StockKey(w, i), store.tables.stock[StockKey(w, i)], numWarehouses)
    ensures forall k: StockKey :: k.w != w ==>
      (k in store.tables.stock <==> k in old(store.tables.stock))
      && (k in store.tables.stock ==> store.tables.stock[k] == old(store.tables.stock[k]))
    ensures store.abortBudget <= old(store.abortBudget)
    ensures !ok ==> warehouseId == -1 && store.abortBudget < old(store.abortBudget)
  {
    var b := 0;
    while b < NumItems
      invariant 0 <= b <= NumItems
      invariant store.tables == old(store.tables).(stock := store.tables.stock)
      invariant store.abortBudget <= old(store.abortBudget)
      invariant b >= 1 ==> forall i :: InItemRange(i) ==>
        StockKey(w, i) in store.tables.stock && LoadedStock(StockKey(w, i), store.tables.stock[StockKey(w, i)], numWarehouses)
      invariant forall k: StockKey :: k.w != w ==>
        (k in store.tables.stock <==> k in old(store.tables.stock))
        && (k in store.tables.stock ==> store.tables.stock[k] == old(store.tables.stock[k]))
      decreases NumItems - b, store.abortBudget
    {
      var start := BatchStartAsWritten(b);
      BatchStartAsWrittenOdd(b);
      var staged := StageStock(store.tables, w, start, NumItems, numWarehouses);
      var verdict := store.Commit(staged);
      if verdict == Accepted {
        b := b + 1;
      } else if verdict == Raised && warehouseId == -1 {
        return false;
      }
    }
    ok := true;
  }

  method LoadStock(store: Store, warehouseId: int, numWarehouses: int) returns (ok: bool)
    requires numWarehouses >= 1
    modifies store
    ensures store.tables == old(store.tables).(stock := store.tables.stock)
    ensures ok ==> ScopeOk(warehouseId, numWarehouses)
    ensures ok ==> forall w, i :: InScope(w, warehouseId, numWarehouses) && InItemRange(i) ==>
      StockKey(w, i) in store.tables.stock && LoadedStock(StockKey(w, i), store.tables.stock[StockKey(w, i)], numWarehouses)
    ensures !ok ==> (!ScopeOk(warehouseId, numWarehouses)
      || (warehouseId == -1 && store.abortBudget < old(store.abortBudget)))
  {
    if !ScopeOk(warehouseId, numWarehouses) {
      return false;
    }
    var last := ScopeEnd(warehouseId, numWarehouses);
    for w := ScopeStart(warehouseId) to last + 1
      invariant store.tables == old(store.tables).(stock := store.tables.stock)
      invariant store.abortBudget <= old(store.abortBudget)
      invariant forall w2, i :: ScopeStart(warehouseId) <= w2 < w && InItemRange(i) ==>
        StockKey(w2, i) in store.tables.stock && LoadedStock(StockKey(w2, i), store.tables.stock[StockKey(w2, i)], numWarehouses)
    {
      ok := LoadWarehouseStock(store, w, warehouseId, numWarehouses);
      if !ok {
        return false;
      }
    }
    ok := true;
  }

  // --------------------------------------------------------- district

  /** Loads the ten districts of every warehouse, committing after every
      `batchSize` districts (-1: a single transaction). */
  method LoadDistricts(store: Store, numWarehouses: int, batchSize: int) returns (ok: bool)
    requires numWarehouses >= 1 && (batchSize == -1 || batchSize > 0)
    modifies store
    ensures ok ==> store.tables == old(store.tables).(district := store.tables.district)
    ensures ok ==> forall w, d :: InWarehouseRange(w, numWarehouses) && InDistrictRange(d) ==>
      DistrictKey(w, d) in store.tables.district
      && LoadedDistrict(DistrictKey(w, d), store.tables.district[DistrictKey(w, d)], numWarehouses)
    ensures !ok ==> store.abortBudget < old(store.abortBudget)
  {
    var staged := store.tables;
    var cnt := 0;
    for w := 1 to numWarehouses + 1
      invariant cnt == (w - 1) * NumDistrictsPerWarehouse
      invariant store.tables == old(store.tables).(district := store.tables.district)
      invariant staged == store.tables.(district := staged.district)
      invariant store.abortBudget == old(store.abortBudget)
      invariant forall w2, d :: 1 <= w2 < w && InDistrictRange(d) ==>
        DistrictKey(w2, d) in staged.district
        && LoadedDistrict(DistrictKey(w2, d), staged.district[DistrictKey(w2, d)], numWarehouses)
    {
      for d := 1 to NumDistrictsPerWarehouse + 1
        invariant cnt == (w - 1) * NumDistrictsPerWarehouse + d - 1
        invariant store.tables == old(store.tables).(district := store.tables.district)
        invariant staged == store.tables.(district := staged.district)
        invariant store.abortBudget == old(store.abortBudget)
        invariant forall w2, d2 :: (1 <= w2 < w || (w2 == w && 1 <= d2 < d)) && InDistrictRange(d2) ==>
          DistrictKey(w2, d2) in staged.district
          && LoadedDistrict(DistrictKey(w2, d2), staged.district[DistrictKey(w2, d2)], numWarehouses)
      {
        var v := DrawDistrict(DistrictKey(w, d), numWarehouses);
        staged := staged.(district := staged.district[DistrictKey(w, d) := v]);
        if batchSize != -1 && (cnt + 1) % batchSize == 0 {
          var verdict := store.Commit(staged);
          if verdict != Accepted {
            return false;
          }
        }
        cnt := cnt + 1;
      }
    }
    var verdict := store.Commit(staged);
    ok := verdict == Accepted;
  }

  // --------------------------------------------------------- customer

  /** Customer c of district (w, d), its name index entry and its history row.
      `since` and `hdate` are two consecutive clock readings. */
  method StageCustomer(t: Tables, w: int, d: int, c: int, since: int, hdate: int, numWarehouses: int)
    returns (r: Tables)
    requires InWarehouseRange(w, numWarehouses) && InDistrictRange(d) && InCustomerRange(c)
    requires 0 <= since < TimeModulus && hdate == (since + 1) % TimeModulus
    ensures r == t.(customer := r.customer, customerNameIdx := r.customerNameIdx, history := r.history)
    ensures CustomerKey(w, d, c) in r.customer
    ensures LoadedCustomer(CustomerKey(w, d, c), r.customer[CustomerKey(w, d, c)], numWarehouses)
    ensures r.customer[CustomerKey(w, d, c)].since == since
    ensures r.customer == t.customer[CustomerKey(w, d, c) := r.customer[CustomerKey(w, d, c)]]
    ensures var v := r.customer[CustomerKey(w, d, c)];
      r.customerNameIdx == t.customerNameIdx[NameIdxKey(w, d, v.last, v.first) := c]
    ensures var hk := LoadHistoryKey(CustomerKey(w, d, c), since);
      hk in r.history && LoadedHistory(r.history[hk])
      && r.history == t.history[hk := r.history[hk]]
  {
    var k := CustomerKey(w, d, c);
    var v := DrawCustomer(k, since, numWarehouses);
    var hk := HistoryKey(d, w, c, d, w, hdate);
    var hdata := DrawStr(10, 24);
    r := t.(customer := t.customer[k := v],
            customerNameIdx := t.customerNameIdx[NameIdxKey(w, d, v.last, v.first) := c],
            history := t.history[hk := History(HistoryAmount, hdata)]);
  }

  /** While district (w, d) is loaded: customers 1..c-1 are loaded, each
      with its history row, and each name index entry of theirs leads to a
      customer among them with the same name. */
  predicate CustomersSoFar(t: Tables, w: int, d: int, c: int, numWarehouses: int)
  {
    forall c2 :: 1 <= c2 < c ==>
      && CustomerLoaded(t, w, d, c2, numWarehouses)
      && 1 <= t.customerNameIdx[NameIdxKey(w, d, t.customer[CustomerKey(w, d, c2)].last, t.customer[CustomerKey(w, d, c2)].first)] < c
  }

  /** Rows of district (w, d)'s customers (by key) are the same in t and t2. */
  ghost predicate CustomerRowsKept(t: Tables, t2: Tables, w: int, d: int)
  {
    && (forall c :: CustomerKey(w, d, c) in t.customer ==>
          CustomerKey(w, d, c) in t2.customer && t2.customer[CustomerKey(w, d, c)] == t.customer[CustomerKey(w, d, c)])
    && (forall last, first :: NameIdxKey(w, d, last, first) in t.customerNameIdx ==>
          NameIdxKey(w, d, last, first) in t2.customerNameIdx
          && t2.customerNameIdx[NameIdxKey(w, d, last, first)] == t.customerNameIdx[NameIdxKey(w, d, last, first)])
    && (forall hk :: hk in t.history && hk.cw == w && hk.cd == d ==> hk in t2.history && t2.history[hk] == t.history[hk])
  }

  lemma CustomerLoadedKept(t: Tables, t2: Tables, w: int, d: int, c: int, numWarehouses: int)
    requires CustomerLoaded(t, w, d, c, numWarehouses) && CustomerRowsKept(t, t2, w, d)
    ensures CustomerLoaded(t2, w, d, c, numWarehouses)
  {
    var v := t.customer[CustomerKey(w, d, c)];
    var ik := NameIdxKey(w, d, v.last, v.first);
    assert ik in t.customerNameIdx;
    var hk := LoadHistoryKey(CustomerKey(w, d, c), v.since);
    assert hk in t.history && hk.cw == w && hk.cd == d;
    assert CustomerKey(w, d, t.customerNameIdx[ik]) in t.customer;
  }

  lemma StageCustomerStep(t: Tables, r: Tables, w: int, d: int, c: int, since: int, numWarehouses: int)
    requires CustomersSoFar(t, w, d, c, numWarehouses)
    requires InWarehouseRange(w, numWarehouses) && InDistrictRange(d) && InCustomerRange(c)
    requires 0 <= since < TimeModulus
    requires CustomerKey(w, d, c) in r.customer
    requires LoadedCustomer(CustomerKey(w, d, c), r.customer[CustomerKey(w, d, c)], numWarehouses)
    requires r.customer[CustomerKey(w, d, c)].since == since
    requires r.customer == t.customer[CustomerKey(w, d, c) := r.customer[CustomerKey(w, d, c)]]
    requires var v := r.customer[CustomerKey(w, d, c)];
      r.customerNameIdx == t.customerNameIdx[NameIdxKey(w, d, v.last, v.first) := c]
    requires var hk := LoadHistoryKey(CustomerKey(w, d, c), since);
      hk in r.history && LoadedHistory(r.history[hk])
      && r.history == t.history[hk := r.history[hk]]
    ensures CustomersSoFar(r, w, d, c + 1, numWarehouses)
  {
    var v := r.customer[CustomerKey(w, d, c)];
    forall c2 | 1 <= c2 < c + 1
      ensures CustomerLoaded(r, w, d, c2, numWarehouses)
      ensures 1 <= r.customerNameIdx[NameIdxKey(w, d, r.customer[CustomerKey(w, d, c2)].last, r.customer[CustomerKey(w, d, c2)].first)] < c + 1
    {
      if c2 < c {
        var v2 := t.customer[CustomerKey(w, d, c2)];
        assert CustomerLoaded(t, w, d, c2, numWarehouses);
        assert r.customer[CustomerKey(w, d, c2)] == v2;
        var ik2 := NameIdxKey(w, d, v2.last, v2.first);
        var hk2 := LoadHistoryKey(CustomerKey(w, d, c2), v2.since);
        assert hk2 != LoadHistoryKey(CustomerKey(w, d, c), since);
        if ik2 != NameIdxKey(w, d, v.last, v.first) {
          var target := t.customerNameIdx[ik2];
          assert 1 <= target < c;
          assert r.customer[CustomerKey(w, d, target)] == t.customer[CustomerKey(w, d, target)];
        }
      }
    }
  }

  /** One district's customers in one transaction. */
  method StageDistrictCustomers(clock: Clock, t: Tables, w: int, d: int, numWarehouses: int)
    returns (r: Tables)
    requires InWarehouseRange(w, numWarehouses) && InDistrictRange(d)
    modifies clock
    ensures r == t.(customer := r.customer, customerNameIdx := r.customerNameIdx, history := r.history)
    ensures CustomersSoFar(r, w, d, NumCustomersPerDistrict + 1, numWarehouses)
    ensures forall w2, d2 :: w2 != w || d2 != d ==> CustomerRowsKept(t, r, w2, d2)
  {
    r := t;
    for c := 1 to NumCustomersPerDistrict + 1
      invariant r == t.(customer := r.customer, customerNameIdx := r.customerNameIdx, history := r.history)
      invariant CustomersSoFar(r, w, d, c, numWarehouses)
      invariant forall w2, d2 :: w2 != w || d2 != d ==> CustomerRowsKept(t, r, w2, d2)
    {
      var since := clock.Tick();
      var hdate := clock.Tick();
      var r2 := StageCustomer(r, w, d, c, since, hdate, numWarehouses);
      StageCustomerStep(r, r2, w, d, c, since, numWarehouses);
      forall w2, d2 | w2 != w || d2 != d
        ensures CustomerRowsKept(t, r2, w2, d2)
      {
        assert CustomerRowsKept(t, r, w2, d2);
      }
      r := r2;
    }
  }

  /** Loads district (w, d)'s customers, retrying aborted transactions; an
      abort is fatal when the loader serves a single warehouse. */
  method LoadDistrictCustomers(store: Store, clock: Clock, w: int, d: int, warehouseId: int, numWarehouses: int)
    returns (ok: bool)
    requires InWarehouseRange(w, numWarehouses) && InDistrictRange(d)
    modifies store, clock
    ensures store.tables == old(store.tables).(customer := store.tables.customer,
      customerNameIdx := store.tables.customerNameIdx, history := store.tables.history)
    ensures ok ==> forall c :: InCustomerRange(c) ==> CustomerLoaded(store.tables, w, d, c, numWarehouses)
    ensures forall w2, d2 :: w2 != w || d2 != d ==> CustomerRowsKept(old(store.tables), store.tables, w2, d2)
    ensures store.abortBudget <= old(store.abortBudget)
    ensures !ok ==> warehouseId != -1 && store.abortBudget < old(store.abortBudget)
  {
    while true
      invariant store.tables == old(store.tables)
      invariant store.abortBudget <= old(store.abortBudget)
      decreases store.abortBudget
    {
      var staged := StageDistrictCustomers(clock, store.tables, w, d, numWarehouses);
      var verdict := store.Commit(staged);
      if verdict == Accepted {
        return true;
      }
      if warehouseId != -1 {
        return false;
      }
    }
  }

  method LoadCustomers(store: Store, clock: Clock, warehouseId: int, numWarehouses: int) returns (ok: bool)
    requires numWarehouses >= 1
    modifies store, clock
    ensures store.tables == old(store.tables).(customer := store.tables.customer,
      customerNameIdx := store.tables.customerNameIdx, history := store.tables.history)
    ensures ok ==> ScopeOk(warehouseId, numWarehouses)
    ensures ok ==> forall w, d, c :: InScope(w, warehouseId, numWarehouses) && InDistrictRange(d) && InCustomerRange(c) ==>
      CustomerLoaded(store.tables, w, d, c, numWarehouses)
    ensures !ok ==> (!ScopeOk(warehouseId, numWarehouses)
      || (warehouseId != -1 && store.abortBudget < old(store.abortBudget)))
  {
    if !ScopeOk(warehouseId, numWarehouses) {
      return false;
    }
    var last := ScopeEnd(warehouseId, numWarehouses);
    for w := ScopeStart(warehouseId) to last + 1
      invariant store.tables == old(store.tables).(customer := store.tables.customer,
        customerNameIdx := store.tables.customerNameIdx, history := store.tables.history)
      invariant store.abortBudget <= old(store.abortBudget)
      invariant forall w2, d, c :: ScopeStart(warehouseId) <= w2 < w && InDistrictRange(d) && InCustomerRange(c) ==>
        CustomerLoaded(store.tables, w2, d, c, numWarehouses)
    {
      for d := 1 to NumDistrictsPerWarehouse + 1
        invariant store.tables == old(store.tables).(customer := store.tables.customer,
          customerNameIdx := store.tables.customerNameIdx, history := store.tables.history)
        invariant store.abortBudget <= old(store.abortBudget)
        invariant forall w2, d2, c ::
          (ScopeStart(warehouseId) <= w2 < w || (w2 == w && 1 <= d2 < d)) && InDistrictRange(d2) && InCustomerRange(c) ==>
          CustomerLoaded(store.tables, w2, d2, c, numWarehouses)
      {
        ghost var before := store.tables;
        ok := LoadDistrictCustomers(store, clock, w, d, warehouseId, numWarehouses);
        if !ok {
          return false;
        }
        forall w2, d2, c | (ScopeStart(warehouseId) <= w2 < w || (w2 == w && 1 <= d2 < d + 1))
          && InDistrictRange(d2) && InCustomerRange(c)
          ensures CustomerLoaded(store.tables, w2, d2, c, numWarehouses)
        {
          if w2 != w || d2 != d {
            CustomerLoadedKept(before, store.tables, w2, d2, c, numWarehouses);
          }
        }
      }
    }
    ok := true;
  }

  // ------------------------------------------------------------ order

  /** The customer ids the order loader assigns: draws of
      r.next() % n + 1 collected into a set until all n are present. `run`
      counts the draws that repeat an id already present before the next
      new one. */
  method FillCustomerIds(n: nat) returns (s: set<int>)
    ensures s == IdRange(n) && |s| == n
  {
    IdRangeCard(n);
    s := {};
    var run: nat :| true;
    while |s| != n
      invariant s <= IdRange(n)
      decreases n - |s|, run
    {
      assert IdRange(n) == s + (IdRange(n) - s);
      IdRangeMissing(s, n);
      if run > 0 && s != {} {
        // a repeated id: inserting it leaves the set as it is
        var c := PickAny(s);
        run := run - 1;
      } else {
        var c := PickAny(IdRange(n) - s);
        s := s + {c};
        run :| true;
      }
    }
    FullIdRange(s, n);
  }

  /** Stages lines 1..olCnt of order (w, d, o), entered at `entry`. */
  method StageOrderLines(ol: map<OrderLineKey, OrderLine>, w: int, d: int, o: int, olCnt: int, entry: int,
                         numWarehouses: int) returns (lines: map<OrderLineKey, OrderLine>)
    requires InWarehouseRange(w, numWarehouses) && InDistrictRange(d) && InCustomerRange(o) && 5 <= olCnt <= 15
    ensures forall n :: 1 <= n <= olCnt ==>
      OrderLineKey(w, d, o, n) in lines
      && LoadedOrderLine(OrderLineKey(w, d, o, n), lines[OrderLineKey(w, d, o, n)], entry, numWarehouses)
    ensures forall lk: OrderLineKey :: !(lk.w == w && lk.d == d && lk.o == o && 1 <= lk.n <= olCnt) ==>
      (lk in lines <==> lk in ol) && (lk in lines ==> lines[lk] == ol[lk])
  {
    lines := ol;
    for l := 1 to olCnt + 1
      invariant forall n :: 1 <= n < l ==>
        OrderLineKey(w, d, o, n) in lines
        && LoadedOrderLine(OrderLineKey(w, d, o, n), lines[OrderLineKey(w, d, o, n)], entry, numWarehouses)
      invariant forall lk: OrderLineKey :: !(lk.w == w && lk.d == d && lk.o == o && 1 <= lk.n < l) ==>
        (lk in lines <==> lk in ol) && (lk in lines ==> lines[lk] == ol[lk])
    {
      var lk := OrderLineKey(w, d, o, l);
      var line := DrawOrderLine(lk, entry, numWarehouses);
      lines := lines[lk := line];
    }
  }

  /** Stages order o of district (w, d), placed by customer cId at `entry`. */
  method StageOrder(t: Tables, w: int, d: int, o: int, cId: int, entry: int, numWarehouses: int)
    returns (r: Tables)
    requires InWarehouseRange(w, numWarehouses) && InDistrictRange(d) && InCustomerRange(o) && InCustomerRange(cId)
    ensures OrderLoaded(r, w, d, o, cId, numWarehouses)
    ensures OnlyOrdersGrow(t, r)
    ensures forall w2, d2, o2 :: w2 != w || d2 != d || o2 != o ==> OrderRowsKept(t, r, w2, d2, o2)
    ensures forall n :: !(1 <= n <= r.oorder[OrderKey(w, d, o)].olCnt) ==>
      (OrderLineKey(w, d, o, n) in r.orderLine <==> OrderLineKey(w, d, o, n) in t.orderLine)
  {
    var carrier;
    if o < FirstUndeliveredOrderId {
      carrier := RandomNumber(1, 10);
    } else {
      carrier := 0;
    }
    var olCnt := RandomNumber(5, 15);
    var k := OrderKey(w, d, o);
    r := t.(oorder := t.oorder[k := OOrder(cId, carrier, olCnt, true, entry)],
            oorderCIdIdx := t.oorderCIdIdx + {CIdIdxKey(w, d, cId, o)});
    if o >= FirstUndeliveredOrderId {
      r := r.(newOrder := r.newOrder + {k});
    }
    var lines := StageOrderLines(r.orderLine, w, d, o, olCnt, entry, numWarehouses);
    r := r.(orderLine := lines);
    forall w2, d2, o2 | w2 != w || d2 != d || o2 != o
      ensures OrderRowsKept(t, r, w2, d2, o2)
    {
      forall n | OrderLineKey(w2, d2, o2, n) in t.orderLine
        ensures OrderLineKey(w2, d2, o2, n) in r.orderLine
        ensures r.orderLine[OrderLineKey(w2, d2, o2, n)] == t.orderLine[OrderLineKey(w2, d2, o2, n)]
      {
        assert !(w2 == w && d2 == d && o2 == o);
      }
    }
  }

  /** Orders 1..3000 of district (w, d), one transaction each, order o
      placed by customer cIds[o - 1]. An abort is fatal when loading every
      warehouse. */
  method LoadOrdersOf(store: Store, clock: Clock, w: int, d: int, cIds: seq<int>, warehouseId: int, numWarehouses: int)
    returns (ok: bool)
    requires InWarehouseRange(w, numWarehouses) && InDistrictRange(d)
    requires |cIds| == NumCustomersPerDistrict && forall i :: 0 <= i < |cIds| ==> cIds[i] == i + 1
    modifies store, clock
    ensures OnlyOrdersGrow(old(store.tables), store.tables)
    ensures ok ==> forall o :: InCustomerRange(o) ==> OrderLoaded(store.tables, w, d, o, o, numWarehouses)
    ensures forall w2, d2, o2 :: w2 != w || d2 != d ==> OrderRowsKept(old(store.tables), store.tables, w2, d2, o2)
    ensures store.abortBudget <= old(store.abortBudget)
    ensures !ok ==> warehouseId == -1 && store.abortBudget < old(store.abortBudget)
  {
    var c := 1;
    while c <= NumCustomersPerDistrict
      invariant 1 <= c <= NumCustomersPerDistrict + 1
      invariant OnlyOrdersGrow(old(store.tables), store.tables)
      invariant store.abortBudget <= old(store.abortBudget)
      invariant forall o :: 1 <= o < c ==> OrderLoaded(store.tables, w, d, o, o, numWarehouses)
      invariant forall w2, d2, o2 :: w2 != w || d2 != d || o2 >= c ==>
        OrderRowsKept(old(store.tables), store.tables, w2, d2, o2)
      decreases NumCustomersPerDistrict + 1 - c, store.abortBudget
    {
      var entry := clock.Tick();
      ghost var before := store.tables;
      var staged := StageOrder(store.tables, w, d, c, cIds[c - 1], entry, numWarehouses);
      var verdict := store.Commit(staged);
      if verdict == Accepted {
        forall o | 1 <= o < c
          ensures OrderLoaded(store.tables, w, d, o, o, numWarehouses)
        {
          OrderLoadedKept(before, store.tables, w, d, o, o, numWarehouses);
        }
        forall w2, d2, o2 | w2 != w || d2 != d || o2 >= c + 1
          ensures OrderRowsKept(old(store.tables), store.tables, w2, d2, o2)
        {
          OrderRowsKeptTrans(old(store.tables), before, store.tables, w2, d2, o2);
        }
        c := c + 1;
      } else if warehouseId == -1 {
        return false;
      }
    }
    ok := true;
  }

  /** District (w, d)'s orders: the customer-id permutation is built, listed
      in ascending order, and order o gets its o-th entry. */
  method LoadDistrictOrders(store: Store, clock: Clock, w: int, d: int, warehouseId: int, numWarehouses: int)
    returns (ok: bool)
    requires InWarehouseRange(w, numWarehouses) && InDistrictRange(d)
    modifies store, clock
    ensures OnlyOrdersGrow(old(store.tables), store.tables)
    ensures ok ==> forall o :: InCustomerRange(o) ==> OrderLoaded(store.tables, w, d, o, o, numWarehouses)
    ensures forall w2, d2, o2 :: w2 != w || d2 != d ==> OrderRowsKept(old(store.tables), store.tables, w2, d2, o2)
    ensures store.abortBudget <= old(store.abortBudget)
    ensures !ok ==> warehouseId == -1 && store.abortBudget < old(store.abortBudget)
  {
    var n := NumCustomersPerDistrict;
    var ids := FillCustomerIds(n);
    var cIds := ScanInts(ids);
    AscendingIdRange(cIds, n);
    ok := LoadOrdersOf(store, clock, w, d, cIds, warehouseId, numWarehouses);
  }

  method LoadOrders(store: Store, clock: Clock, warehouseId: int, numWarehouses: int) returns (ok: bool)
    requires numWarehouses >= 1
    modifies store, clock
    ensures OnlyOrdersGrow(old(store.tables), store.tables)
    ensures ok ==> ScopeOk(warehouseId, numWarehouses)
    ensures ok ==> forall w, d, o :: InScope(w, warehouseId, numWarehouses) && InDistrictRange(d) && InCustomerRange(o) ==>
      OrderLoaded(store.tables, w, d, o, o, numWarehouses)
    ensures !ok ==> (!ScopeOk(warehouseId, numWarehouses)
      || (warehouseId == -1 && store.abortBudget < old(store.abortBudget)))
  {
    if !ScopeOk(warehouseId, numWarehouses) {
      return false;
    }
    var last := ScopeEnd(warehouseId, numWarehouses);
    for w := ScopeStart(warehouseId) to last + 1
      invariant OnlyOrdersGrow(old(store.tables), store.tables)
      invariant store.abortBudget <= old(store.abortBudget)
      invariant forall w2, d, o :: ScopeStart(warehouseId) <= w2 < w && InDistrictRange(d) && InCustomerRange(o) ==>
        OrderLoaded(store.tables, w2, d, o, o, numWarehouses)
    {
      for d := 1 to NumDistrictsPerWarehouse + 1
        invariant OnlyOrdersGrow(old(store.tables), store.tables)
        invariant store.abortBudget <= old(store.abortBudget)
        invariant forall w2, d2, o ::
          (ScopeStart(warehouseId) <= w2 < w || (w2 == w && 1 <= d2 < d)) && InDistrictRange(d2) && InCustomerRange(o) ==>
          OrderLoaded(store.tables, w2, d2, o, o, numWarehouses)
      {
        ghost var before := store.tables;
        ok := LoadDistrictOrders(store, clock, w, d, warehouseId, numWarehouses);
        if !ok {
          return false;
        }
        forall w2, d2, o | (ScopeStart(warehouseId) <= w2 < w || (w2 == w && 1 <= d2 < d + 1))
          && InDistrictRange(d2) && InCustomerRange(o)
          ensures OrderLoaded(store.tables, w2, d2, o, o, numWarehouses)
        {
          if w2 != w || d2 != d {
            OrderLoadedKept(before, store.tables, w2, d2, o, o, numWarehouses);
          }
        }
      }
    }
    ok := true;
  }
}
