/** What the six loaders write: the shape of every initial row, the scope of
    warehouses a per-warehouse loader covers, the customer-id permutation the
    order loader builds, and the batching of the stock loader. */
module LoadRows {
  import opened Schema
  import opened Checker
  import opened Generators
  import Engine

  // Initial balances, in cents.
  const WarehouseYtd: int := 30000000
  const DistrictYtd: int := 3000000
  const CustomerCreditLimit: int := 5000000
  const CustomerBalance: int := -1000
  const CustomerYtdPayment: int := 1000
  const HistoryAmount: int := 1000

  /** d_next_o_id after loading: one past the 3000 loaded orders. */
  const InitialNextOrderId: int := NumCustomersPerDistrict + 1

  const LoadedZip: string := "123456789"

  // ------------------------------------------------------------ scope

  /** A per-warehouse loader is built for every warehouse (-1) or for one. */
  predicate ScopeOk(warehouseId: int, numWarehouses: int)
  {
    warehouseId == -1 || InWarehouseRange(warehouseId, numWarehouses)
  }

  predicate InScope(w: int, warehouseId: int, numWarehouses: int)
  {
    if warehouseId == -1 then InWarehouseRange(w, numWarehouses) else w == warehouseId
  }

  /** The first warehouse of the scope. */
  function ScopeStart(warehouseId: int): int
  {
    if warehouseId == -1 then 1 else warehouseId
  }

  /** The last warehouse of the scope: the scope is [ScopeStart, ScopeEnd]. */
  function ScopeEnd(warehouseId: int, numWarehouses: int): (r: int)
    requires ScopeOk(warehouseId, numWarehouses) && numWarehouses >= 1
    ensures ScopeStart(warehouseId) <= r
    ensures forall w :: InScope(w, warehouseId, numWarehouses) <==> ScopeStart(warehouseId) <= w <= r
    ensures forall w :: InScope(w, warehouseId, numWarehouses) ==> InWarehouseRange(w, numWarehouses)
  {
    if warehouseId == -1 then numWarehouses else warehouseId
  }

  // ------------------------------------------------------------- rows

  /** The last name of a customer: one of the 1000 three-token surnames. */
  predicate IsSurname(s: string)
  {
    exists num :: 0 <= num <= 999 && s == CustomerLastName(num)
  }

  predicate LoadedWarehouse(w: int, v: Warehouse, numWarehouses: int)
  {
    && WarehouseOk(w, v, numWarehouses)
    && v.ytd == WarehouseYtd && 0 <= v.tax <= 2000
    && 5 <= |v.name| <= 9
    && 9 <= |v.street1| <= 19 && 9 <= |v.street2| <= 19 && 9 <= |v.city| <= 19
  }

  predicate LoadedItem(i: int, v: Item)
  {
    && ItemOk(i, v)
    && 13 <= |v.name| <= 23 && 25 <= |v.data| <= 50
    && 1 <= v.imId <= 10000
  }

  predicate LoadedStock(k: StockKey, v: Stock, numWarehouses: int)
  {
    && StockOk(k, numWarehouses)
    && 10 <= v.quantity <= 100
    && v.ytd == 0 && v.orderCnt == 0 && v.remoteCnt == 0
    && 25 <= |v.data| <= 50
    && |v.dist01| == 23 && |v.dist02| == 23 && |v.dist03| == 23 && |v.dist04| == 23 && |v.dist05| == 23
    && |v.dist06| == 23 && |v.dist07| == 23 && |v.dist08| == 23 && |v.dist09| == 23 && |v.dist10| == 23
  }

  predicate LoadedDistrict(k: DistrictKey, v: District, numWarehouses: int)
  {
    && DistrictOk(k, v, numWarehouses)
    && v.ytd == DistrictYtd && 0 <= v.tax <= 2000
    && v.nextOId == InitialNextOrderId
    && 5 <= |v.name| <= 9
    && 9 <= |v.street1| <= 19 && 9 <= |v.street2| <= 19 && 9 <= |v.city| <= 19
  }

  /** A loaded customer; the first thousand of a district get the thousand
      surnames in order, the rest a NURand-drawn one. */
  predicate LoadedCustomer(k: CustomerKey, v: Customer, numWarehouses: int)
  {
    && CustomerOk(k, v, numWarehouses)
    && 1 <= v.discount <= 5000
    && IsSurname(v.last)
    && (k.c <= 1000 ==> v.last == CustomerLastName(k.c - 1))
    && 7 <= |v.first| <= 15
    && v.creditLim == CustomerCreditLimit && v.balance == CustomerBalance
    && v.ytdPayment == CustomerYtdPayment && v.paymentCnt == 1 && v.deliveryCnt == 0
    && 9 <= |v.street1| <= 19 && 9 <= |v.street2| <= 19 && 9 <= |v.city| <= 19 && |v.state| == 2
    && |v.zip| == 9 && v.zip[4..] == "11111" && |v.phone| == 16
    && 299 <= |v.data| <= 499
    && 0 <= v.since < Engine.TimeModulus
  }

  /** The history row written with customer `k`: stamped one clock tick
      after the customer's `since`. */
  function LoadHistoryKey(k: CustomerKey, since: int): HistoryKey
  {
    HistoryKey(k.d, k.w, k.c, k.d, k.w, (since + 1) % Engine.TimeModulus)
  }

  /** The history row the customer loader writes: amount 10.00 and 9..23
      characters of text. */
  predicate LoadedHistory(v: History)
  {
    v.amount == HistoryAmount && 9 <= |v.data| <= 23
  }

  /** Customer (w, d, c) is loaded, has its payment history row, and its name
      index entry leads to a customer of the district with the same name. */
  predicate CustomerLoaded(t: Tables, w: int, d: int, c: int, numWarehouses: int)
  {
    var k := CustomerKey(w, d, c);
    && k in t.customer
    && var v := t.customer[k];
    && LoadedCustomer(k, v, numWarehouses)
    && LoadHistoryKey(k, v.since) in t.history
    && LoadedHistory(t.history[LoadHistoryKey(k, v.since)])
    && NameIdxKey(w, d, v.last, v.first) in t.customerNameIdx
    && var found := CustomerKey(w, d, t.customerNameIdx[NameIdxKey(w, d, v.last, v.first)]);
    && found in t.customer
    && t.customer[found].last == v.last && t.customer[found].first == v.first
  }

  /** A loaded order line of an order entered at `entry`. */
  predicate LoadedOrderLine(k: OrderLineKey, v: OrderLine, entry: int, numWarehouses: int)
  {
    && OrderLineOk(k, v, numWarehouses)
    && v.supplyWId == k.w && v.quantity == 5 && |v.distInfo| == 23
    && (k.o < FirstUndeliveredOrderId ==> v.deliveryD == entry && v.amount == 0)
    && (k.o >= FirstUndeliveredOrderId ==> v.deliveryD == 0 && 1 <= v.amount <= 999999)
  }

  /** Order (w, d, o) of customer `cId` is loaded: an oorder row, its
      customer-index entry, a new_order row exactly when the order is not yet
      delivered, and order lines 1..ol_cnt. */
  predicate OrderLoaded(t: Tables, w: int, d: int, o: int, cId: int, numWarehouses: int)
  {
    var k := OrderKey(w, d, o);
    && k in t.oorder
    && var v := t.oorder[k];
    && OOrderOk(k, v, numWarehouses)
    && v.cId == cId && v.allLocal
    && (o < FirstUndeliveredOrderId ==> 1 <= v.carrierId <= 10)
    && (o >= FirstUndeliveredOrderId ==> v.carrierId == 0 && k in t.newOrder)
    && CIdIdxKey(w, d, cId, o) in t.oorderCIdIdx
    && forall n :: 1 <= n <= v.olCnt ==>
         OrderLineKey(w, d, o, n) in t.orderLine
         && LoadedOrderLine(OrderLineKey(w, d, o, n), t.orderLine[OrderLineKey(w, d, o, n)], v.entryD, numWarehouses)
  }

  /** The rows of order (w, d, o) survive from `t` to `t2`. */
  ghost predicate OrderRowsKept(t: Tables, t2: Tables, w: int, d: int, o: int)
  {
    && (OrderKey(w, d, o) in t.oorder ==>
          OrderKey(w, d, o) in t2.oorder && t2.oorder[OrderKey(w, d, o)] == t.oorder[OrderKey(w, d, o)])
    && (forall n :: OrderLineKey(w, d, o, n) in t.orderLine ==>
          OrderLineKey(w, d, o, n) in t2.orderLine
          && t2.orderLine[OrderLineKey(w, d, o, n)] == t.orderLine[OrderLineKey(w, d, o, n)])
  }

  /** `t2` differs from `t` only in the four order tables, the two key sets
      only grow, and every new new_order row is of an undelivered order. */
  predicate OnlyOrdersGrow(t: Tables, t2: Tables)
  {
    && t2 == t.(oorder := t2.oorder, newOrder := t2.newOrder, oorderCIdIdx := t2.oorderCIdIdx, orderLine := t2.orderLine)
    && t.newOrder <= t2.newOrder && t.oorderCIdIdx <= t2.oorderCIdIdx
    && (forall k :: k in t2.newOrder && k !in t.newOrder ==> k.o >= FirstUndeliveredOrderId)
  }

  lemma OrderLoadedKept(t: Tables, t2: Tables, w: int, d: int, o: int, cId: int, numWarehouses: int)
    requires OrderLoaded(t, w, d, o, cId, numWarehouses)
    requires OrderRowsKept(t, t2, w, d, o) && OnlyOrdersGrow(t, t2)
    ensures OrderLoaded(t2, w, d, o, cId, numWarehouses)
  {
    var v := t.oorder[OrderKey(w, d, o)];
    forall n | 1 <= n <= v.olCnt
      ensures OrderLineKey(w, d, o, n) in t2.orderLine
      ensures LoadedOrderLine(OrderLineKey(w, d, o, n), t2.orderLine[OrderLineKey(w, d, o, n)], v.entryD, numWarehouses)
    {
      assert OrderLineKey(w, d, o, n) in t.orderLine;
    }
  }

  lemma OrderRowsKeptTrans(t0: Tables, t1: Tables, t2: Tables, w: int, d: int, o: int)
    requires OrderRowsKept(t0, t1, w, d, o) && OrderRowsKept(t1, t2, w, d, o)
    ensures OrderRowsKept(t0, t2, w, d, o)
  {
    forall n | OrderLineKey(w, d, o, n) in t0.orderLine
      ensures OrderLineKey(w, d, o, n) in t2.orderLine
      ensures t2.orderLine[OrderLineKey(w, d, o, n)] == t0.orderLine[OrderLineKey(w, d, o, n)]
    {
      assert OrderLineKey(w, d, o, n) in t1.orderLine;
    }
  }

  // ------------------------------------------------ customer-id permutation

  /** The customer ids 1..n. */
  function IdRange(n: int): (r: set<int>)
    ensures forall x :: x in r <==> 1 <= x <= n
    decreases n
  {
    if n <= 0 then {} else IdRange(n - 1) + {n}
  }

  lemma {:induction false} IdRangeCard(n: nat)
    ensures |IdRange(n)| == n
  {
    if n > 0 {
      IdRangeCard(n - 1);
    }
  }

  /** A set of ids within 1..n that has n members is all of 1..n. */
  lemma FullIdRange(s: set<int>, n: nat)
    requires s <= IdRange(n) && |s| == n
    ensures s == IdRange(n)
  {
    IdRangeCard(n);
    var rest := IdRange(n) - s;
    assert IdRange(n) == s + rest;
    assert s * rest == {};
  }

  /** A set of ids within 1..n with fewer than n members misses one. */
  lemma IdRangeMissing(s: set<int>, n: nat)
    requires s <= IdRange(n) && |s| < n
    ensures IdRange(n) - s != {}
  {
    IdRangeCard(n);
    assert IdRange(n) == s + (IdRange(n) - s);
  }

  lemma {:induction false} AscendingFromFirst(r: seq<int>, i: int)
    requires forall a, b :: 0 <= a < b < |r| ==> r[a] < r[b]
    requires 0 <= i < |r|
    ensures r[i] >= r[0] + i
    decreases i
  {
    if i > 0 {
      AscendingFromFirst(r, i - 1);
    }
  }

  lemma {:induction false} AscendingToLast(r: seq<int>, i: int)
    requires forall a, b :: 0 <= a < b < |r| ==> r[a] < r[b]
    requires 0 <= i < |r|
    ensures r[i] + (|r| - 1 - i) <= r[|r| - 1]
    decreases |r| - i
  {
    if i < |r| - 1 {
      AscendingToLast(r, i + 1);
    }
  }

  /** The ascending enumeration of 1..n is 1, 2, ..., n: so the order loader,
      which gives order o the o-th smallest id of a full permutation, gives
      every order its own number as customer id. */
  lemma AscendingIdRange(r: seq<int>, n: nat)
    requires forall x :: x in r <==> x in IdRange(n)
    requires |r| == n
    requires forall a, b :: 0 <= a < b < |r| ==> r[a] < r[b]
    ensures forall i :: 0 <= i < n ==> r[i] == i + 1
  {
    forall i | 0 <= i < n
      ensures r[i] == i + 1
    {
      assert r[0] in IdRange(n) && r[n - 1] in IdRange(n);
      AscendingFromFirst(r, i);
      AscendingToLast(r, i);
    }
  }

  // ------------------------------------------------------ stock batches

  /** The stock loader commits in batches b = 0 .. NumItems - 1; batch b
      inserts the items from its start up to NumItems. The benchmark stores
      the start, computed in 64 bits, in a 32-bit unsigned counter. */
  function BatchStartAsWritten(b: nat): (r: int)
    ensures 0 <= r < Engine.TimeModulus
  {
    (b * NumItems + 1) % Engine.TimeModulus
  }

  /** The start as written is odd, so never 0: b * NumItems is even and
      the 32-bit modulus is even. */
  lemma BatchStartAsWrittenOdd(b: nat)
    ensures BatchStartAsWritten(b) % 2 == 1
  {
    var x := b * NumItems + 1;
    var q := x / Engine.TimeModulus;
    var r := x % Engine.TimeModulus;
    assert x == q * Engine.TimeModulus + r;
    assert x == 2 * (b * 50000) + 1;
    assert r == 2 * (b * 50000 - q * 0x8000_0000) + 1;
  }

  /** Truncation brings batch 42950 back into the item range: it inserts the
      stock rows of items 32705..100000 a second time. */
  lemma BatchStartWrapsAround()
    ensures 1 <= 42950 < NumItems
    ensures BatchStartAsWritten(42950) == 32705
    ensures BatchStartAsWritten(85900) == 65409
  {
  }

  /** The batch layout the loader's constants describe, which its loop
      does not follow: NumItems is a multiple of NBatches, and each of the
      NBatches batches loads its own NumItems / NBatches consecutive items. */
  const NBatches: int := 1000
  const ItemsPerBatch: int := NumItems / NBatches

  /** The first item of batch b in that layout. */
  function BatchStart(b: int): (r: int)
    requires 0 <= b < NBatches
    ensures 1 <= r && r + ItemsPerBatch - 1 <= NumItems
  {
    b * ItemsPerBatch + 1
  }

  /** Every item belongs to the batch (i - 1) / ItemsPerBatch. */
  lemma BatchOfItem(i: int) returns (b: int)
    requires 1 <= i <= NumItems
    ensures 0 <= b < NBatches && BatchStart(b) <= i <= BatchStart(b) + ItemsPerBatch - 1
  {
    b := (i - 1) / ItemsPerBatch;
  }

  /** Batches follow each other without overlap: a later batch starts
      after an earlier one ends. */
  lemma BatchesDisjoint(b1: int, b2: int)
    requires 0 <= b1 < b2 < NBatches
    ensures BatchStart(b1) + ItemsPerBatch - 1 < BatchStart(b2)
  {
  }
}
