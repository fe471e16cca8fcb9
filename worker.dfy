/** The benchmark worker of one home warehouse: it draws the inputs of each
    transaction, runs the profile against a staged copy of the tables,
    commits, and counts commits and aborts. Each transaction method is proved
    to do exactly what the profile's function says.

    A transaction that fails a fatal assertion (a missing row, a failed
    sanity check) ends with `Halted`: the benchmark process stops there and
    nothing is committed. */
module Worker {
  import opened Schema
  import opened Checker
  import opened OrderedScan
  import opened Generators
  import opened Engine
  import opened CustomerLookup
  import NewOrder
  import Payment
  import Delivery
  import OrderStatus
  import StockLevel

  datatype TxnOutcome = Committed | Aborted | Halted

  /** How one district of Delivery ends: an abort exception (at the scan,
      or after the cursor write), a fatal assertion, or done. */
  datatype DistrictStep = StepRaised(afterCursor: bool) | StepHalt | StepDone(tables: Tables)

  /** How Delivery's district loop ends. */
  datatype DeliveryRun = RunRaised(at: Delivery.RaisePoint) | RunHalt | RunDone(tables: Tables)

  // ------------------------------------------------------ scan visitors

  /** Delivery's first-match visitor: remembers the first new_order key it
      sees and stops the scan. */
  class NewOrderScanCallback {
    const numWarehouses: int
    var kNo: Option<OrderKey>

    constructor (numWarehouses: int)
      ensures this.numWarehouses == numWarehouses && kNo == None
    {
      this.numWarehouses := numWarehouses;
      kNo := None;
    }

    /** Visits key k; the answer is whether to go on scanning. */
    method Invoke(k: OrderKey) returns (more: bool)
      requires NewOrderOk(k, numWarehouses)
      modifies this
      ensures kNo == Some(k) && !more
    {
      kNo := Some(k);
      more := false;
    }
  }

  /** OrderStatus's counting visitor: checks each order line and counts it. */
  class OrderLineNopCallback {
    const numWarehouses: int
    var n: nat

    constructor (numWarehouses: int)
      ensures this.numWarehouses == numWarehouses && n == 0
    {
      this.numWarehouses := numWarehouses;
      n := 0;
    }

    /** Visits one line; `sane` is false when its sanity check fails. */
    method Invoke(k: OrderLineKey, v: OrderLine) returns (more: bool, sane: bool)
      modifies this
      ensures sane <==> OrderLineOk(k, v, numWarehouses)
      ensures sane ==> n == old(n) + 1 && more
      ensures !sane ==> n == old(n)
    {
      sane := OrderLineOk(k, v, numWarehouses);
      if sane {
        n := n + 1;
      }
      more := true;
    }
  }

  /** StockLevel's collecting visitor: checks each order line and gathers
      the distinct item ids. */
  class OrderLineScanCallback {
    const numWarehouses: int
    var n: nat
    var sIIds: set<int>

    constructor (numWarehouses: int)
      ensures this.numWarehouses == numWarehouses && n == 0 && sIIds == {}
    {
      this.numWarehouses := numWarehouses;
      n := 0;
      sIIds := {};
    }

    method Invoke(k: OrderLineKey, v: OrderLine) returns (more: bool, sane: bool)
      modifies this
      ensures sane <==> OrderLineOk(k, v, numWarehouses)
      ensures sane ==> sIIds == old(sIIds) + {v.iId} && n == old(n) + 1 && more
      ensures !sane ==> n == old(n) && sIIds == old(sIIds)
    {
      sane := OrderLineOk(k, v, numWarehouses);
      if sane {
        sIIds := sIIds + {v.iId};
        n := n + 1;
      }
      more := true;
    }
  }

  /** Payment's customer step on the staged image t: look the customer up,
      check it, charge it and record the history row with text `note`. */
  method ChargeCustomer(t: Tables, w: int, numWarehouses: int, r: Payment.Request, now: int, text: string, note: string)
    returns (e: Effect)
    ensures e == Payment.ChargeStep(t, w, numWarehouses, r, now, text, note)
  {
    var pick := LookupCustomer(t, r.cw, r.cd, r.customer);
    if pick.NotFound? || !CustomerOk(pick.key, pick.customer, numWarehouses) {
      return Halt;
    }
    var key := pick.key;
    var t' := t.(customer := t.customer[key := Payment.Charged(pick.customer, key, r, w, text)]);
    t' := t'.(history := t'.history[HistoryKey(key.d, key.w, key.c, r.d, w, now) := History(r.amount, note)]);
    e := Done(t');
  }

  /** The scan of order o's lines, stopped after 15 entries. */
  method ScanOrderLines(ol: map<OrderLineKey, OrderLine>, w: int, d: int, o: int) returns (ns: seq<int>)
    ensures ns == Delivery.DeliveredLines(ol, w, d, o)
  {
    IntLessIsStrictTotal();
    var all := Scan(LineNumbers(ol, w, d, o), IntLess);
    ns := if |all| <= Delivery.MaxLinesPerOrder then all else all[..Delivery.MaxLinesPerOrder];
  }

  /** Delivery's line loop: sanity-check each kept line, add its amount to
      the sum and stamp it with delivery date ts. */
  method StampOrderLines(ol0: map<OrderLineKey, OrderLine>, w: int, d: int, o: int, ns: seq<int>, ts: int,
                         numWarehouses: int) returns (r: Option<Delivery.Stamped>)
    requires forall i :: 0 <= i < |ns| ==> OrderLineKey(w, d, o, ns[i]) in ol0
    ensures r == Delivery.StampLines(ol0, w, d, o, ns, ts, numWarehouses)
  {
    var ol := ol0;
    var sum := 0;
    for i := 0 to |ns|
      invariant ol.Keys == ol0.Keys
      invariant Delivery.StampLines(ol0, w, d, o, ns, ts, numWarehouses) ==
        match Delivery.StampLines(ol, w, d, o, ns[i..], ts, numWarehouses)
        case None => None
        case Some(st) => Some(Delivery.Stamped(st.lines, st.sum + sum))
    {
      var k := OrderLineKey(w, d, o, ns[i]);
      var v := ol[k];
      assert ns[i..][0] == ns[i] && ns[i..][1..] == ns[i + 1..];
      if !OrderLineOk(k, v, numWarehouses) {
        return None;
      }
      sum := sum + v.amount;
      ol := ol[k := v.(deliveryD := ts)];
    }
    assert ns[|ns|..] == [];
    r := Some(Delivery.Stamped(ol, sum));
  }

  /** Delivery's work on order o of district (w, d): check the order, scan
      and stamp its first 15 lines, summing their amounts, remove its
      new_order row, record the carrier and credit the customer. None when a
      fatal assertion fails. */
  method DeliverOrderStep(t: Tables, w: int, numWarehouses: int, d: int, o: int, carrier: int, ts: int)
    returns (r: Option<Tables>)
    ensures r == Delivery.DeliverOrder(t, w, numWarehouses, d, o, carrier, ts)
  {
    var ok := OrderKey(w, d, o);
    if ok !in t.oorder || !OOrderOk(ok, t.oorder[ok], numWarehouses) {
      return None;
    }
    var ns := ScanOrderLines(t.orderLine, w, d, o);
    Delivery.DeliveredLinesExist(t.orderLine, w, d, o);

    var stamped := StampOrderLines(t.orderLine, w, d, o, ns, ts, numWarehouses);
    if stamped.None? {
      return None;
    }
    var ol, sum := stamped.value.lines, stamped.value.sum;
    var oo := t.oorder[ok];
    var t' := t.(orderLine := ol, newOrder := t.newOrder - {ok}, oorder := t.oorder[ok := oo.(carrierId := carrier)]);
    var ck := CustomerKey(w, d, oo.cId);
    if ck !in t'.customer {
      return None;
    }
    var cust := t'.customer[ck];
    r := Some(t'.(customer := t'.customer[ck := cust.(balance := cust.balance + sum)]));
  }

  /** Delivery's first-match scan of new_order for district (w, d) from
      `cursor`: the oldest pending order id, if any. */
  method FirstPending(t: Tables, w: int, numWarehouses: int, d: int, cursor: int) returns (o: Option<int>)
    requires InWarehouseRange(w, numWarehouses) && InDistrictRange(d)
    ensures o == Delivery.OldestPending(t, w, d, cursor)
  {
    IntLessIsStrictTotal();
    var ids := Scan(Delivery.PendingIds(t, w, d, cursor), IntLess);
    var visitor := new NewOrderScanCallback(numWarehouses);
    var i, more := 0, true;
    while i < |ids| && more
      invariant 0 <= i <= |ids| && visitor.numWarehouses == numWarehouses
      invariant i == 0 ==> visitor.kNo == None && more
      invariant i > 0 ==> visitor.kNo == Some(OrderKey(w, d, ids[0])) && !more
      decreases |ids| - i
    {
      more := visitor.Invoke(OrderKey(w, d, ids[i]));
      i := i + 1;
    }
    if visitor.kNo.None? {
      return None;
    }
    o := Some(visitor.kNo.value.o);
  }

  /** How the customer is named: 60% by a run-time surname, else by id. */
  method DrawCustomerRef() returns (ref: CustomerRef)
    ensures match ref
      case ByLast(last) => exists num :: 0 <= num <= 999 && last == CustomerLastName(num)
      case ByNumber(c) => InCustomerRange(c)
  {
    var coin := RandomNumber(1, 100);
    if coin <= 60 {
      var last := GetNonUniformCustomerLastNameRun();
      ref := ByLast(last);
    } else {
      var c := GetCustomerId();
      ref := ByNumber(c);
    }
  }

  /** Payment's first steps on the staged image t: check the home warehouse
      and district and add the amount to their year-to-date totals. Also
      returns the history text built from their names. */
  method CreditTotals(t: Tables, w: int, numWarehouses: int, d: int, amount: int)
    returns (ok: bool, t1: Tables, note: string)
    ensures var dk := DistrictKey(w, d);
      && (ok <==> w in t.warehouse && WarehouseOk(w, t.warehouse[w], numWarehouses)
                  && dk in t.district && DistrictOk(dk, t.district[dk], numWarehouses))
      && (ok ==>
            && note == Payment.HistoryText(t.warehouse[w].name, t.district[dk].name)
            && t1 == Payment.Credited(t, w, dk, amount))
  {
    t1, note := t, "";
    if w !in t1.warehouse || !WarehouseOk(w, t1.warehouse[w], numWarehouses) {
      return false, t1, note;
    }
    var wv := t1.warehouse[w];
    t1 := t1.(warehouse := t1.warehouse[w := wv.(ytd := wv.ytd + amount)]);
    var dk := DistrictKey(w, d);
    if dk !in t1.district || !DistrictOk(dk, t1.district[dk], numWarehouses) {
      return false, t1, note;
    }
    var dv := t1.district[dk];
    t1 := t1.(district := t1.district[dk := dv.(ytd := dv.ytd + amount)]);
    ok, note := true, Payment.HistoryText(wv.name, dv.name);
  }

  /** The body of Payment on the staged image t: the warehouse and district
      totals grow, then the customer, drawn inside the transaction, is
      charged. */
  method PaymentBody(t: Tables, w: int, numWarehouses: int, d: int, cw: int, cd: int, amount: int, now: int,
                     text: string) returns (e: Effect, ghost req: Payment.Request)
    requires InWarehouseRange(w, numWarehouses)
    requires InDistrictRange(d) && InDistrictRange(cd) && InWarehouseRange(cw, numWarehouses)
    requires (cw == w && cd == d) || cw != w
    requires numWarehouses == 1 ==> cw == w
    requires 100 <= amount <= 500000
    ensures Payment.WellFormed(req, w, numWarehouses)
    ensures req.d == d && req.cw == cw && req.cd == cd && req.amount == amount
    ensures e == Payment.PaymentEffect(t, w, numWarehouses, req, now, text)
  {
    var r := Payment.Request(d, cw, cd, ByNumber(1), amount);
    req := r;
    var ok, t1, note := CreditTotals(t, w, numWarehouses, d, amount);
    if !ok {
      return Halt, req;
    }
    var ref := DrawCustomerRef();
    r := r.(customer := ref);
    req := r;
    Payment.PaymentEffectUnfold(t, w, numWarehouses, r, now, text);
    e := ChargeCustomer(t1, w, numWarehouses, r, now, text, note);
  }

  /** The body of NewOrder on the staged image t: check the customer,
      warehouse and district, take the district's next order id, insert the
      order header, then place the lines one by one. */
  method NewOrderBody(t: Tables, w: int, numWarehouses: int, r: NewOrder.Request, allLocal: bool, now: int)
    returns (e: Effect)
    requires NewOrder.WellFormed(r, w, numWarehouses)
    requires allLocal <==> NewOrder.AllLocal(r, w)
    ensures e == NewOrder.NewOrderEffect(t, w, numWarehouses, r, now)
  {
    var ck := CustomerKey(w, r.d, r.c);
    if ck !in t.customer || !CustomerOk(ck, t.customer[ck], numWarehouses) {
      return Halt;
    }
    if w !in t.warehouse || !WarehouseOk(w, t.warehouse[w], numWarehouses) {
      return Halt;
    }
    var dk := DistrictKey(w, r.d);
    if dk !in t.district || !DistrictOk(dk, t.district[dk], numWarehouses) {
      return Halt;
    }
    var o := t.district[dk].nextOId;
    var ok := OrderKey(w, r.d, o);
    var h := t.(newOrder := t.newOrder + {ok});
    h := h.(district := h.district[dk := h.district[dk].(nextOId := o + 1)]);
    h := h.(oorder := h.oorder[ok := OOrder(r.c, 0, |r.lines|, allLocal, now)]);
    h := h.(oorderCIdIdx := h.oorderCIdIdx + {CIdIdxKey(w, r.d, r.c, o)});
    assert h == NewOrder.Header(t, w, r, o, now);
    e := PlaceOrderLines(h, w, numWarehouses, r, o);
  }

  /** NewOrder's line loop: for each line, check the item and the home
      stock row, update the stock and insert the order line. */
  method PlaceOrderLines(h: Tables, w: int, numWarehouses: int, r: NewOrder.Request, o: int) returns (e: Effect)
    requires NewOrder.WellFormed(r, w, numWarehouses)
    ensures e == NewOrder.PlaceLines(h, w, numWarehouses, r, o, 0)
  {
    var t := h;
    for ol := 1 to |r.lines| + 1
      invariant NewOrder.PlaceLines(h, w, numWarehouses, r, o, 0) ==
                NewOrder.PlaceLines(t, w, numWarehouses, r, o, ol - 1)
    {
      var l := r.lines[ol - 1];
      if l.item !in t.item || !ItemOk(l.item, t.item[l.item]) {
        return Halt;
      }
      var sk := StockKey(w, l.item);
      if sk !in t.stock || !StockOk(sk, numWarehouses) {
        return Halt;
      }
      var s := t.stock[sk];
      var quantity := s.quantity;
      if NewOrder.EnoughStock(quantity, l.quantity) {
        quantity := quantity - l.quantity;
      } else {
        quantity := quantity - l.quantity + 91;
      }
      var remote := if l.supplyW == w then 0 else 1;
      var s' := s.(quantity := quantity, ytd := s.ytd + l.quantity, remoteCnt := s.remoteCnt + remote);
      assert s' == NewOrder.StockAfterOrder(s, l.quantity, l.supplyW != w);
      var line := OrderLine(l.item, 0, l.quantity * t.item[l.item].price, l.supplyW, l.quantity,
                            NewOrder.DistInfo(s, r.d));
      t := t.(stock := t.stock[sk := s'], orderLine := t.orderLine[OrderLineKey(w, r.d, o, ol) := line]);
    }
    e := Done(t);
  }

  /** OrderStatus's order-line scan of order o: the counting visitor checks
      and counts each line. None when a line fails its check. */
  method CountOrderLines(ol: map<OrderLineKey, OrderLine>, w: int, numWarehouses: int, d: int, o: int)
    returns (n: Option<int>)
    ensures n.None? <==> !OrderStatus.LinesSane(ol, w, d, o, numWarehouses)
    ensures n.Some? ==> n.value == |LineNumbers(ol, w, d, o)|
  {
    var ns := ScanInts(LineNumbers(ol, w, d, o));
    var visitor := new OrderLineNopCallback(numWarehouses);
    var i, more := 0, true;
    while i < |ns| && more
      invariant 0 <= i <= |ns| && more && visitor.n == i && visitor.numWarehouses == numWarehouses
      invariant forall j :: 0 <= j < i ==>
        OrderLineKey(w, d, o, ns[j]) in ol && OrderLineOk(OrderLineKey(w, d, o, ns[j]), ol[OrderLineKey(w, d, o, ns[j])], numWarehouses)
    {
      var k := OrderLineKey(w, d, o, ns[i]);
      assert ns[i] in LineNumbers(ol, w, d, o);
      var sane;
      more, sane := visitor.Invoke(k, ol[k]);
      if !sane {
        return None;
      }
      i := i + 1;
    }
    forall k | k in ol && k.w == w && k.d == d && k.o == o && 0 <= k.n < Int32Max
      ensures OrderLineOk(k, ol[k], numWarehouses)
    {
      assert k.n in LineNumbers(ol, w, d, o);
      var j :| 0 <= j < |ns| && ns[j] == k.n;
      assert k == OrderLineKey(w, d, o, ns[j]);
    }
    n := Some(visitor.n);
  }

  /** The latest-key scan of oorder_c_id_idx for customer (w, d, c): the
      last order id the ascending scan visits. */
  method LatestOrderId(t: Tables, w: int, d: int, c: int) returns (o: Option<int>)
    ensures o == OrderStatus.LatestOrder(t, w, d, c)
  {
    IntLessIsStrictTotal();
    var ids := Scan(OrderStatus.OrderIdsOf(t, w, d, c), IntLess);
    o := if ids == [] then None else Some(ids[|ids| - 1]);
  }

  /** The body of OrderStatus on image t for district d: pick the customer
      (drawn inside the transaction), find its latest order and count that
      order's lines. */
  method OrderStatusBody(t: Tables, w: int, numWarehouses: int, d: int) returns (s: OrderStatus.Status, ghost req: OrderStatus.Request)
    requires InWarehouseRange(w, numWarehouses) && InDistrictRange(d)
    ensures OrderStatus.WellFormed(req, w, numWarehouses) && req.d == d
    ensures s == OrderStatus.OrderStatusOf(t, w, numWarehouses, req)
  {
    var ref := DrawCustomerRef();
    req := OrderStatus.Request(d, ref);
    var pick := LookupCustomer(t, w, d, ref);
    if pick.NotFound? || !CustomerOk(pick.key, pick.customer, numWarehouses) {
      return OrderStatus.StatusHalt, req;
    }
    var latest := LatestOrderId(t, w, d, pick.key.c);
    if latest.None? {
      return OrderStatus.StatusHalt, req;
    }
    var o := latest.value;
    var n := CountOrderLines(t.orderLine, w, numWarehouses, d, o);
    if n.None? || !(5 <= n.value <= 15) {
      return OrderStatus.StatusHalt, req;
    }
    s := OrderStatus.Status(pick.key, o, n.value);
  }

  /** The keys of the StockLevel window, in the engine's key order. */
  method ScanWindow(ol: map<OrderLineKey, OrderLine>, w: int, d: int, lower: int, next: int) returns (ks: seq<OrderLineKey>)
    ensures forall k :: k in ks <==> k in ol && StockLevel.InWindow(k, w, d, lower, next)
  {
    StockLevel.OrderLineKeyLessIsStrictTotal();
    ks := Scan(StockLevel.WindowLines(ol, w, d, lower, next), StockLevel.OrderLineKeyLess);
  }

  /** StockLevel's order-line scan over the window: the collecting visitor
      checks each line and gathers its item id. None when a line fails its
      check. */
  method CollectWindowItems(ol: map<OrderLineKey, OrderLine>, w: int, numWarehouses: int, d: int, lower: int,
                            next: int) returns (items: Option<set<int>>)
    ensures items.None? <==> !StockLevel.WindowSane(ol, w, d, lower, next, numWarehouses)
    ensures items.Some? ==> items.value == StockLevel.WindowItems(ol, w, d, lower, next)
  {
    var ks := ScanWindow(ol, w, d, lower, next);
    var visitor := new OrderLineScanCallback(numWarehouses);
    var i, more := 0, true;
    while i < |ks| && more
      invariant 0 <= i <= |ks| && more && visitor.numWarehouses == numWarehouses
      invariant forall j :: 0 <= j < i ==> ks[j] in ol && OrderLineOk(ks[j], ol[ks[j]], numWarehouses)
      invariant forall x :: x in visitor.sIIds <==> exists j :: 0 <= j < i && ol[ks[j]].iId == x
    {
      assert ks[i] in ks;
      var sane;
      more, sane := visitor.Invoke(ks[i], ol[ks[i]]);
      if !sane {
        return None;
      }
      i := i + 1;
    }
    forall k | k in ol && StockLevel.InWindow(k, w, d, lower, next)
      ensures OrderLineOk(k, ol[k], numWarehouses) && ol[k].iId in visitor.sIIds
    {
      assert k in ks;
      var j :| 0 <= j < |ks| && ks[j] == k;
    }
    forall x | x in visitor.sIIds ensures x in StockLevel.WindowItems(ol, w, d, lower, next) {
      var j :| 0 <= j < |ks| && ol[ks[j]].iId == x;
      assert ks[j] in ks;
    }
    items := Some(visitor.sIIds);
  }

  /** StockLevel's join: for each distinct item, read the home warehouse's
      stock row and keep the item when its quantity is below the threshold.
      None when a stock row is missing. */
  method CountLowStock(stock: map<StockKey, Stock>, w: int, items: set<int>, threshold: int)
    returns (count: Option<int>)
    requires forall i :: i in items ==> InItemRange(i)
    ensures count.None? <==> !(forall i :: i in items ==> StockKey(w, i) in stock)
    ensures count.Some? ==> count.value == |StockLevel.LowStock(stock, w, items, threshold)|
  {
    var remaining := items;
    var distinct: set<int> := {};
    while remaining != {}
      invariant remaining <= items
      invariant forall i :: i in items - remaining ==> StockKey(w, i) in stock
      invariant distinct == StockLevel.LowStock(stock, w, items - remaining, threshold)
      decreases |remaining|
    {
      var i := PickAny(remaining);
      assert InItemRange(i);
      var sk := StockKey(w, i);
      if sk !in stock {
        return None;
      }
      if stock[sk].quantity < threshold {
        distinct := distinct + {i};
      }
      remaining := remaining - {i};
    }
    assert items - remaining == items;
    count := Some(|distinct|);
  }

  /** The body of StockLevel on image t. */
  method StockLevelBody(t: Tables, w: int, numWarehouses: int, req: StockLevel.Request) returns (count: Option<int>)
    ensures count == StockLevel.StockLevelOf(t, w, numWarehouses, req)
  {
    var dk := DistrictKey(w, req.d);
    if dk !in t.district || !DistrictOk(dk, t.district[dk], numWarehouses) {
      return None;
    }
    var next := t.district[dk].nextOId;
    var lower := if next >= 20 then next - 20 else 0;
    var items := CollectWindowItems(t.orderLine, w, numWarehouses, req.d, lower, next);
    if items.None? {
      return None;
    }
    StockLevel.WindowItemsInRange(t.orderLine, w, req.d, lower, next, numWarehouses);
    count := CountLowStock(t.stock, w, items.value, req.threshold);
  }

  // ------------------------------------------------------------ worker

  class Worker {
    const warehouseId: int
    const numWarehouses: int
    const store: Store
    const clock: Clock
    /** Delivery's per-district cursors, indexed by district number 1..10. */
    const lastNoOIds: array<int>
    var ntxnCommits: nat
    var ntxnAborts: nat

    ghost predicate Valid()
    {
      InWarehouseRange(warehouseId, numWarehouses) && lastNoOIds.Length == Delivery.NumCursorSlots
    }

    constructor (warehouseId: int, numWarehouses: int, store: Store, clock: Clock)
      requires InWarehouseRange(warehouseId, numWarehouses)
      ensures Valid()
      ensures this.warehouseId == warehouseId && this.numWarehouses == numWarehouses
      ensures this.store == store && this.clock == clock
      ensures fresh(lastNoOIds) && forall i :: 0 <= i < lastNoOIds.Length ==> lastNoOIds[i] == 0
      ensures ntxnCommits == 0 && ntxnAborts == 0
    {
      this.warehouseId := warehouseId;
      this.numWarehouses := numWarehouses;
      this.store := store;
      this.clock := clock;
      lastNoOIds := new int[Delivery.NumCursorSlots](_ => 0);
      ntxnCommits := 0;
      ntxnAborts := 0;
    }

    /** A warehouse other than the home one, by redrawing until it differs. */
    method OtherWarehouse() returns (s: int)
      requires Valid() && numWarehouses >= 2
      ensures InWarehouseRange(s, numWarehouses) && s != warehouseId
    {
      var run: nat :| true;
      s := RandomNumberRun(1, numWarehouses, warehouseId, run);
      while s == warehouseId
        invariant InWarehouseRange(s, numWarehouses)
        invariant s == warehouseId <==> run > 0
        decreases run
      {
        run := run - 1;
        s := RandomNumberRun(1, numWarehouses, warehouseId, run);
      }
    }

    /** Ends a transaction whose staged image is `staged`. */
    method Finish(staged: Tables) returns (outcome: TxnOutcome)
      modifies this, store
      ensures outcome != Halted
      ensures outcome == Committed ==> store.tables == staged
      ensures outcome == Aborted ==> store.tables == old(store.tables)
      ensures outcome == Committed ==> ntxnCommits == old(ntxnCommits) + 1 && ntxnAborts == old(ntxnAborts)
      ensures outcome == Aborted ==> ntxnAborts == old(ntxnAborts) + 1 && ntxnCommits == old(ntxnCommits)
    {
      var v := store.Commit(staged);
      if v == Accepted {
        ntxnCommits := ntxnCommits + 1;
        outcome := Committed;
      } else {
        ntxnAborts := ntxnAborts + 1;
        outcome := Aborted;
      }
    }

    // ------------------------------------------------------- NewOrder

    /** The NewOrder draws: district, customer, 5 to 15 lines, each remote
        with probability 1/100 when there is more than one warehouse, and
        whether all lines are local. */
    method DrawNewOrder() returns (req: NewOrder.Request, allLocal: bool)
      requires Valid()
      ensures NewOrder.WellFormed(req, warehouseId, numWarehouses)
      ensures allLocal <==> NewOrder.AllLocal(req, warehouseId)
    {
      var d := RandomNumber(1, NumDistrictsPerWarehouse);
      var c := GetCustomerId();
      var numItems := RandomNumber(5, 15);
      var lines: seq<NewOrder.LineRequest> := [];
      allLocal := true;
      for i := 0 to numItems
        invariant |lines| == i
        invariant forall j :: 0 <= j < i ==>
          && InItemRange(lines[j].item)
          && InWarehouseRange(lines[j].supplyW, numWarehouses)
          && 1 <= lines[j].quantity <= 10
        invariant allLocal <==> forall j :: 0 <= j < i ==> lines[j].supplyW == warehouseId
      {
        var item := GetItemId();
        var supply := warehouseId;
        var local := true;
        if numWarehouses != 1 {
          var coin := RandomNumber(1, 100);
          local := coin > 1;
        }
        if !local {
          supply := OtherWarehouse();
          allLocal := false;
        }
        var quantity := RandomNumber(1, 10);
        assert local <==> supply == warehouseId;
        ghost var before := lines;
        lines := lines + [NewOrder.LineRequest(item, supply, quantity)];
        assert forall j :: 0 <= j < i ==> lines[j] == before[j];
        assert lines[i].supplyW == supply;
        assert (forall j :: 0 <= j < i + 1 ==> lines[j].supplyW == warehouseId) <==>
               (forall j :: 0 <= j < i ==> before[j].supplyW == warehouseId) && local;
      }
      req := NewOrder.Request(d, c, lines);
    }

    /** NewOrder. The customer, warehouse and district reads come first (a
        failed one is fatal); an abort exception thrown at them or at the
        new_order insert and district put that follow ends the transaction
        before the entry date is read, so the clock is not advanced
        (`clockRead` is false). Otherwise the clock is read once and the
        body runs at that time. */
    method TxnNewOrder() returns (outcome: TxnOutcome, ghost req: NewOrder.Request, ghost ts: int,
                                  ghost clockRead: bool)
      requires Valid()
      modifies this, store, clock
      ensures Valid()
      ensures ts == old(clock.now) as int
      ensures clock.now as int == if clockRead then (ts + 1) % TimeModulus else ts
      ensures NewOrder.WellFormed(req, warehouseId, numWarehouses)
      ensures !NewOrder.HeaderRowsOk(old(store.tables), warehouseId, numWarehouses, req) ==>
        outcome == Halted && !clockRead
      ensures NewOrder.HeaderRowsOk(old(store.tables), warehouseId, numWarehouses, req) && !clockRead ==>
        outcome == Aborted && store.abortBudget < old(store.abortBudget)
      ensures var eff := NewOrder.NewOrderEffect(old(store.tables), warehouseId, numWarehouses, req, ts);
        && (outcome == Halted ==> eff.Halt?)
        && (clockRead ==> (outcome == Halted <==> eff.Halt?))
        && (outcome == Committed ==> store.tables == eff.tables)
        && (outcome != Committed ==> store.tables == old(store.tables))
      ensures outcome == Committed ==> ntxnCommits == old(ntxnCommits) + 1 && ntxnAborts == old(ntxnAborts)
      ensures outcome == Aborted ==> ntxnAborts == old(ntxnAborts) + 1 && ntxnCommits == old(ntxnCommits)
    {
      var r, allLocal := DrawNewOrder();
      req, ts, clockRead := r, clock.now as int, false;
      if !NewOrder.HeaderRowsOk(store.tables, warehouseId, numWarehouses, r) {
        assert NewOrder.NewOrderEffect(store.tables, warehouseId, numWarehouses, r, ts).Halt?;
        return Halted, req, ts, clockRead;
      }
      var raised := store.MayRaise();
      if raised {
        ntxnAborts := ntxnAborts + 1;
        return Aborted, req, ts, clockRead;
      }
      var now := clock.Tick();
      clockRead := true;
      var staged := NewOrderBody(store.tables, warehouseId, numWarehouses, r, allLocal, now);
      if staged.Halt? {
        return Halted, req, ts, clockRead;
      }
      outcome := Finish(staged.tables);
    }

    // -------------------------------------------------------- Payment

    /** The Payment draws made before the transaction starts: the district,
        the customer's district and warehouse (85% the home district, else a
        district of another warehouse), and the amount in cents. */
    method DrawPayment() returns (d: int, cw: int, cd: int, amount: int)
      requires Valid()
      ensures InDistrictRange(d) && InDistrictRange(cd) && InWarehouseRange(cw, numWarehouses)
      ensures (cw == warehouseId && cd == d) || cw != warehouseId
      ensures numWarehouses == 1 ==> cw == warehouseId
      ensures 100 <= amount <= 500000
    {
      d := RandomNumber(1, NumDistrictsPerWarehouse);
      var home := true;
      if numWarehouses != 1 {
        var coin := RandomNumber(1, 100);
        home := coin <= 85;
      }
      if home {
        cd, cw := d, warehouseId;
      } else {
        cd := RandomNumber(1, NumDistrictsPerWarehouse);
        cw := OtherWarehouse();
      }
      amount := RandomNumber(100, 500000);
    }

    method TxnPayment() returns (outcome: TxnOutcome, ghost req: Payment.Request, ghost ts: int, ghost amountText: string)
      requires Valid()
      modifies this, store, clock
      ensures Valid()
      ensures ts == old(clock.now) as int && clock.now as int == (ts + 1) % TimeModulus
      ensures Payment.WellFormed(req, warehouseId, numWarehouses)
      ensures var eff := Payment.PaymentEffect(old(store.tables), warehouseId, numWarehouses, req, ts, amountText);
        && (outcome == Halted <==> eff.Halt?)
        && (outcome == Committed ==> store.tables == eff.tables)
        && (outcome != Committed ==> store.tables == old(store.tables))
      ensures outcome == Committed ==> ntxnCommits == old(ntxnCommits) + 1 && ntxnAborts == old(ntxnAborts)
      ensures outcome == Aborted ==> ntxnAborts == old(ntxnAborts) + 1 && ntxnCommits == old(ntxnCommits)
    {
      var d, cw, cd, amount := DrawPayment();
      var now := clock.Tick();
      // The %f rendering of the float amount is not modelled: any text.
      var text: string :| true;
      var staged;
      staged, req := PaymentBody(store.tables, warehouseId, numWarehouses, d, cw, cd, amount, now, text);
      ts, amountText := now, text;
      if staged.Halt? {
        return Halted, req, ts, amountText;
      }
      outcome := Finish(staged.tables);
    }

    // ------------------------------------------------------- Delivery

    /** Delivery's work on district d of the staged image t: scan for the
        oldest pending order, move the cursor past it, deliver it. The abort
        exception can come at the scan or right after the cursor write. */
    method DeliverDistrictIn(t: Tables, d: int, carrier: int, ts: int) returns (step: DistrictStep)
      requires Valid() && InDistrictRange(d)
      modifies store, lastNoOIds
      ensures store.tables == old(store.tables)
      ensures step.StepRaised? <==> store.abortBudget < old(store.abortBudget)
      ensures !step.StepRaised? ==> store.abortBudget == old(store.abortBudget)
      ensures var pending := Delivery.OldestPending(t, warehouseId, d, old(lastNoOIds[d]));
        && (step.StepRaised? && !step.afterCursor ==> lastNoOIds[..] == old(lastNoOIds[..]))
        && (step.StepRaised? && step.afterCursor ==>
              pending.Some? && lastNoOIds[..] == old(lastNoOIds[..])[d := pending.value + 1])
      ensures var r := Delivery.DeliverDistrict(t, warehouseId, numWarehouses, d, old(lastNoOIds[d]), carrier, ts);
        && (step.StepHalt? ==> r.DistrictHalt?)
        && (step.StepDone? ==> r == Delivery.DistrictDone(step.tables, lastNoOIds[d])
                               && lastNoOIds[..] == old(lastNoOIds[..])[d := lastNoOIds[d]])
    {
      ghost var c := lastNoOIds[..];
      var raised := store.MayRaise();
      if raised {
        return StepRaised(false);
      }
      var pending := FirstPending(t, warehouseId, numWarehouses, d, lastNoOIds[d]);
      if pending.None? {
        assert lastNoOIds[..] == c[d := lastNoOIds[d]];
        return StepDone(t);
      }
      var o := pending.value;
      lastNoOIds[d] := o + 1;
      raised := store.MayRaise();
      if raised {
        assert lastNoOIds[..] == c[d := o + 1];
        return StepRaised(true);
      }
      var delivered := DeliverOrderStep(t, warehouseId, numWarehouses, d, o, carrier, ts);
      if delivered.None? {
        return StepHalt;
      }
      assert lastNoOIds[..] == c[d := lastNoOIds[d]];
      step := StepDone(delivered.value);
    }

    /** Delivery's loop over districts 1..10 on the staged image, each
        from its cursor, until an abort exception or a fatal assertion
        stops it. */
    method DeliverDistricts(carrier: int, ts: int) returns (run: DeliveryRun)
      requires Valid()
      modifies store, lastNoOIds
      ensures store.tables == old(store.tables)
      ensures run.RunRaised? <==> store.abortBudget < old(store.abortBudget)
      ensures !run.RunRaised? ==> store.abortBudget == old(store.abortBudget)
      ensures run.RunRaised? ==>
        && InDistrictRange(run.at.d)
        && Delivery.CursorsAtRaise(old(store.tables), warehouseId, numWarehouses, old(lastNoOIds[..]), carrier, ts,
                                   run.at) == Some(lastNoOIds[..])
      ensures var eff := Delivery.DeliveryEffect(old(store.tables), warehouseId, numWarehouses, old(lastNoOIds[..]),
                                                 carrier, ts);
        && (run.RunHalt? ==> eff.DeliveryHalt?)
        && (run.RunDone? ==> eff == Delivery.DeliveryDone(run.tables, lastNoOIds[..]))
    {
      var w := warehouseId;
      var t := store.tables;
      ghost var t0 := t;
      ghost var c0 := lastNoOIds[..];
      for d := 1 to Delivery.NumCursorSlots
        invariant store.tables == t0 && store.abortBudget == old(store.abortBudget)
        invariant Delivery.DeliverUpTo(t0, w, numWarehouses, c0, carrier, ts, d) ==
                  Some(Delivery.Progress(t, lastNoOIds[..]))
      {
        ghost var c := lastNoOIds[..];
        var step := DeliverDistrictIn(t, d, carrier, ts);
        match step
        case StepRaised(afterCursor) =>
          Delivery.CursorsAtRaiseFromProgress(t0, w, numWarehouses, c0, carrier, ts, Delivery.RaisePoint(d, afterCursor),
                                              Delivery.Progress(t, c), lastNoOIds[..]);
          return RunRaised(Delivery.RaisePoint(d, afterCursor));
        case StepHalt =>
          Delivery.DeliverUpToFrom(t0, w, numWarehouses, c0, carrier, ts, d);
          return RunHalt;
        case StepDone(t1) =>
          Delivery.DeliverUpToStep(t0, w, numWarehouses, c0, carrier, ts, d, Delivery.Progress(t, c),
                                   t1, lastNoOIds[d]);
          t := t1;
      }
      Delivery.DeliverUpToFrom(t0, w, numWarehouses, c0, carrier, ts, Delivery.NumCursorSlots);
      run := RunDone(t);
    }

    /** Delivery: one carrier for all ten districts, each delivered from
        its cursor. The cursors live outside the transaction: a refused
        commit leaves them where the whole profile moves them, and an abort
        exception at `raisedAt` leaves them where it interrupted the loop. */
    method TxnDelivery() returns (outcome: TxnOutcome, ghost carrier: int, ghost ts: int,
                                  ghost raisedAt: Option<Delivery.RaisePoint>)
      requires Valid()
      modifies this, store, clock, lastNoOIds
      ensures Valid()
      ensures 1 <= carrier <= NumDistrictsPerWarehouse
      ensures ts == old(clock.now) as int && clock.now as int == (ts + 1) % TimeModulus
      ensures raisedAt.Some? ==>
        && outcome == Aborted && InDistrictRange(raisedAt.value.d)
        && store.tables == old(store.tables) && store.abortBudget < old(store.abortBudget)
        && Delivery.CursorsAtRaise(old(store.tables), warehouseId, numWarehouses, old(lastNoOIds[..]), carrier, ts,
                                   raisedAt.value) == Some(lastNoOIds[..])
      ensures raisedAt.None? ==>
        var eff := Delivery.DeliveryEffect(old(store.tables), warehouseId, numWarehouses, old(lastNoOIds[..]),
                                           carrier, ts);
        && (outcome == Halted <==> eff.DeliveryHalt?)
        && (outcome == Committed ==> store.tables == eff.tables)
        && (outcome != Committed ==> store.tables == old(store.tables))
        && (outcome != Halted ==> lastNoOIds[..] == eff.cursors)
      ensures outcome == Committed ==> ntxnCommits == old(ntxnCommits) + 1 && ntxnAborts == old(ntxnAborts)
      ensures outcome == Aborted ==> ntxnAborts == old(ntxnAborts) + 1 && ntxnCommits == old(ntxnCommits)
    {
      var oCarrierId := RandomNumber(1, NumDistrictsPerWarehouse);
      var now := clock.Tick();
      carrier, ts, raisedAt := oCarrierId, now, None;
      var run := DeliverDistricts(oCarrierId, now);
      match run
      case RunRaised(at) =>
        ntxnAborts := ntxnAborts + 1;
        outcome, raisedAt := Aborted, Some(at);
      case RunHalt =>
        outcome := Halted;
      case RunDone(t) =>
        outcome := Finish(t);
    }

    // ---------------------------------------------------- OrderStatus

    /** OrderStatus, read-only: the tables never change, but the commit of
        the read-only transaction can still abort. */
    method TxnOrderStatus() returns (outcome: TxnOutcome, ghost req: OrderStatus.Request, status: OrderStatus.Status)
      requires Valid()
      modifies this, store
      ensures Valid()
      ensures OrderStatus.WellFormed(req, warehouseId, numWarehouses)
      ensures status == OrderStatus.OrderStatusOf(old(store.tables), warehouseId, numWarehouses, req)
      ensures outcome == Halted <==> status.StatusHalt?
      ensures store.tables == old(store.tables)
      ensures outcome == Committed ==> ntxnCommits == old(ntxnCommits) + 1 && ntxnAborts == old(ntxnAborts)
      ensures outcome == Aborted ==> ntxnAborts == old(ntxnAborts) + 1 && ntxnCommits == old(ntxnCommits)
    {
      var d := RandomNumber(1, NumDistrictsPerWarehouse);
      var t := store.tables;
      status, req := OrderStatusBody(t, warehouseId, numWarehouses, d);
      if status.StatusHalt? {
        return Halted, req, status;
      }
      outcome := Finish(t);
    }

    // ----------------------------------------------------- StockLevel

    /** StockLevel, read-only: the number of distinct recent items low on
        stock. */
    method TxnStockLevel() returns (outcome: TxnOutcome, ghost req: StockLevel.Request, lowStock: Option<int>)
      requires Valid()
      modifies this, store
      ensures Valid()
      ensures StockLevel.WellFormed(req, warehouseId, numWarehouses)
      ensures lowStock == StockLevel.StockLevelOf(old(store.tables), warehouseId, numWarehouses, req)
      ensures outcome == Halted <==> lowStock.None?
      ensures store.tables == old(store.tables)
      ensures outcome == Committed ==> ntxnCommits == old(ntxnCommits) + 1 && ntxnAborts == old(ntxnAborts)
      ensures outcome == Aborted ==> ntxnAborts == old(ntxnAborts) + 1 && ntxnCommits == old(ntxnCommits)
    {
      var threshold := RandomNumber(10, 20);
      var d := RandomNumber(1, NumDistrictsPerWarehouse);
      var r := StockLevel.Request(threshold, d);
      req := r;
      var t := store.tables;
      lowStock := StockLevelBody(t, warehouseId, numWarehouses, r);
      if lowStock.None? {
        return Halted, req, lowStock;
      }
      outcome := Finish(t);
    }
  }
}
