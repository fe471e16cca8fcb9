/** The OrderStatus transaction profile (TPC-C clause 2.6), read-only: the
    customer's most recent order and the number of its lines.

    The scan of oorder_c_id_idx from (w, d, c, 0) to (w, d, c, 2^31 - 1)
    visits that customer's order ids in [0, 2^31 - 1) in ascending order and
    keeps the last one; the order-line scan counts the lines numbered in
    [0, 2^31 - 1), checking each. */
module OrderStatus {
  import opened Schema
  import opened Checker
  import opened OrderedScan
  import opened Generators
  import opened CustomerLookup

  datatype Request = Request(d: int, customer: CustomerRef)

  predicate WellFormed(req: Request, w: int, numWarehouses: int)
  {
    && InWarehouseRange(w, numWarehouses) && InDistrictRange(req.d)
    && match req.customer
       case ByLast(last) => exists num :: 0 <= num <= 999 && last == CustomerLastName(num)
       case ByNumber(c) => InCustomerRange(c)
  }

  /** The order ids indexed for customer (w, d, c). */
  function OrderIdsOf(t: Tables, w: int, d: int, c: int): set<int>
  {
    set k | k in t.oorderCIdIdx && k.w == w && k.d == d && k.c == c && 0 <= k.o < Int32Max :: k.o
  }

  /** The last key the ascending index scan visits, if any. */
  ghost function LatestOrder(t: Tables, w: int, d: int, c: int): (r: Option<int>)
    ensures r.None? <==> OrderIdsOf(t, w, d, c) == {}
    ensures r.Some? ==> r.value in OrderIdsOf(t, w, d, c)
  {
    IntLessIsStrictTotal();
    var ids := Enumerate(OrderIdsOf(t, w, d, c), IntLess);
    if ids == [] then None else Some(ids[|ids| - 1])
  }

  /** Every line the counting scan visits passes its sanity check. */
  predicate LinesSane(ol: map<OrderLineKey, OrderLine>, w: int, d: int, o: int, numWarehouses: int)
  {
    forall k :: k in ol && k.w == w && k.d == d && k.o == o && 0 <= k.n < Int32Max ==> OrderLineOk(k, ol[k], numWarehouses)
  }

  datatype Status = StatusHalt | Status(customer: CustomerKey, o: int, lineCount: int)

  /** The whole body of OrderStatus. */
  ghost function OrderStatusOf(t: Tables, w: int, numWarehouses: int, req: Request): Status
  {
    var pick := Pick(t, w, req.d, req.customer);
    if pick.NotFound? || !CustomerOk(pick.key, pick.customer, numWarehouses) then StatusHalt
    else
      match LatestOrder(t, w, req.d, pick.key.c)
      case None => StatusHalt
      case Some(o) =>
        if !LinesSane(t.orderLine, w, req.d, o, numWarehouses) then StatusHalt
        else
          var n := |LineNumbers(t.orderLine, w, req.d, o)|;
          if !(5 <= n <= 15) then StatusHalt else Status(pick.key, o, n)
  }

  // -------------------------------------------------------- properties

  /** The latest-key scan picks the largest indexed order id of the customer. */
  lemma LatestOrderIsMaximum(t: Tables, w: int, d: int, c: int)
    requires LatestOrder(t, w, d, c).Some?
    ensures var o := LatestOrder(t, w, d, c).value;
      && CIdIdxKey(w, d, c, o) in t.oorderCIdIdx && 0 <= o < Int32Max
      && forall k :: k in t.oorderCIdIdx && k.w == w && k.d == d && k.c == c && 0 <= k.o < Int32Max ==> k.o <= o
  {
    IntLessIsStrictTotal();
    var ids := Enumerate(OrderIdsOf(t, w, d, c), IntLess);
    forall k | k in t.oorderCIdIdx && k.w == w && k.d == d && k.c == c && 0 <= k.o < Int32Max
      ensures k.o <= ids[|ids| - 1]
    {
      assert k.o in OrderIdsOf(t, w, d, c);
      var i :| 0 <= i < |ids| && ids[i] == k.o;
      if i < |ids| - 1 {
        assert IntLess(ids[i], ids[|ids| - 1]);
      }
    }
  }

  /** A status that does not halt names a sane customer of the requested
      district, that customer's latest order, and a line count in [5, 15]
      over lines that all pass their sanity check. */
  lemma OrderStatusReports(t: Tables, w: int, numWarehouses: int, req: Request)
    requires OrderStatusOf(t, w, numWarehouses, req).Status?
    ensures var s := OrderStatusOf(t, w, numWarehouses, req);
      && s.customer == Pick(t, w, req.d, req.customer).key
      && s.customer.w == w && s.customer.d == req.d && s.customer in t.customer
      && CustomerOk(s.customer, t.customer[s.customer], numWarehouses)
      && CIdIdxKey(w, req.d, s.customer.c, s.o) in t.oorderCIdIdx
      && (forall k :: k in t.oorderCIdIdx && k.w == w && k.d == req.d && k.c == s.customer.c && 0 <= k.o < Int32Max ==>
            k.o <= s.o)
      && 5 <= s.lineCount <= 15
      && s.lineCount == |LineNumbers(t.orderLine, w, req.d, s.o)|
      && LinesSane(t.orderLine, w, req.d, s.o, numWarehouses)
  {
    var pick := Pick(t, w, req.d, req.customer);
    LatestOrderIsMaximum(t, w, req.d, pick.key.c);
  }
}
