/** The NewOrder transaction profile (TPC-C clause 2.4) as a function of the
    database image and the drawn request, with its properties. */
module NewOrder {
  import opened Schema
  import opened Checker

  datatype LineRequest = LineRequest(item: int, supplyW: int, quantity: int)

  /** The draws of one NewOrder: district, customer and 5 to 15 lines. */
  datatype Request = Request(d: int, c: int, lines: seq<LineRequest>)

  /** What the worker's draws can produce for home warehouse `w`. */
  predicate WellFormed(req: Request, w: int, numWarehouses: int)
  {
    && InWarehouseRange(w, numWarehouses)
    && InDistrictRange(req.d) && InCustomerRange(req.c)
    && 5 <= |req.lines| <= 15
    && forall i :: 0 <= i < |req.lines| ==>
         && InItemRange(req.lines[i].item)
         && InWarehouseRange(req.lines[i].supplyW, numWarehouses)
         && 1 <= req.lines[i].quantity <= 10
  }

  /** o_all_local: no line is supplied by another warehouse. */
  predicate AllLocal(req: Request, w: int)
  {
    forall i :: 0 <= i < |req.lines| ==> req.lines[i].supplyW == w
  }

  // ------------------------------------------------------------ stock

  const UInt32Modulus: int := 0x1_0000_0000

  /** The replenishment test `s_quantity - ol_quantity >= 10`. The order
      quantity is unsigned, so C evaluates the difference as an unsigned
      32-bit number. */
  predicate EnoughStock(quantity: int, olQuantity: int)
  {
    (quantity - olQuantity) % UInt32Modulus >= 10
  }

  /** The stock row after one order line: the quantity goes down by the
      ordered amount, or up by 91 minus it when fewer than 10 would remain;
      ytd grows by the ordered amount; a remote line counts once. */
  function StockAfterOrder(s: Stock, olQuantity: int, remote: bool): (s': Stock)
    ensures 10 <= s.quantity <= 100 && 1 <= olQuantity <= 10 ==> 10 <= s'.quantity <= 100
    ensures s'.ytd == s.ytd + olQuantity
    ensures s'.remoteCnt == s.remoteCnt + 1 <==> remote
    ensures !remote ==> s'.remoteCnt == s.remoteCnt
    ensures s'.orderCnt == s.orderCnt && s'.data == s.data
    ensures s' == s.(quantity := s'.quantity, ytd := s'.ytd, remoteCnt := s'.remoteCnt)
  {
    var q := if EnoughStock(s.quantity, olQuantity) then s.quantity - olQuantity
             else s.quantity - olQuantity + 91;
    s.(quantity := q, ytd := s.ytd + olQuantity, remoteCnt := s.remoteCnt + if remote then 1 else 0)
  }

  /** Outside the band the unsigned comparison takes the subtracting branch
      for a shortfall: 3 units in stock and 5 ordered leave -2. */
  lemma ShortfallGoesNegative(s: Stock)
    requires s.quantity == 3
    ensures StockAfterOrder(s, 5, false).quantity == -2
  {
    assert (3 - 5) % UInt32Modulus == UInt32Modulus - 2;
  }

  /** The stock row's dist-info slot for district d. */
  function DistInfo(s: Stock, d: int): string
    requires InDistrictRange(d)
  {
    if d == 1 then s.dist01
    else if d == 2 then s.dist02
    else if d == 3 then s.dist03
    else if d == 4 then s.dist04
    else if d == 5 then s.dist05
    else if d == 6 then s.dist06
    else if d == 7 then s.dist07
    else if d == 8 then s.dist08
    else if d == 9 then s.dist09
    else s.dist10
  }

  /** Each district reads its own slot. */
  lemma DistInfoSlotsDistinct(s: Stock, d1: int, d2: int)
    requires InDistrictRange(d1) && InDistrictRange(d2) && d1 != d2
    requires s.dist01 == "1" && s.dist02 == "2" && s.dist03 == "3" && s.dist04 == "4" && s.dist05 == "5"
    requires s.dist06 == "6" && s.dist07 == "7" && s.dist08 == "8" && s.dist09 == "9" && s.dist10 == "10"
    ensures DistInfo(s, d1) != DistInfo(s, d2)
  {
  }

  /** Stock rows whose dist-info and data fields agree. */
  predicate SameStockText(a: Stock, b: Stock)
  {
    && a.data == b.data
    && a.dist01 == b.dist01 && a.dist02 == b.dist02 && a.dist03 == b.dist03
    && a.dist04 == b.dist04 && a.dist05 == b.dist05 && a.dist06 == b.dist06
    && a.dist07 == b.dist07 && a.dist08 == b.dist08 && a.dist09 == b.dist09
    && a.dist10 == b.dist10
  }

  // ------------------------------------------------------- the profile

  /** The rows NewOrder inserts before its lines, for order id `o`. */
  function Header(t: Tables, w: int, req: Request, o: int, ts: int): Tables
    requires DistrictKey(w, req.d) in t.district
  {
    var dk := DistrictKey(w, req.d);
    t.(newOrder := t.newOrder + {OrderKey(w, req.d, o)},
       district := t.district[dk := t.district[dk].(nextOId := o + 1)],
       oorder := t.oorder[OrderKey(w, req.d, o) := OOrder(req.c, 0, |req.lines|, AllLocal(req, w), ts)],
       oorderCIdIdx := t.oorderCIdIdx + {CIdIdxKey(w, req.d, req.c, o)})
  }

  /** The image after placing line i (index i, line number i + 1). */
  function PlaceOne(t: Tables, w: int, req: Request, o: int, i: int): Tables
    requires InDistrictRange(req.d) && 0 <= i < |req.lines|
    requires req.lines[i].item in t.item && StockKey(w, req.lines[i].item) in t.stock
  {
    var l := req.lines[i];
    var sk := StockKey(w, l.item);
    var s := t.stock[sk];
    var line := OrderLine(l.item, 0, l.quantity * t.item[l.item].price, l.supplyW, l.quantity, DistInfo(s, req.d));
    t.(stock := t.stock[sk := StockAfterOrder(s, l.quantity, l.supplyW != w)],
       orderLine := t.orderLine[OrderLineKey(w, req.d, o, i + 1) := line])
  }

  /** Lines i.. of the request, each reading the item and the home
      warehouse's stock row as the earlier lines left it. */
  function PlaceLines(t: Tables, w: int, numWarehouses: int, req: Request, o: int, i: int): Effect
    requires WellFormed(req, w, numWarehouses) && 0 <= i <= |req.lines|
    decreases |req.lines| - i
  {
    if i == |req.lines| then Done(t)
    else
      var l := req.lines[i];
      var sk := StockKey(w, l.item);
      if l.item !in t.item || !ItemOk(l.item, t.item[l.item]) then Halt
      else if sk !in t.stock || !StockOk(sk, numWarehouses) then Halt
      else PlaceLines(PlaceOne(t, w, req, o, i), w, numWarehouses, req, o, i + 1)
  }

  /** The customer, warehouse and district rows NewOrder reads before it
      writes anything or reads the clock are present and sane. */
  predicate HeaderRowsOk(t: Tables, w: int, numWarehouses: int, req: Request)
  {
    var ck := CustomerKey(w, req.d, req.c);
    var dk := DistrictKey(w, req.d);
    && ck in t.customer && CustomerOk(ck, t.customer[ck], numWarehouses)
    && w in t.warehouse && WarehouseOk(w, t.warehouse[w], numWarehouses)
    && dk in t.district && DistrictOk(dk, t.district[dk], numWarehouses)
  }

  /** The whole body of NewOrder for home warehouse w at time ts. */
  function NewOrderEffect(t: Tables, w: int, numWarehouses: int, req: Request, ts: int): Effect
    requires WellFormed(req, w, numWarehouses)
  {
    var ck := CustomerKey(w, req.d, req.c);
    var dk := DistrictKey(w, req.d);
    if ck !in t.customer || !CustomerOk(ck, t.customer[ck], numWarehouses) then Halt
    else if w !in t.warehouse || !WarehouseOk(w, t.warehouse[w], numWarehouses) then Halt
    else if dk !in t.district || !DistrictOk(dk, t.district[dk], numWarehouses) then Halt
    else
      var o := t.district[dk].nextOId;
      PlaceLines(Header(t, w, req, o, ts), w, numWarehouses, req, o, 0)
  }

  // -------------------------------------------------------- properties

  /** Line j's item row is present and sane and its home stock row is present. */
  predicate LineReadable(t: Tables, w: int, req: Request, j: int)
    requires 0 <= j < |req.lines|
  {
    req.lines[j].item in t.item && ItemOk(req.lines[j].item, t.item[req.lines[j].item])
    && StockKey(w, req.lines[j].item) in t.stock
  }

  /** Every row a NewOrder reads is present and sane. */
  predicate Serviceable(t: Tables, w: int, numWarehouses: int, req: Request)
    requires WellFormed(req, w, numWarehouses)
  {
    var ck := CustomerKey(w, req.d, req.c);
    var dk := DistrictKey(w, req.d);
    && ck in t.customer && CustomerOk(ck, t.customer[ck], numWarehouses)
    && w in t.warehouse && WarehouseOk(w, t.warehouse[w], numWarehouses)
    && dk in t.district && DistrictOk(dk, t.district[dk], numWarehouses)
    && forall i :: 0 <= i < |req.lines| ==> LineReadable(t, w, req, i)
  }

  lemma PlaceOneKeepsReadable(t: Tables, w: int, req: Request, o: int, i: int, j: int)
    requires InDistrictRange(req.d) && 0 <= i < |req.lines| && 0 <= j < |req.lines|
    requires LineReadable(t, w, req, i)
    ensures LineReadable(PlaceOne(t, w, req, o, i), w, req, j) == LineReadable(t, w, req, j)
  {
  }

  lemma {:induction false} PlaceLinesHalts(t: Tables, w: int, numWarehouses: int, req: Request, o: int, i: int)
    requires WellFormed(req, w, numWarehouses) && 0 <= i <= |req.lines|
    ensures PlaceLines(t, w, numWarehouses, req, o, i).Halt? <==>
      exists j :: i <= j < |req.lines| && !LineReadable(t, w, req, j)
    decreases |req.lines| - i
  {
    if i < |req.lines| && LineReadable(t, w, req, i) {
      var t' := PlaceOne(t, w, req, o, i);
      PlaceLinesHalts(t', w, numWarehouses, req, o, i + 1);
      forall j | i < j < |req.lines| ensures LineReadable(t', w, req, j) == LineReadable(t, w, req, j) {
        PlaceOneKeepsReadable(t, w, req, o, i, j);
      }
    }
  }

  /** NewOrder fails a fatal assertion exactly when a row it reads is
      missing or fails its sanity check. */
  lemma NewOrderHaltsIffUnserviceable(t: Tables, w: int, numWarehouses: int, req: Request, ts: int)
    requires WellFormed(req, w, numWarehouses)
    ensures NewOrderEffect(t, w, numWarehouses, req, ts).Halt? <==> !Serviceable(t, w, numWarehouses, req)
  {
    var dk := DistrictKey(w, req.d);
    if dk in t.district {
      var o := t.district[dk].nextOId;
      var h := Header(t, w, req, o, ts);
      assert h.item == t.item && h.stock == t.stock;
      assert forall j :: 0 <= j < |req.lines| ==> LineReadable(h, w, req, j) == LineReadable(t, w, req, j);
      PlaceLinesHalts(h, w, numWarehouses, req, o, 0);
    }
  }

  lemma PlaceLinesStep(t: Tables, w: int, numWarehouses: int, req: Request, o: int, i: int)
    requires WellFormed(req, w, numWarehouses) && 0 <= i < |req.lines|
    requires PlaceLines(t, w, numWarehouses, req, o, i).Done?
    ensures req.lines[i].item in t.item && StockKey(w, req.lines[i].item) in t.stock
    ensures PlaceLines(t, w, numWarehouses, req, o, i) == PlaceLines(PlaceOne(t, w, req, o, i), w, numWarehouses, req, o, i + 1)
  {
  }

  /** Stock keys, texts and order counts agree. */
  predicate StockTextKept(t: Tables, t': Tables)
  {
    && t'.stock.Keys == t.stock.Keys
    && forall sk :: sk in t.stock ==>
         SameStockText(t'.stock[sk], t.stock[sk]) && t'.stock[sk].orderCnt == t.stock[sk].orderCnt
  }

  /** Line numbers i+1..n of order (w, d, o). */
  predicate InBatch(k: OrderLineKey, w: int, d: int, o: int, i: int, n: int)
  {
    k.w == w && k.d == d && k.o == o && i < k.n <= n
  }

  /** Order lines outside the batch are untouched and no other key appears. */
  predicate OtherLinesKept(t: Tables, t': Tables, w: int, d: int, o: int, i: int, n: int)
  {
    && (forall k :: k in t.orderLine && !InBatch(k, w, d, o, i, n) ==>
          k in t'.orderLine && t'.orderLine[k] == t.orderLine[k])
    && (forall k :: k in t'.orderLine ==> k in t.orderLine || InBatch(k, w, d, o, i, n))
  }

  /** Line number n holds what the request asks for, priced and labelled
      from the item and stock rows of `t`. */
  predicate LinePlaced(t: Tables, t': Tables, w: int, req: Request, o: int, n: int)
    requires InDistrictRange(req.d) && 1 <= n <= |req.lines|
  {
    var l := req.lines[n - 1];
    && OrderLineKey(w, req.d, o, n) in t'.orderLine
    && l.item in t.item
    && StockKey(w, l.item) in t.stock
    && t'.orderLine[OrderLineKey(w, req.d, o, n)] ==
         OrderLine(l.item, 0, l.quantity * t.item[l.item].price, l.supplyW, l.quantity,
                   DistInfo(t.stock[StockKey(w, l.item)], req.d))
  }

  /** PlaceLines touches only stock and order_line, and keeps stock keys and texts. */
  lemma {:induction false} PlaceLinesFrame(t: Tables, w: int, numWarehouses: int, req: Request, o: int, i: int)
    requires WellFormed(req, w, numWarehouses) && 0 <= i <= |req.lines|
    requires PlaceLines(t, w, numWarehouses, req, o, i).Done?
    ensures var t' := PlaceLines(t, w, numWarehouses, req, o, i).tables;
      t' == t.(stock := t'.stock, orderLine := t'.orderLine) && StockTextKept(t, t')
    decreases |req.lines| - i
  {
    if i < |req.lines| {
      PlaceLinesStep(t, w, numWarehouses, req, o, i);
      var t1 := PlaceOne(t, w, req, o, i);
      PlaceLinesFrame(t1, w, numWarehouses, req, o, i + 1);
      PlaceOneFrame(t, w, req, o, i);
      StockTextKeptTrans(t, t1, PlaceLines(t1, w, numWarehouses, req, o, i + 1).tables);
    }
  }

  /** PlaceOne touches only stock and order_line, and keeps stock keys and texts. */
  lemma PlaceOneFrame(t: Tables, w: int, req: Request, o: int, i: int)
    requires InDistrictRange(req.d) && 0 <= i < |req.lines|
    requires req.lines[i].item in t.item && StockKey(w, req.lines[i].item) in t.stock
    ensures var t1 := PlaceOne(t, w, req, o, i);
      t1 == t.(stock := t1.stock, orderLine := t1.orderLine) && StockTextKept(t, t1)
  {
  }

  lemma StockTextKeptTrans(t0: Tables, t1: Tables, t2: Tables)
    requires StockTextKept(t0, t1) && StockTextKept(t1, t2)
    ensures StockTextKept(t0, t2)
  {
    forall sk | sk in t0.stock
      ensures SameStockText(t2.stock[sk], t0.stock[sk]) && t2.stock[sk].orderCnt == t0.stock[sk].orderCnt
    {
      assert SameStockText(t2.stock[sk], t1.stock[sk]);
    }
  }

  /** PlaceLines writes only the line numbers i+1.. of the order. */
  lemma {:induction false} PlaceLinesKeepsOtherLines(t: Tables, w: int, numWarehouses: int, req: Request, o: int, i: int)
    requires WellFormed(req, w, numWarehouses) && 0 <= i <= |req.lines|
    requires PlaceLines(t, w, numWarehouses, req, o, i).Done?
    ensures OtherLinesKept(t, PlaceLines(t, w, numWarehouses, req, o, i).tables, w, req.d, o, i, |req.lines|)
    decreases |req.lines| - i
  {
    if i < |req.lines| {
      PlaceLinesStep(t, w, numWarehouses, req, o, i);
      var t1 := PlaceOne(t, w, req, o, i);
      PlaceLinesKeepsOtherLines(t1, w, numWarehouses, req, o, i + 1);
    }
  }

  /** Line i + 1 is placed by PlaceOne and survives the later lines. */
  lemma PlaceOneLinePlaced(t: Tables, t': Tables, w: int, numWarehouses: int, req: Request, o: int, i: int)
    requires WellFormed(req, w, numWarehouses) && 0 <= i < |req.lines|
    requires req.lines[i].item in t.item && StockKey(w, req.lines[i].item) in t.stock
    requires OtherLinesKept(PlaceOne(t, w, req, o, i), t', w, req.d, o, i + 1, |req.lines|)
    ensures LinePlaced(t, t', w, req, o, i + 1)
  {
    assert !InBatch(OrderLineKey(w, req.d, o, i + 1), w, req.d, o, i + 1, |req.lines|);
  }

  /** A later line placed from PlaceOne's image is placed as from `t`: the
      item table and the stock texts are the same in both. */
  lemma PlaceOneKeepsPlaced(t: Tables, t': Tables, w: int, numWarehouses: int, req: Request, o: int, i: int, n: int)
    requires WellFormed(req, w, numWarehouses) && 0 <= i < |req.lines| && i + 1 < n <= |req.lines|
    requires req.lines[i].item in t.item && StockKey(w, req.lines[i].item) in t.stock
    requires LinePlaced(PlaceOne(t, w, req, o, i), t', w, req, o, n)
    ensures LinePlaced(t, t', w, req, o, n)
  {
    var sk := StockKey(w, req.lines[n - 1].item);
    assert SameStockText(PlaceOne(t, w, req, o, i).stock[sk], t.stock[sk]);
  }

  /** PlaceLines places every line i+1.. as requested. */
  lemma {:induction false} PlaceLinesPlaces(t: Tables, w: int, numWarehouses: int, req: Request, o: int, i: int)
    requires WellFormed(req, w, numWarehouses) && 0 <= i <= |req.lines|
    requires PlaceLines(t, w, numWarehouses, req, o, i).Done?
    ensures forall n :: i < n <= |req.lines| ==>
      LinePlaced(t, PlaceLines(t, w, numWarehouses, req, o, i).tables, w, req, o, n)
    decreases |req.lines| - i
  {
    if i < |req.lines| {
      PlaceLinesStep(t, w, numWarehouses, req, o, i);
      var t1 := PlaceOne(t, w, req, o, i);
      var t' := PlaceLines(t1, w, numWarehouses, req, o, i + 1).tables;
      PlaceLinesPlaces(t1, w, numWarehouses, req, o, i + 1);
      PlaceLinesKeepsOtherLines(t1, w, numWarehouses, req, o, i + 1);
      PlaceOneLinePlaced(t, t', w, numWarehouses, req, o, i);
      forall n | i + 1 < n <= |req.lines|
        ensures LinePlaced(t, t', w, req, o, n)
      {
        PlaceOneKeepsPlaced(t, t', w, numWarehouses, req, o, i, n);
      }
    }
  }

  /** NewOrder's committed effects: the district counter goes up by exactly
      one; new_order, oorder (carrier 0, o_ol_cnt the number of lines) and
      oorder_c_id_idx rows appear at the old counter value; one order_line
      per line number 1..n carries the requested item, supplier and
      quantity, amount quantity * price, no delivery date, and the stock
      row's dist-info slot of the district; warehouse, customer, item,
      history and customer_name_idx are untouched. */
  lemma NewOrderCommitEffects(t: Tables, w: int, numWarehouses: int, req: Request, ts: int)
    requires WellFormed(req, w, numWarehouses)
    requires NewOrderEffect(t, w, numWarehouses, req, ts).Done?
    ensures var t' := NewOrderEffect(t, w, numWarehouses, req, ts).tables;
      var dk := DistrictKey(w, req.d);
      var ok := OrderKey(w, req.d, t.district[dk].nextOId);
      var o := ok.o;
      && dk in t.district
      && t'.district.Keys == t.district.Keys
      && t'.district[dk] == t.district[dk].(nextOId := o + 1)
      && (forall k :: k in t.district && k != dk ==> t'.district[k] == t.district[k])
      && t'.newOrder == t.newOrder + {ok}
      && t'.oorder == t.oorder[ok := OOrder(req.c, 0, |req.lines|, AllLocal(req, w), ts)]
      && t'.oorderCIdIdx == t.oorderCIdIdx + {CIdIdxKey(w, req.d, req.c, o)}
      && t'.warehouse == t.warehouse && t'.customer == t.customer && t'.item == t.item
      && t'.history == t.history && t'.customerNameIdx == t.customerNameIdx
      && OtherLinesKept(t, t', w, req.d, o, 0, |req.lines|)
      && forall n :: 1 <= n <= |req.lines| ==> LinePlaced(t, t', w, req, o, n)
  {
    NewOrderHeaderRows(t, w, numWarehouses, req, ts);
    NewOrderLines(t, w, numWarehouses, req, ts);
  }

  /** The header part of NewOrderCommitEffects: the district counter and
      the order rows, with every other table but stock and order_line kept. */
  lemma NewOrderHeaderRows(t: Tables, w: int, numWarehouses: int, req: Request, ts: int)
    requires WellFormed(req, w, numWarehouses)
    requires NewOrderEffect(t, w, numWarehouses, req, ts).Done?
    ensures var t' := NewOrderEffect(t, w, numWarehouses, req, ts).tables;
      var dk := DistrictKey(w, req.d);
      var ok := OrderKey(w, req.d, t.district[dk].nextOId);
      && dk in t.district
      && t'.district == t.district[dk := t.district[dk].(nextOId := ok.o + 1)]
      && t'.newOrder == t.newOrder + {ok}
      && t'.oorder == t.oorder[ok := OOrder(req.c, 0, |req.lines|, AllLocal(req, w), ts)]
      && t'.oorderCIdIdx == t.oorderCIdIdx + {CIdIdxKey(w, req.d, req.c, ok.o)}
      && t'.warehouse == t.warehouse && t'.customer == t.customer && t'.item == t.item
      && t'.history == t.history && t'.customerNameIdx == t.customerNameIdx
  {
    var dk := DistrictKey(w, req.d);
    var o := t.district[dk].nextOId;
    PlaceLinesFrame(Header(t, w, req, o, ts), w, numWarehouses, req, o, 0);
  }

  /** The line part of NewOrderCommitEffects: lines 1..n of the new order
      are placed and no other order line changes. */
  lemma NewOrderLines(t: Tables, w: int, numWarehouses: int, req: Request, ts: int)
    requires WellFormed(req, w, numWarehouses)
    requires NewOrderEffect(t, w, numWarehouses, req, ts).Done?
    ensures var t' := NewOrderEffect(t, w, numWarehouses, req, ts).tables;
      var o := t.district[DistrictKey(w, req.d)].nextOId;
      && OtherLinesKept(t, t', w, req.d, o, 0, |req.lines|)
      && forall n :: 1 <= n <= |req.lines| ==> LinePlaced(t, t', w, req, o, n)
  {
    var dk := DistrictKey(w, req.d);
    var o := t.district[dk].nextOId;
    var h := Header(t, w, req, o, ts);
    PlaceLinesKeepsOtherLines(h, w, numWarehouses, req, o, 0);
    PlaceLinesPlaces(h, w, numWarehouses, req, o, 0);
    var t' := NewOrderEffect(t, w, numWarehouses, req, ts).tables;
    forall n | 1 <= n <= |req.lines| ensures LinePlaced(t, t', w, req, o, n) {
      assert LinePlaced(h, t', w, req, o, n);
    }
  }

  /** All stock quantities lie in [10, 100]. */
  predicate StockBand(t: Tables)
  {
    forall sk :: sk in t.stock ==> 10 <= t.stock[sk].quantity <= 100
  }

  lemma {:induction false} PlaceLinesKeepsBand(t: Tables, w: int, numWarehouses: int, req: Request, o: int, i: int)
    requires WellFormed(req, w, numWarehouses) && 0 <= i <= |req.lines|
    requires StockBand(t) && PlaceLines(t, w, numWarehouses, req, o, i).Done?
    ensures StockBand(PlaceLines(t, w, numWarehouses, req, o, i).tables)
    decreases |req.lines| - i
  {
    if i < |req.lines| {
      PlaceLinesStep(t, w, numWarehouses, req, o, i);
      PlaceLinesKeepsBand(PlaceOne(t, w, req, o, i), w, numWarehouses, req, o, i + 1);
    }
  }

  /** The replenishment rule keeps every stock quantity in [10, 100], and
      s_order_cnt is never touched. */
  lemma NewOrderKeepsStock(t: Tables, w: int, numWarehouses: int, req: Request, ts: int)
    requires WellFormed(req, w, numWarehouses)
    requires NewOrderEffect(t, w, numWarehouses, req, ts).Done?
    ensures var t' := NewOrderEffect(t, w, numWarehouses, req, ts).tables;
      && (StockBand(t) ==> StockBand(t'))
      && t'.stock.Keys == t.stock.Keys
      && forall sk :: sk in t.stock ==> t'.stock[sk].orderCnt == t.stock[sk].orderCnt
  {
    var dk := DistrictKey(w, req.d);
    var o := t.district[dk].nextOId;
    var h := Header(t, w, req, o, ts);
    PlaceLinesFrame(h, w, numWarehouses, req, o, 0);
    if StockBand(t) {
      PlaceLinesKeepsBand(h, w, numWarehouses, req, o, 0);
    }
  }

  /** Home stock row `s` of `item` after lines i.. of the request: every
      line that names the item applies StockAfterOrder in turn, the others
      leave it alone. */
  function StockAfterLines(s: Stock, w: int, req: Request, item: int, i: int): Stock
    requires 0 <= i <= |req.lines|
    decreases |req.lines| - i
  {
    if i == |req.lines| then s
    else
      var l := req.lines[i];
      var s1 := if l.item == item then StockAfterOrder(s, l.quantity, l.supplyW != w) else s;
      StockAfterLines(s1, w, req, item, i + 1)
  }

  /** The quantities lines i.. order of `item`. */
  function OrderedOf(req: Request, item: int, i: int): int
    requires 0 <= i <= |req.lines|
    decreases |req.lines| - i
  {
    if i == |req.lines| then 0
    else (if req.lines[i].item == item then req.lines[i].quantity else 0) + OrderedOf(req, item, i + 1)
  }

  /** How many of lines i.. order `item` from a warehouse other than w. */
  function RemoteLinesOf(req: Request, w: int, item: int, i: int): int
    requires 0 <= i <= |req.lines|
    decreases |req.lines| - i
  {
    if i == |req.lines| then 0
    else (if req.lines[i].item == item && req.lines[i].supplyW != w then 1 else 0) + RemoteLinesOf(req, w, item, i + 1)
  }

  /** s_ytd grows by the quantities ordered of the item, s_remote_cnt by its
      remote lines; order count and texts stay; a row whose item no line
      names is left as it was. */
  lemma {:induction false} StockAfterLinesTotals(s: Stock, w: int, req: Request, item: int, i: int)
    requires 0 <= i <= |req.lines|
    ensures var s' := StockAfterLines(s, w, req, item, i);
      && s'.ytd == s.ytd + OrderedOf(req, item, i)
      && s'.remoteCnt == s.remoteCnt + RemoteLinesOf(req, w, item, i)
      && s'.orderCnt == s.orderCnt && SameStockText(s', s)
      && ((forall j :: i <= j < |req.lines| ==> req.lines[j].item != item) ==> s' == s)
    decreases |req.lines| - i
  {
    if i < |req.lines| {
      var l := req.lines[i];
      var s1 := if l.item == item then StockAfterOrder(s, l.quantity, l.supplyW != w) else s;
      StockAfterLinesTotals(s1, w, req, item, i + 1);
    }
  }

  /** Each stock row after lines i..: the home warehouse's rows follow
      StockAfterLines, the other warehouses' rows are untouched. */
  lemma {:induction false} PlaceLinesStockRow(t: Tables, w: int, numWarehouses: int, req: Request, o: int, i: int,
                                              sk: StockKey)
    requires WellFormed(req, w, numWarehouses) && 0 <= i <= |req.lines|
    requires PlaceLines(t, w, numWarehouses, req, o, i).Done? && sk in t.stock
    ensures var t' := PlaceLines(t, w, numWarehouses, req, o, i).tables;
      && sk in t'.stock
      && t'.stock[sk] == if sk.w == w then StockAfterLines(t.stock[sk], w, req, sk.i, i) else t.stock[sk]
    decreases |req.lines| - i
  {
    if i < |req.lines| {
      PlaceLinesStep(t, w, numWarehouses, req, o, i);
      var t1 := PlaceOne(t, w, req, o, i);
      PlaceLinesStockRow(t1, w, numWarehouses, req, o, i + 1, sk);
      var l := req.lines[i];
      assert t1.stock[sk] == if sk == StockKey(w, l.item) then StockAfterOrder(t.stock[sk], l.quantity, l.supplyW != w)
                             else t.stock[sk];
    }
  }

  /** NewOrder's stock writes: every row of the home warehouse becomes
      StockAfterLines of its item over all the lines, so its ytd grows by
      the quantity ordered of the item and its remote count by the item's
      remote lines, and a row no line names is unchanged; other warehouses'
      rows are unchanged. */
  lemma NewOrderStockRows(t: Tables, w: int, numWarehouses: int, req: Request, ts: int)
    requires WellFormed(req, w, numWarehouses)
    requires NewOrderEffect(t, w, numWarehouses, req, ts).Done?
    ensures var t' := NewOrderEffect(t, w, numWarehouses, req, ts).tables;
      forall sk :: sk in t.stock ==>
        && sk in t'.stock
        && (sk.w != w ==> t'.stock[sk] == t.stock[sk])
        && (sk.w == w ==>
              && t'.stock[sk] == StockAfterLines(t.stock[sk], w, req, sk.i, 0)
              && t'.stock[sk].ytd == t.stock[sk].ytd + OrderedOf(req, sk.i, 0)
              && t'.stock[sk].remoteCnt == t.stock[sk].remoteCnt + RemoteLinesOf(req, w, sk.i, 0))
        && ((forall j :: 0 <= j < |req.lines| ==> StockKey(w, req.lines[j].item) != sk) ==> t'.stock[sk] == t.stock[sk])
  {
    var dk := DistrictKey(w, req.d);
    var o := t.district[dk].nextOId;
    var h := Header(t, w, req, o, ts);
    forall sk | sk in t.stock
      ensures var t' := NewOrderEffect(t, w, numWarehouses, req, ts).tables;
        && sk in t'.stock
        && (sk.w != w ==> t'.stock[sk] == t.stock[sk])
        && (sk.w == w ==>
              && t'.stock[sk] == StockAfterLines(t.stock[sk], w, req, sk.i, 0)
              && t'.stock[sk].ytd == t.stock[sk].ytd + OrderedOf(req, sk.i, 0)
              && t'.stock[sk].remoteCnt == t.stock[sk].remoteCnt + RemoteLinesOf(req, w, sk.i, 0))
        && ((forall j :: 0 <= j < |req.lines| ==> StockKey(w, req.lines[j].item) != sk) ==> t'.stock[sk] == t.stock[sk])
    {
      PlaceLinesStockRow(h, w, numWarehouses, req, o, 0, sk);
      StockAfterLinesTotals(t.stock[sk], w, req, sk.i, 0);
    }
  }

  /** The header rows keep every table sane. */
  lemma HeaderSane(t: Tables, w: int, numWarehouses: int, req: Request, ts: int)
    requires WellFormed(req, w, numWarehouses) && TablesSane(t, numWarehouses)
    requires DistrictKey(w, req.d) in t.district
    requires DistrictOk(DistrictKey(w, req.d), t.district[DistrictKey(w, req.d)], numWarehouses)
    ensures TablesSane(Header(t, w, req, t.district[DistrictKey(w, req.d)].nextOId, ts), numWarehouses)
  {
  }

  /** Placing one line keeps every table sane. */
  lemma PlaceOneSane(t: Tables, w: int, numWarehouses: int, req: Request, o: int, i: int)
    requires WellFormed(req, w, numWarehouses) && 0 <= i < |req.lines| && TablesSane(t, numWarehouses)
    requires req.lines[i].item in t.item && StockKey(w, req.lines[i].item) in t.stock
    ensures TablesSane(PlaceOne(t, w, req, o, i), numWarehouses)
  {
  }

  lemma {:induction false} PlaceLinesSane(t: Tables, w: int, numWarehouses: int, req: Request, o: int, i: int)
    requires WellFormed(req, w, numWarehouses) && 0 <= i <= |req.lines| && TablesSane(t, numWarehouses)
    requires PlaceLines(t, w, numWarehouses, req, o, i).Done?
    ensures TablesSane(PlaceLines(t, w, numWarehouses, req, o, i).tables, numWarehouses)
    decreases |req.lines| - i
  {
    if i < |req.lines| {
      PlaceLinesStep(t, w, numWarehouses, req, o, i);
      PlaceOneSane(t, w, numWarehouses, req, o, i);
      PlaceLinesSane(PlaceOne(t, w, req, o, i), w, numWarehouses, req, o, i + 1);
    }
  }

  /** A committed NewOrder leaves every sanity check passing. */
  lemma NewOrderPreservesSanity(t: Tables, w: int, numWarehouses: int, req: Request, ts: int)
    requires WellFormed(req, w, numWarehouses) && TablesSane(t, numWarehouses)
    requires NewOrderEffect(t, w, numWarehouses, req, ts).Done?
    ensures TablesSane(NewOrderEffect(t, w, numWarehouses, req, ts).tables, numWarehouses)
  {
    var dk := DistrictKey(w, req.d);
    HeaderSane(t, w, numWarehouses, req, ts);
    PlaceLinesSane(Header(t, w, req, t.district[dk].nextOId, ts), w, numWarehouses, req, t.district[dk].nextOId, 0);
  }
}
