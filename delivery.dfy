/** The Delivery transaction profile (TPC-C clause 2.7): for each district
    of the home warehouse, the oldest undelivered order at or after the
    worker's cursor is delivered with the drawn carrier.

    The worker keeps one cursor per district. Within district (w, d) the
    new_order keys share their first two fields, so the range scan from
    (w, d, cursor) to (w, d, 2^31 - 1) visits the order ids in
    [cursor, 2^31 - 1) in ascending order; likewise the order-line scan of
    order o visits the line numbers in [0, 2^31 - 1). */
module Delivery {
  import opened Schema
  import opened Checker
  import opened OrderedScan

  /** The order lines a single Delivery scan keeps. */
  const MaxLinesPerOrder: int := 15

  /** Cursor slots: one per district number 1..10, plus the unused slot 0. */
  const NumCursorSlots: int := NumDistrictsPerWarehouse + 1

  // ------------------------------------------------------------- scans

  /** The undelivered order ids of district (w, d) the scan from `cursor` covers. */
  function PendingIds(t: Tables, w: int, d: int, cursor: int): set<int>
  {
    set k | k in t.newOrder && k.w == w && k.d == d && cursor <= k.o < Int32Max :: k.o
  }

  /** The first order id the first-match visitor sees, if any. */
  ghost function OldestPending(t: Tables, w: int, d: int, cursor: int): (r: Option<int>)
    ensures r.None? <==> PendingIds(t, w, d, cursor) == {}
    ensures r.Some? ==> r.value in PendingIds(t, w, d, cursor)
  {
    IntLessIsStrictTotal();
    var ids := Enumerate(PendingIds(t, w, d, cursor), IntLess);
    if ids == [] then None else Some(ids[0])
  }

  /** The oldest pending order is at or past the cursor. */
  lemma OldestPendingFrom(t: Tables, w: int, d: int, cursor: int)
    requires OldestPending(t, w, d, cursor).Some?
    ensures cursor <= OldestPending(t, w, d, cursor).value < Int32Max
  {
    var o := OldestPending(t, w, d, cursor).value;
    assert o in PendingIds(t, w, d, cursor);
    var k :| k in t.newOrder && k.w == w && k.d == d && cursor <= k.o < Int32Max && k.o == o;
  }

  /** The line numbers the 15-entry scan keeps: the smallest ones, ascending. */
  ghost function DeliveredLines(ol: map<OrderLineKey, OrderLine>, w: int, d: int, o: int): (r: seq<int>)
    ensures Ascending(r, IntLess)
    ensures |r| == if |LineNumbers(ol, w, d, o)| <= MaxLinesPerOrder then |LineNumbers(ol, w, d, o)| else MaxLinesPerOrder
    ensures forall i :: 0 <= i < |r| ==> r[i] in LineNumbers(ol, w, d, o)
  {
    IntLessIsStrictTotal();
    var all := Enumerate(LineNumbers(ol, w, d, o), IntLess);
    if |all| <= MaxLinesPerOrder then all else all[..MaxLinesPerOrder]
  }

  // ------------------------------------------------------ line stamping

  datatype Stamped = Stamped(lines: map<OrderLineKey, OrderLine>, sum: int)

  /** Sanity-checks and stamps lines ns of order (w, d, o) with delivery
      date ts, in order, summing their amounts. None when a line fails its
      sanity check. */
  function StampLines(ol: map<OrderLineKey, OrderLine>, w: int, d: int, o: int, ns: seq<int>, ts: int,
                      numWarehouses: int): Option<Stamped>
    requires forall i :: 0 <= i < |ns| ==> OrderLineKey(w, d, o, ns[i]) in ol
    decreases |ns|
  {
    if ns == [] then Some(Stamped(ol, 0))
    else
      var k := OrderLineKey(w, d, o, ns[0]);
      var v := ol[k];
      if !OrderLineOk(k, v, numWarehouses) then None
      else
        match StampLines(ol[k := v.(deliveryD := ts)], w, d, o, ns[1..], ts, numWarehouses)
        case None => None
        case Some(r) => Some(Stamped(r.lines, r.sum + v.amount))
  }

  /** The sum of the amounts of lines ns of order (w, d, o). */
  function AmountSum(ol: map<OrderLineKey, OrderLine>, w: int, d: int, o: int, ns: seq<int>): int
    requires forall i :: 0 <= i < |ns| ==> OrderLineKey(w, d, o, ns[i]) in ol
  {
    if ns == [] then 0 else ol[OrderLineKey(w, d, o, ns[0])].amount + AmountSum(ol, w, d, o, ns[1..])
  }

  /** Every line ns of order (w, d, o) passes its sanity check. */
  predicate LinesOk(ol: map<OrderLineKey, OrderLine>, w: int, d: int, o: int, ns: seq<int>, numWarehouses: int)
    requires forall i :: 0 <= i < |ns| ==> OrderLineKey(w, d, o, ns[i]) in ol
  {
    forall i :: 0 <= i < |ns| ==> OrderLineOk(OrderLineKey(w, d, o, ns[i]), ol[OrderLineKey(w, d, o, ns[i])], numWarehouses)
  }

  predicate Distinct(ns: seq<int>)
  {
    forall i, j :: 0 <= i < j < |ns| ==> ns[i] != ns[j]
  }

  /** Stamping distinct lines halts exactly when one of them fails its sanity
      check; otherwise it stamps exactly those lines with ts, leaves every
      other line and every key alone, and sums their original amounts. */
  lemma {:induction false} StampLinesFacts(ol: map<OrderLineKey, OrderLine>, w: int, d: int, o: int, ns: seq<int>,
                                           ts: int, numWarehouses: int)
    requires forall i :: 0 <= i < |ns| ==> OrderLineKey(w, d, o, ns[i]) in ol
    requires Distinct(ns)
    ensures var r := StampLines(ol, w, d, o, ns, ts, numWarehouses);
      && (r.None? <==> !LinesOk(ol, w, d, o, ns, numWarehouses))
      && (r.Some? ==>
            && r.value.lines.Keys == ol.Keys
            && r.value.sum == AmountSum(ol, w, d, o, ns)
            && (forall k :: k in ol && !(k.w == w && k.d == d && k.o == o && k.n in ns) ==> r.value.lines[k] == ol[k])
            && (forall i :: 0 <= i < |ns| ==>
                  r.value.lines[OrderLineKey(w, d, o, ns[i])] == ol[OrderLineKey(w, d, o, ns[i])].(deliveryD := ts)))
    decreases |ns|
  {
    if ns != [] {
      var k := OrderLineKey(w, d, o, ns[0]);
      var v := ol[k];
      var ol1 := ol[k := v.(deliveryD := ts)];
      var rest := ns[1..];
      assert forall i :: 0 <= i < |rest| ==> rest[i] != ns[0] by {
        forall i | 0 <= i < |rest| ensures rest[i] != ns[0] { assert rest[i] == ns[i + 1]; }
      }
      StampLinesFacts(ol1, w, d, o, rest, ts, numWarehouses);
      assert forall i :: 0 <= i < |rest| ==> ol1[OrderLineKey(w, d, o, rest[i])] == ol[OrderLineKey(w, d, o, rest[i])];
      AmountSumFrame(ol1, ol, w, d, o, rest);
      if OrderLineOk(k, v, numWarehouses) {
        var r := StampLines(ol1, w, d, o, rest, ts, numWarehouses);
        if r.Some? {
          forall i | 0 <= i < |ns|
            ensures r.value.lines[OrderLineKey(w, d, o, ns[i])] == ol[OrderLineKey(w, d, o, ns[i])].(deliveryD := ts)
          {
            if i > 0 { assert ns[i] == rest[i - 1]; }
          }
          forall k' | k' in ol && !(k'.w == w && k'.d == d && k'.o == o && k'.n in ns)
            ensures r.value.lines[k'] == ol[k']
          {
            assert k' != k;
          }
        } else {
          var i :| 0 <= i < |rest| &&
            !OrderLineOk(OrderLineKey(w, d, o, rest[i]), ol1[OrderLineKey(w, d, o, rest[i])], numWarehouses);
          assert ns[i + 1] == rest[i];
        }
      } else {
        assert !OrderLineOk(OrderLineKey(w, d, o, ns[0]), ol[OrderLineKey(w, d, o, ns[0])], numWarehouses);
      }
      if StampLines(ol, w, d, o, ns, ts, numWarehouses).Some? {
        forall i | 0 <= i < |ns|
          ensures OrderLineOk(OrderLineKey(w, d, o, ns[i]), ol[OrderLineKey(w, d, o, ns[i])], numWarehouses)
        {
          if i > 0 { assert ns[i] == rest[i - 1]; }
        }
      }
    }
  }

  /** AmountSum reads only the lines it sums. */
  lemma {:induction false} AmountSumFrame(a: map<OrderLineKey, OrderLine>, b: map<OrderLineKey, OrderLine>,
                                          w: int, d: int, o: int, ns: seq<int>)
    requires forall i :: 0 <= i < |ns| ==> OrderLineKey(w, d, o, ns[i]) in a && OrderLineKey(w, d, o, ns[i]) in b
    requires forall i :: 0 <= i < |ns| ==> a[OrderLineKey(w, d, o, ns[i])].amount == b[OrderLineKey(w, d, o, ns[i])].amount
    ensures AmountSum(a, w, d, o, ns) == AmountSum(b, w, d, o, ns)
    decreases |ns|
  {
    if ns != [] {
      AmountSumFrame(a, b, w, d, o, ns[1..]);
    }
  }

  // ------------------------------------------------------- the profile

  datatype DistrictOutcome = DistrictHalt | DistrictDone(tables: Tables, cursor: int)

  /** Delivering order o of district d with the given carrier at time ts. */
  ghost function DeliverOrder(t: Tables, w: int, numWarehouses: int, d: int, o: int, carrier: int,
                              ts: int): Option<Tables>
  {
    var ok := OrderKey(w, d, o);
    if ok !in t.oorder || !OOrderOk(ok, t.oorder[ok], numWarehouses) then None
    else
      var ns := DeliveredLines(t.orderLine, w, d, o);
      match StampLines(t.orderLine, w, d, o, ns, ts, numWarehouses)
      case None => None
      case Some(st) =>
        var ck := CustomerKey(w, d, t.oorder[ok].cId);
        if ck !in t.customer then None else Some(Delivered(t, ok, ck, st, carrier))
  }

  /** The writes of one delivery: the stamped lines, the new_order row
      removed, the carrier set and the customer credited with the sum. */
  function Delivered(t: Tables, ok: OrderKey, ck: CustomerKey, st: Stamped, carrier: int): Tables
    requires ok in t.oorder && ck in t.customer
  {
    t.(orderLine := st.lines,
       newOrder := t.newOrder - {ok},
       oorder := t.oorder[ok := t.oorder[ok].(carrierId := carrier)],
       customer := t.customer[ck := t.customer[ck].(balance := t.customer[ck].balance + st.sum)])
  }

  /** Delivery's work on district d, from the given cursor: the oldest
      pending order is delivered and the cursor moves past it. */
  ghost function DeliverDistrict(t: Tables, w: int, numWarehouses: int, d: int, cursor: int, carrier: int,
                                 ts: int): DistrictOutcome
  {
    match OldestPending(t, w, d, cursor)
    case None => DistrictDone(t, cursor)
    case Some(o) =>
      match DeliverOrder(t, w, numWarehouses, d, o, carrier, ts)
      case None => DistrictHalt
      case Some(t') => DistrictDone(t', o + 1)
  }

  datatype DeliveryOutcome = DeliveryHalt | DeliveryDone(tables: Tables, cursors: seq<int>)

  /** Districts d..10 in turn, each starting from its cursor. */
  ghost function DeliverFrom(t: Tables, w: int, numWarehouses: int, cursors: seq<int>, carrier: int, ts: int,
                             d: int): DeliveryOutcome
    requires |cursors| == NumCursorSlots && 1 <= d <= NumCursorSlots
    decreases NumCursorSlots - d
  {
    if d == NumCursorSlots then DeliveryDone(t, cursors)
    else
      match DeliverDistrict(t, w, numWarehouses, d, cursors[d], carrier, ts)
      case DistrictHalt => DeliveryHalt
      case DistrictDone(t1, c1) => DeliverFrom(t1, w, numWarehouses, cursors[d := c1], carrier, ts, d + 1)
  }

  /** The whole body of Delivery: all ten districts. */
  ghost function DeliveryEffect(t: Tables, w: int, numWarehouses: int, cursors: seq<int>, carrier: int,
                                ts: int): DeliveryOutcome
    requires |cursors| == NumCursorSlots
  {
    DeliverFrom(t, w, numWarehouses, cursors, carrier, ts, 1)
  }

  /** Where an abort exception interrupts Delivery: in district d, either
      at the new_order scan (before the cursor write) or at one of the later
      reads and writes of that district (after it). */
  datatype RaisePoint = RaisePoint(d: int, afterCursor: bool)

  /** The tables and cursors once districts 1..stop-1 are handled; None
      when one of them halts. */
  datatype Progress = Progress(tables: Tables, cursors: seq<int>)

  ghost function DeliverUpTo(t: Tables, w: int, numWarehouses: int, cursors: seq<int>, carrier: int, ts: int,
                             stop: int): (r: Option<Progress>)
    requires |cursors| == NumCursorSlots && 1 <= stop <= NumCursorSlots
    ensures r.Some? ==> |r.value.cursors| == NumCursorSlots
    decreases stop
  {
    if stop == 1 then Some(Progress(t, cursors))
    else
      match DeliverUpTo(t, w, numWarehouses, cursors, carrier, ts, stop - 1)
      case None => None
      case Some(s) =>
        match DeliverDistrict(s.tables, w, numWarehouses, stop - 1, s.cursors[stop - 1], carrier, ts)
        case DistrictHalt => None
        case DistrictDone(t1, c1) => Some(Progress(t1, s.cursors[stop - 1 := c1]))
  }

  /** The cursors an abort exception at `p` leaves behind: districts before
      p.d are handled in full, district p.d's cursor has moved only when the
      exception comes after the cursor write, and the later cursors are as
      they were. None when `p` is never reached: an earlier district halts,
      or district p.d has nothing pending and so does nothing after its scan. */
  ghost function CursorsAtRaise(t: Tables, w: int, numWarehouses: int, cursors: seq<int>, carrier: int, ts: int,
                                p: RaisePoint): Option<seq<int>>
    requires |cursors| == NumCursorSlots && 1 <= p.d < NumCursorSlots
  {
    match DeliverUpTo(t, w, numWarehouses, cursors, carrier, ts, p.d)
    case None => None
    case Some(s) =>
      if !p.afterCursor then Some(s.cursors)
      else
        match OldestPending(s.tables, w, p.d, s.cursors[p.d])
        case None => None
        case Some(o) => Some(s.cursors[p.d := o + 1])
  }

  // -------------------------------------------------------- properties

  /** The first-match scan picks the smallest pending order id at or after
      the cursor. */
  lemma OldestPendingIsMinimum(t: Tables, w: int, d: int, cursor: int)
    requires OldestPending(t, w, d, cursor).Some?
    ensures var o := OldestPending(t, w, d, cursor).value;
      && OrderKey(w, d, o) in t.newOrder && cursor <= o < Int32Max
      && forall k :: k in t.newOrder && k.w == w && k.d == d && cursor <= k.o < Int32Max ==> o <= k.o
  {
    IntLessIsStrictTotal();
    var ids := Enumerate(PendingIds(t, w, d, cursor), IntLess);
    HeadFirst(ids, IntLess);
    forall k | k in t.newOrder && k.w == w && k.d == d && cursor <= k.o < Int32Max
      ensures ids[0] <= k.o
    {
      assert k.o in PendingIds(t, w, d, cursor);
    }
  }

  /** With nothing pending at or after the cursor the district is skipped:
      no table and no cursor changes. Otherwise the cursor moves past the
      delivered order, so it only grows. */
  lemma DeliverDistrictCursor(t: Tables, w: int, numWarehouses: int, d: int, cursor: int, carrier: int, ts: int)
    requires DeliverDistrict(t, w, numWarehouses, d, cursor, carrier, ts).DistrictDone?
    ensures var r := DeliverDistrict(t, w, numWarehouses, d, cursor, carrier, ts);
      && (PendingIds(t, w, d, cursor) == {} ==> r.tables == t && r.cursor == cursor)
      && (PendingIds(t, w, d, cursor) != {} ==> r.cursor == OldestPending(t, w, d, cursor).value + 1 > cursor)
      && r.cursor >= cursor
  {
  }

  /** The line numbers Delivery stamps are those of existing, distinct lines. */
  lemma DeliveredLinesExist(ol: map<OrderLineKey, OrderLine>, w: int, d: int, o: int)
    ensures var ns := DeliveredLines(ol, w, d, o);
      && (forall i :: 0 <= i < |ns| ==> OrderLineKey(w, d, o, ns[i]) in ol)
      && Distinct(ns)
  {
    var ns := DeliveredLines(ol, w, d, o);
    forall i | 0 <= i < |ns| ensures OrderLineKey(w, d, o, ns[i]) in ol {
      assert ns[i] in LineNumbers(ol, w, d, o);
    }
  }

  /** Delivering order o of district d: its new_order row (and no other) is
      removed, its oorder row gets the carrier, its customer's balance grows
      by the sum of the delivered lines' amounts and nothing else about that
      customer changes; warehouse, district, item, stock, history and the
      indexes are untouched. */
  lemma DeliverOrderEffects(t: Tables, w: int, numWarehouses: int, d: int, o: int, carrier: int, ts: int)
    requires DeliverOrder(t, w, numWarehouses, d, o, carrier, ts).Some?
    ensures var t' := DeliverOrder(t, w, numWarehouses, d, o, carrier, ts).value;
      var ok := OrderKey(w, d, o);
      var ns := DeliveredLines(t.orderLine, w, d, o);
      && t'.newOrder == t.newOrder - {ok}
      && ok in t.oorder && t'.oorder == t.oorder[ok := t.oorder[ok].(carrierId := carrier)]
      && (var ck := CustomerKey(w, d, t.oorder[ok].cId);
          && ck in t.customer
          && (forall i :: 0 <= i < |ns| ==> OrderLineKey(w, d, o, ns[i]) in t.orderLine)
          && t'.customer == t.customer[ck := t.customer[ck].(balance := t.customer[ck].balance +
                                                               AmountSum(t.orderLine, w, d, o, ns))])
      && t'.warehouse == t.warehouse && t'.district == t.district && t'.item == t.item
      && t'.stock == t.stock && t'.history == t.history && t'.oorderCIdIdx == t.oorderCIdIdx
      && t'.customerNameIdx == t.customerNameIdx
  {
    var ns := DeliveredLines(t.orderLine, w, d, o);
    DeliveredLinesExist(t.orderLine, w, d, o);
    StampLinesSum(t.orderLine, w, d, o, ns, ts, numWarehouses);
  }

  /** The sum a successful stamping returns is the lines' total amount. */
  lemma StampLinesSum(ol: map<OrderLineKey, OrderLine>, w: int, d: int, o: int, ns: seq<int>, ts: int,
                      numWarehouses: int)
    requires forall i :: 0 <= i < |ns| ==> OrderLineKey(w, d, o, ns[i]) in ol
    requires Distinct(ns) && StampLines(ol, w, d, o, ns, ts, numWarehouses).Some?
    ensures StampLines(ol, w, d, o, ns, ts, numWarehouses).value.sum == AmountSum(ol, w, d, o, ns)
  {
    StampLinesFacts(ol, w, d, o, ns, ts, numWarehouses);
  }

  /** Delivering order o stamps its first lines (at most 15) with delivery
      date ts and leaves every other line alone. */
  lemma DeliverOrderLines(t: Tables, w: int, numWarehouses: int, d: int, o: int, carrier: int, ts: int)
    requires DeliverOrder(t, w, numWarehouses, d, o, carrier, ts).Some?
    ensures var t' := DeliverOrder(t, w, numWarehouses, d, o, carrier, ts).value;
      var ns := DeliveredLines(t.orderLine, w, d, o);
      && t'.orderLine.Keys == t.orderLine.Keys
      && (forall i :: 0 <= i < |ns| ==> OrderLineKey(w, d, o, ns[i]) in t.orderLine)
      && (forall i :: 0 <= i < |ns| ==>
            t'.orderLine[OrderLineKey(w, d, o, ns[i])] == t.orderLine[OrderLineKey(w, d, o, ns[i])].(deliveryD := ts))
      && (forall k :: k in t.orderLine && !(k.w == w && k.d == d && k.o == o && k.n in ns) ==>
            t'.orderLine[k] == t.orderLine[k])
  {
    var ns := DeliveredLines(t.orderLine, w, d, o);
    DeliveredLinesExist(t.orderLine, w, d, o);
    StampLinesFacts(t.orderLine, w, d, o, ns, ts, numWarehouses);
  }

  /** Across all ten districts every cursor only grows, and slot 0 is never
      used. */
  lemma {:induction false} DeliverFromCursors(t: Tables, w: int, numWarehouses: int, cursors: seq<int>, carrier: int,
                                              ts: int, d: int)
    requires |cursors| == NumCursorSlots && 1 <= d <= NumCursorSlots
    requires DeliverFrom(t, w, numWarehouses, cursors, carrier, ts, d).DeliveryDone?
    ensures var r := DeliverFrom(t, w, numWarehouses, cursors, carrier, ts, d).cursors;
      && |r| == NumCursorSlots
      && (forall i :: 0 <= i < d ==> r[i] == cursors[i])
      && (forall i :: d <= i < NumCursorSlots ==> r[i] >= cursors[i])
    decreases NumCursorSlots - d
  {
    if d < NumCursorSlots {
      var r1 := DeliverDistrict(t, w, numWarehouses, d, cursors[d], carrier, ts);
      DeliverDistrictCursor(t, w, numWarehouses, d, cursors[d], carrier, ts);
      DeliverFromCursors(r1.tables, w, numWarehouses, cursors[d := r1.cursor], carrier, ts, d + 1);
    }
  }

  /** One more district handled after districts 1..d-1. */
  lemma DeliverUpToStep(t: Tables, w: int, numWarehouses: int, cursors: seq<int>, carrier: int, ts: int, d: int,
                        s: Progress, t1: Tables, c1: int)
    requires |cursors| == NumCursorSlots && 1 <= d < NumCursorSlots
    requires DeliverUpTo(t, w, numWarehouses, cursors, carrier, ts, d) == Some(s)
    requires DeliverDistrict(s.tables, w, numWarehouses, d, s.cursors[d], carrier, ts) == DistrictDone(t1, c1)
    ensures DeliverUpTo(t, w, numWarehouses, cursors, carrier, ts, d + 1) == Some(Progress(t1, s.cursors[d := c1]))
  {
  }

  /** The cursors an abort exception leaves, seen from the progress before
      its district. */
  lemma CursorsAtRaiseFromProgress(t: Tables, w: int, numWarehouses: int, cursors: seq<int>, carrier: int, ts: int,
                                   p: RaisePoint, s: Progress, c: seq<int>)
    requires |cursors| == NumCursorSlots && 1 <= p.d < NumCursorSlots
    requires DeliverUpTo(t, w, numWarehouses, cursors, carrier, ts, p.d) == Some(s)
    requires !p.afterCursor ==> c == s.cursors
    requires p.afterCursor ==>
      && OldestPending(s.tables, w, p.d, s.cursors[p.d]).Some?
      && c == s.cursors[p.d := OldestPending(s.tables, w, p.d, s.cursors[p.d]).value + 1]
    ensures CursorsAtRaise(t, w, numWarehouses, cursors, carrier, ts, p) == Some(c)
  {
  }

  /** Handling districts 1..stop-1 and then the rest is the whole Delivery. */
  lemma {:induction false} DeliverUpToFrom(t: Tables, w: int, numWarehouses: int, cursors: seq<int>, carrier: int,
                                           ts: int, stop: int)
    requires |cursors| == NumCursorSlots && 1 <= stop <= NumCursorSlots
    requires DeliverUpTo(t, w, numWarehouses, cursors, carrier, ts, stop).Some?
    ensures var s := DeliverUpTo(t, w, numWarehouses, cursors, carrier, ts, stop).value;
      DeliveryEffect(t, w, numWarehouses, cursors, carrier, ts) ==
      DeliverFrom(s.tables, w, numWarehouses, s.cursors, carrier, ts, stop)
    decreases stop
  {
    if stop > 1 {
      DeliverUpToFrom(t, w, numWarehouses, cursors, carrier, ts, stop - 1);
      var s, r := DeliverUpToSplit(t, w, numWarehouses, cursors, carrier, ts, stop);
      DeliverFromStep(s.tables, w, numWarehouses, s.cursors, carrier, ts, stop - 1);
    }
  }

  /** One completed district unfolds DeliverFrom by one step. */
  lemma DeliverFromStep(t: Tables, w: int, numWarehouses: int, cursors: seq<int>, carrier: int, ts: int, d: int)
    requires |cursors| == NumCursorSlots && 1 <= d < NumCursorSlots
    requires DeliverDistrict(t, w, numWarehouses, d, cursors[d], carrier, ts).DistrictDone?
    ensures var r := DeliverDistrict(t, w, numWarehouses, d, cursors[d], carrier, ts);
      DeliverFrom(t, w, numWarehouses, cursors, carrier, ts, d) ==
      DeliverFrom(r.tables, w, numWarehouses, cursors[d := r.cursor], carrier, ts, d + 1)
  {
  }

  /** A completed prefix up to `stop` is the prefix up to stop - 1 followed
      by one completed district. */
  lemma DeliverUpToSplit(t: Tables, w: int, numWarehouses: int, cursors: seq<int>, carrier: int, ts: int, stop: int)
    returns (s: Progress, r: DistrictOutcome)
    requires |cursors| == NumCursorSlots && 1 < stop <= NumCursorSlots
    requires DeliverUpTo(t, w, numWarehouses, cursors, carrier, ts, stop).Some?
    ensures DeliverUpTo(t, w, numWarehouses, cursors, carrier, ts, stop - 1) == Some(s)
    ensures r == DeliverDistrict(s.tables, w, numWarehouses, stop - 1, s.cursors[stop - 1], carrier, ts)
    ensures r.DistrictDone?
    ensures DeliverUpTo(t, w, numWarehouses, cursors, carrier, ts, stop) ==
            Some(Progress(r.tables, s.cursors[stop - 1 := r.cursor]))
  {
    s := DeliverUpTo(t, w, numWarehouses, cursors, carrier, ts, stop - 1).value;
    r := DeliverDistrict(s.tables, w, numWarehouses, stop - 1, s.cursors[stop - 1], carrier, ts);
  }

  /** Cursors 1..stop-1 of c are at or past those of `cursors`; slot 0 and
      the slots from `stop` on are the same. */
  predicate AdvancedBelow(cursors: seq<int>, c: seq<int>, stop: int)
    requires |c| == |cursors| && 1 <= stop
  {
    && (|c| > 0 ==> c[0] == cursors[0])
    && (forall i :: 1 <= i < stop && i < |c| ==> c[i] >= cursors[i])
    && (forall i :: stop <= i < |c| ==> c[i] == cursors[i])
  }

  /** Moving cursor k forward extends AdvancedBelow by one slot. */
  lemma AdvanceCursor(cursors: seq<int>, c: seq<int>, k: int, x: int)
    requires |c| == |cursors| && 1 <= k < |c| && x >= c[k]
    requires AdvancedBelow(cursors, c, k)
    ensures AdvancedBelow(cursors, c[k := x], k + 1)
  {
  }

  /** Handling districts 1..stop-1 moves only their cursors, and only
      forward. */
  lemma {:induction false} DeliverUpToCursors(t: Tables, w: int, numWarehouses: int, cursors: seq<int>, carrier: int,
                                              ts: int, stop: int)
    requires |cursors| == NumCursorSlots && 1 <= stop <= NumCursorSlots
    requires DeliverUpTo(t, w, numWarehouses, cursors, carrier, ts, stop).Some?
    ensures AdvancedBelow(cursors, DeliverUpTo(t, w, numWarehouses, cursors, carrier, ts, stop).value.cursors, stop)
    decreases stop
  {
    if stop > 1 {
      DeliverUpToCursors(t, w, numWarehouses, cursors, carrier, ts, stop - 1);
      var c, x := DeliverUpToLast(t, w, numWarehouses, cursors, carrier, ts, stop);
      AdvanceCursor(cursors, c, stop - 1, x);
    }
  }

  /** The last district of a completed prefix moved its cursor forward,
      from c[stop - 1] to x. */
  lemma DeliverUpToLast(t: Tables, w: int, numWarehouses: int, cursors: seq<int>, carrier: int, ts: int, stop: int)
    returns (c: seq<int>, x: int)
    requires |cursors| == NumCursorSlots && 1 < stop <= NumCursorSlots
    requires DeliverUpTo(t, w, numWarehouses, cursors, carrier, ts, stop).Some?
    ensures DeliverUpTo(t, w, numWarehouses, cursors, carrier, ts, stop - 1).Some?
    ensures c == DeliverUpTo(t, w, numWarehouses, cursors, carrier, ts, stop - 1).value.cursors
    ensures |c| == NumCursorSlots && x >= c[stop - 1]
    ensures DeliverUpTo(t, w, numWarehouses, cursors, carrier, ts, stop).value.cursors == c[stop - 1 := x]
  {
    var s, r := DeliverUpToSplit(t, w, numWarehouses, cursors, carrier, ts, stop);
    DeliverDistrictForward(s.tables, w, numWarehouses, stop - 1, s.cursors[stop - 1], carrier, ts);
    c, x := s.cursors, r.cursor;
  }

  /** A district that completes leaves its cursor where it was or past it. */
  lemma DeliverDistrictForward(t: Tables, w: int, numWarehouses: int, d: int, cursor: int, carrier: int, ts: int)
    requires DeliverDistrict(t, w, numWarehouses, d, cursor, carrier, ts).DistrictDone?
    ensures DeliverDistrict(t, w, numWarehouses, d, cursor, carrier, ts).cursor >= cursor
  {
    if OldestPending(t, w, d, cursor).Some? {
      OldestPendingFrom(t, w, d, cursor);
    }
  }

  /** The cursors at a raise point that is reached, in terms of the
      progress before its district. */
  lemma CursorsAtRaiseValue(t: Tables, w: int, numWarehouses: int, cursors: seq<int>, carrier: int, ts: int,
                            p: RaisePoint)
    requires |cursors| == NumCursorSlots && 1 <= p.d < NumCursorSlots
    requires CursorsAtRaise(t, w, numWarehouses, cursors, carrier, ts, p).Some?
    ensures var s := DeliverUpTo(t, w, numWarehouses, cursors, carrier, ts, p.d);
      && s.Some?
      && (p.afterCursor ==> OldestPending(s.value.tables, w, p.d, s.value.cursors[p.d]).Some?)
      && CursorsAtRaise(t, w, numWarehouses, cursors, carrier, ts, p).value ==
         if p.afterCursor
         then s.value.cursors[p.d := OldestPending(s.value.tables, w, p.d, s.value.cursors[p.d]).value + 1]
         else s.value.cursors
  {
  }

  /** An abort exception at `p` moves no cursor after p.d, and moves p.d's
      own cursor (forward) exactly when it comes after the cursor write. */
  lemma CursorsAtRaiseFrame(t: Tables, w: int, numWarehouses: int, cursors: seq<int>, carrier: int, ts: int,
                            p: RaisePoint)
    requires |cursors| == NumCursorSlots && 1 <= p.d < NumCursorSlots
    requires CursorsAtRaise(t, w, numWarehouses, cursors, carrier, ts, p).Some?
    ensures var c := CursorsAtRaise(t, w, numWarehouses, cursors, carrier, ts, p).value;
      && |c| == NumCursorSlots && c[0] == cursors[0]
      && (forall i :: p.d < i < NumCursorSlots ==> c[i] == cursors[i])
      && (!p.afterCursor ==> c[p.d] == cursors[p.d])
      && (p.afterCursor ==> c[p.d] > cursors[p.d])
  {
    CursorsAtRaiseValue(t, w, numWarehouses, cursors, carrier, ts, p);
    var s := DeliverUpTo(t, w, numWarehouses, cursors, carrier, ts, p.d).value;
    DeliverUpToCursors(t, w, numWarehouses, cursors, carrier, ts, p.d);
    if p.afterCursor {
      OldestPendingFrom(s.tables, w, p.d, s.cursors[p.d]);
    }
  }

  /** When the whole Delivery completes, an abort exception at `p` leaves
      the cursors before p.d as the full run sets them, and p.d's too when it
      comes after the cursor write. */
  lemma CursorsAtRaiseAgree(t: Tables, w: int, numWarehouses: int, cursors: seq<int>, carrier: int, ts: int,
                            p: RaisePoint)
    requires |cursors| == NumCursorSlots && 1 <= p.d < NumCursorSlots
    requires CursorsAtRaise(t, w, numWarehouses, cursors, carrier, ts, p).Some?
    requires DeliveryEffect(t, w, numWarehouses, cursors, carrier, ts).DeliveryDone?
    ensures var c := CursorsAtRaise(t, w, numWarehouses, cursors, carrier, ts, p).value;
      var full := DeliveryEffect(t, w, numWarehouses, cursors, carrier, ts).cursors;
      && |c| == |full| == NumCursorSlots
      && (forall i :: 0 <= i < p.d ==> c[i] == full[i])
      && (p.afterCursor ==> c[p.d] == full[p.d])
  {
    CursorsAtRaiseValue(t, w, numWarehouses, cursors, carrier, ts, p);
    var s := DeliverUpTo(t, w, numWarehouses, cursors, carrier, ts, p.d).value;
    DeliverUpToFrom(t, w, numWarehouses, cursors, carrier, ts, p.d);
    var c := CursorsAtRaise(t, w, numWarehouses, cursors, carrier, ts, p).value;
    if p.afterCursor {
      var o := OldestPending(s.tables, w, p.d, s.cursors[p.d]).value;
      var r1 := DeliverDistrict(s.tables, w, numWarehouses, p.d, s.cursors[p.d], carrier, ts);
      assert r1.DistrictDone? && r1.cursor == o + 1;
      DeliverFromCursors(r1.tables, w, numWarehouses, c, carrier, ts, p.d + 1);
    } else {
      DeliverFromCursors(s.tables, w, numWarehouses, s.cursors, carrier, ts, p.d);
    }
  }

  /** Stamping sane lines leaves every line sane: only delivery dates change. */
  lemma {:induction false} StampLinesSane(ol: map<OrderLineKey, OrderLine>, w: int, d: int, o: int, ns: seq<int>,
                                          ts: int, numWarehouses: int)
    requires forall i :: 0 <= i < |ns| ==> OrderLineKey(w, d, o, ns[i]) in ol
    requires forall k :: k in ol ==> OrderLineOk(k, ol[k], numWarehouses)
    requires StampLines(ol, w, d, o, ns, ts, numWarehouses).Some?
    ensures var lines := StampLines(ol, w, d, o, ns, ts, numWarehouses).value.lines;
      forall k :: k in lines ==> OrderLineOk(k, lines[k], numWarehouses)
    decreases |ns|
  {
    if ns != [] {
      var k := OrderLineKey(w, d, o, ns[0]);
      var ol1 := ol[k := ol[k].(deliveryD := ts)];
      StampLinesSane(ol1, w, d, o, ns[1..], ts, numWarehouses);
    }
  }

  /** Delivering one order keeps every sanity check passing, given a
      carrier in [1, 10]. */
  lemma DeliverOrderSane(t: Tables, w: int, numWarehouses: int, d: int, o: int, carrier: int, ts: int)
    requires TablesSane(t, numWarehouses) && 1 <= carrier <= NumDistrictsPerWarehouse
    requires DeliverOrder(t, w, numWarehouses, d, o, carrier, ts).Some?
    ensures TablesSane(DeliverOrder(t, w, numWarehouses, d, o, carrier, ts).value, numWarehouses)
  {
    var ok := OrderKey(w, d, o);
    var ns := DeliveredLines(t.orderLine, w, d, o);
    DeliveredLinesExist(t.orderLine, w, d, o);
    StampLinesSane(t.orderLine, w, d, o, ns, ts, numWarehouses);
    DeliveredSane(t, ok, CustomerKey(w, d, t.oorder[ok].cId), StampLines(t.orderLine, w, d, o, ns, ts, numWarehouses).value,
                  carrier, numWarehouses);
  }

  /** The writes of one delivery keep every table sane when the stamped
      lines are sane and the carrier is in [1, 10]. */
  lemma DeliveredSane(t: Tables, ok: OrderKey, ck: CustomerKey, st: Stamped, carrier: int, numWarehouses: int)
    requires ok in t.oorder && ck in t.customer
    requires TablesSane(t, numWarehouses) && 1 <= carrier <= NumDistrictsPerWarehouse
    requires forall k :: k in st.lines ==> OrderLineOk(k, st.lines[k], numWarehouses)
    ensures TablesSane(Delivered(t, ok, ck, st, carrier), numWarehouses)
  {
  }

  /** Delivering one district keeps every sanity check passing, given a
      carrier in [1, 10]. */
  lemma DeliverDistrictPreservesSanity(t: Tables, w: int, numWarehouses: int, d: int, cursor: int, carrier: int,
                                       ts: int)
    requires TablesSane(t, numWarehouses) && 1 <= carrier <= NumDistrictsPerWarehouse
    requires DeliverDistrict(t, w, numWarehouses, d, cursor, carrier, ts).DistrictDone?
    ensures TablesSane(DeliverDistrict(t, w, numWarehouses, d, cursor, carrier, ts).tables, numWarehouses)
  {
    if PendingIds(t, w, d, cursor) != {} {
      DeliverOrderSane(t, w, numWarehouses, d, OldestPending(t, w, d, cursor).value, carrier, ts);
    }
  }

  /** A committed Delivery keeps every sanity check passing. */
  lemma {:induction false} DeliverFromPreservesSanity(t: Tables, w: int, numWarehouses: int, cursors: seq<int>,
                                                      carrier: int, ts: int, d: int)
    requires |cursors| == NumCursorSlots && 1 <= d <= NumCursorSlots
    requires TablesSane(t, numWarehouses) && 1 <= carrier <= NumDistrictsPerWarehouse
    requires DeliverFrom(t, w, numWarehouses, cursors, carrier, ts, d).DeliveryDone?
    ensures TablesSane(DeliverFrom(t, w, numWarehouses, cursors, carrier, ts, d).tables, numWarehouses)
    decreases NumCursorSlots - d
  {
    if d < NumCursorSlots {
      var r1 := DeliverDistrict(t, w, numWarehouses, d, cursors[d], carrier, ts);
      DeliverDistrictPreservesSanity(t, w, numWarehouses, d, cursors[d], carrier, ts);
      DeliverFromPreservesSanity(r1.tables, w, numWarehouses, cursors[d := r1.cursor], carrier, ts, d + 1);
    }
  }

  // ------------------------------------------------------ cursor slots

  /** The per-worker cursor array as declared: one slot per district. */
  const DeclaredCursorSlots: int := NumDistrictsPerWarehouse

  /** Reading cursor slot `d`: the slot's value, or None when `d` lies
      outside the array (an out-of-bounds access in the benchmark). */
  function CursorSlot(cursors: seq<int>, d: int): (r: Option<int>)
    ensures r.Some? <==> 0 <= d < |cursors|
    ensures r.Some? ==> r.value == cursors[d]
  {
    if 0 <= d < |cursors| then Some(cursors[d]) else None
  }

  /** As declared, the array has no slot for district 10, which Delivery
      reads and writes. */
  lemma DeclaredCursorsMissDistrictTen(cursors: seq<int>)
    requires |cursors| == DeclaredCursorSlots
    ensures InDistrictRange(NumDistrictsPerWarehouse)
    ensures CursorSlot(cursors, NumDistrictsPerWarehouse) == None
  {
  }

  /** With one slot more, every district 1..10 has its own slot. */
  lemma CursorSlotsCoverDistricts(cursors: seq<int>, d: int)
    requires |cursors| == NumCursorSlots && InDistrictRange(d)
    ensures CursorSlot(cursors, d) == Some(cursors[d])
  {
  }
}
