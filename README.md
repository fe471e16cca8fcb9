# TPC-C in Silo's benchmark driver, modelled in Dafny

This project models the TPC-C workload of `benchmarks/tpcc.cc`. It covers
the data generators of `tpcc_worker_mixin`, the `checker` sanity predicates,
the six table loaders and the five transaction profiles of `tpcc_worker`
(NewOrder, Payment, Delivery, OrderStatus, StockLevel), together with their
scan visitors.

How the pieces are modelled:

- **Tables.** The eleven tables are one value, `Schema.Tables`. Each table is
  a `map` (or a `set`, for the key-only indexes) keyed by a tuple datatype.
  A range scan is the ascending enumeration of the keys in a range under a
  strict total order (`OrderedScan`). Money is kept in integer cents, and tax
  and discount in units of 1/10000.
- **Engine.** `Engine.Store` holds the committed tables. A transaction works
  on a staged copy, which gives read-your-writes. `Store.Commit` either
  installs the staged copy (`Accepted`) or leaves the tables as they were and
  spends one unit of a finite abort budget (`Refused`, or `Raised`).
  Payment, OrderStatus and StockLevel change nothing outside the
  transaction between the start of the body and the commit (Payment reads
  the clock before the body), so for them an abort exception thrown
  anywhere in the body leaves the same state as a refused commit, and
  `Commit` reports it as `Raised`. NewOrder reads the clock only after its
  customer, warehouse and district reads and its new_order insert and
  district update. An exception there is modelled where it is thrown
  (`Store.MayRaise`): the transaction aborts with the clock not advanced.
  An exception after the clock reading is reported at commit time.
  Delivery moves its per-district cursors outside the transaction as it
  goes. There too the exception is modelled where it is thrown: in district
  d, either at the new_order scan (before d's cursor write) or at one of
  d's later reads and writes (after it). `Delivery.CursorsAtRaise` gives the
  cursors it leaves behind. Because the budget is finite, the loaders'
  retry-on-abort loops terminate.
- **Clock.** The per-thread millisecond counter is `Engine.Clock`, a 32-bit
  counter that wraps around.
- **Draws.** Every random draw is an abstract method whose contract is the
  range of values it can return. Rejection loops are modelled with a run
  length chosen by the model, which covers every terminating behaviour:
  `RandomStr`'s alphanumeric filter, the remote-warehouse do-while and the
  order loader's customer-id fill.
- **Transactions.** Each transaction is specified by a pure function of the
  tables before it: `NewOrderEffect`, `PaymentEffect`, `DeliveryEffect`,
  `OrderStatusOf` and `StockLevelOf`. The class `Worker.Worker` runs a
  transaction by calling a step method that is proved equal to that
  function, then committing. Its `ensures` ties the committed tables, the
  Delivery cursors and the commit and abort counters to the function.
  Lemmas then prove what TPC-C promises about each function.
- **Fatal assertions.** A fatal assertion in the source (a missing row, a
  failed sanity check) makes a transaction end `Halted` with nothing
  committed; the benchmark process would stop there. The model follows the
  build with `CHECK_INVARIANTS` defined. In that build the `checker` sanity
  checks (tpcc.cc:50-123), the INVARIANT checks inside the transactions
  (tpcc.cc:1220-1221, 1424-1425, 1565-1566, 1600, 1611, 1698, 1703) and the
  sanity checks under `#ifdef CHECK_INVARIANTS` (tpcc.cc:1223, 1301, 1509,
  1636) are all fatal. The record-size checks (1220-1221, 1703) always hold
  here, because the record codec is not part of this model. Without
  `CHECK_INVARIANTS` those checks compile to nothing, and the transactions
  would go on where the model halts.

## Model

| member | source | states |
|---|---|---|
| Engine.Store.Commit | benchmarks/tpcc.cc:1199-1209 | commit installs the staged tables, or leaves them unchanged and spends abort budget |
| Engine.Store.MayRaise | benchmarks/tpcc.cc:1267-1344 | an operation inside Delivery's try block either throws the abort exception, spending abort budget, or goes on; the committed tables are unchanged either way |
| Engine.Clock.Tick | benchmarks/tpcc.cc:190-202 | returns the counter's previous value and advances it by one modulo 2^32 |
| Generators.RandomNumber | benchmarks/tpcc.cc:214-218 | a uniform draw lies in [min, max] |
| Generators.RandomNumberRun | benchmarks/tpcc.cc:1039-1041 | the redraw-until-different loop yields a value in [min, max] that equals the excluded value exactly when the run has not finished |
| Generators.NextRaw | benchmarks/tpcc.cc:927 | a raw draw is a 64-bit unsigned number |
| Generators.NextChar | benchmarks/tpcc.cc:308-315 | a drawn character passes the isalnum filter exactly when the rejection run has ended |
| Generators.BitOrBits | benchmarks/tpcc.cc:223 | bit i of a bitwise OR is set iff it is set in either operand |
| Generators.BitOrBelow | benchmarks/tpcc.cc:223 | the OR of two numbers below 2^k is below 2^k |
| Generators.NURand | benchmarks/tpcc.cc:220-224 | NURand(A, C, x, y) of TPC-C clause 2.1.6 lies in [min, max] for draws in range and C >= 0 |
| Generators.NonUniformRandom | benchmarks/tpcc.cc:220-224 | the non-uniform draw lies in [min, max] |
| Generators.GetItemId | benchmarks/tpcc.cc:226-230 | an item id is in [1, 100000] |
| Generators.GetCustomerId | benchmarks/tpcc.cc:232-236 | a customer id is in [1, 3000] |
| Generators.TokenLength | benchmarks/tpcc.cc:331-343 | every surname syllable has 3 to 5 characters |
| Generators.CustomerLastName | benchmarks/tpcc.cc:243-257 | a surname built from a number in [0, 999] has 9 to 15 characters |
| Generators.LastNameOfDigits | benchmarks/tpcc.cc:243-257 | the surname of the number with digits h, t, u is token h, then t, then u (TPC-C clause 4.3.2.3) |
| Generators.Digits | benchmarks/tpcc.cc:246-248 | the hundreds, tens and units digits of 100h + 10t + u are h, t and u |
| Generators.GetNonUniformCustomerLastNameLoad | benchmarks/tpcc.cc:274-278 | the loader's surname is the surname of some number in [0, 999] |
| Generators.GetNonUniformCustomerLastNameRun | benchmarks/tpcc.cc:292-296 | the run-time surname is the surname of some number in [0, 999] |
| Generators.RandomStr | benchmarks/tpcc.cc:299-318 | length 0 gives ""; otherwise len-1 characters, all alphanumeric |
| Generators.RandomNStr | benchmarks/tpcc.cc:320-329 | exactly len characters, all in '0'..'9' |
| Generators.MiddleIndex | benchmarks/tpcc.cc:1426-1428 | for k > 0 the picked index is (k-1)/2, inside [0, k), with at most one more entry after it than before it |
| OrderedScan.MinimumExists | benchmarks/tpcc.cc:1276 | a non-empty key range under a strict total order has a least key |
| OrderedScan.Enumerate | benchmarks/tpcc.cc:1276 | a range scan visits every key of the range once, in ascending order |
| OrderedScan.AscendingUnique | benchmarks/tpcc.cc:1295 | two ascending enumerations of the same keys are equal, so a scan's order is determined |
| OrderedScan.Insert | benchmarks/tpcc.cc:1295 | inserting a new key into an ascending sequence keeps it ascending and adds exactly that key |
| OrderedScan.Scan | benchmarks/tpcc.cc:1295 | the scan loop returns the ascending enumeration of the range |
| OrderedScan.ScanInts | benchmarks/tpcc.cc:928 | copying a std::set of ids gives its elements, each once, strictly increasing |
| OrderedScan.RankOfEnumerate | benchmarks/tpcc.cc:1426-1431 | the i-th scanned key has exactly i keys below it and the rest above it |
| OrderedScan.AfterCount | benchmarks/tpcc.cc:1426-1431 | in an ascending scan exactly the keys after position i lie above the i-th key |
| OrderedScan.AfterCard | benchmarks/tpcc.cc:1426-1431 | an ascending scan of n keys has n - 1 - i distinct keys after position i |
| OrderedScan.CountsOfEnumeration | benchmarks/tpcc.cc:1426-1431 | counting keys below or above a key gives the same answer over the key set and over its scan |
| OrderedScan.StrLessIsStrictTotal | benchmarks/tpcc.cc:1413-1421 | lexicographic string order is a strict total order, so first names scan in a fixed order |
| Checker.CustomerOk | benchmarks/tpcc.cc:56-63 | defines the customer check: key in range, credit "BC" or "GC", middle name "OE" |
| Checker.WarehouseOk | benchmarks/tpcc.cc:66-71 | defines the warehouse check: id in range, 2-character state, zip "123456789" |
| Checker.DistrictOk | benchmarks/tpcc.cc:74-81 | defines the district check: key in range, next_o_id at least 3001, 2-character state, zip "123456789" |
| Checker.ItemOk | benchmarks/tpcc.cc:84-88 | defines the item check: id in 1..100000, price 1.00 to 100.00 |
| Checker.StockOk | benchmarks/tpcc.cc:91-95 | defines the stock check: warehouse and item ids in range |
| Checker.NewOrderOk | benchmarks/tpcc.cc:98-102 | defines the new_order check: warehouse and district ids in range |
| Checker.OOrderOk | benchmarks/tpcc.cc:105-112 | defines the oorder check: key and customer in range, carrier 0..10, 5 to 15 lines |
| Checker.OrderLineOk | benchmarks/tpcc.cc:115-121 | defines the order_line check: key in range, line number 1..15, item id in range |
| Checker.TablesSane | benchmarks/tpcc.cc:50-123 | defines sanity of the whole database: every row of every checked table passes its check |
| CustomerLookup.Pick | benchmarks/tpcc.cc:1398-1446 | a found customer belongs to the requested district and is that customer's row in the table |
| CustomerLookup.ByName | benchmarks/tpcc.cc:1410-1437 | defines the by-name lookup: no customer when no name or 512 or more names match, else the customer the index names at MiddleIndex of the sorted first names |
| CustomerLookup.ById | benchmarks/tpcc.cc:1439-1446 | a lookup by id finds the customer iff its key is in the customer table |
| CustomerLookup.SortedFirstNames | benchmarks/tpcc.cc:1422-1423 | the name-index scan yields every first name under the surname once |
| CustomerLookup.ByNamePicksLowerMedian | benchmarks/tpcc.cc:1400-1437 | a found by-name lookup has 0 < k < 512 names, picks a name with (k-1)/2 names below and k-1-(k-1)/2 above, and returns the customer its index entry names |
| CustomerLookup.PickFrame | benchmarks/tpcc.cc:1379-1396 | the lookup depends only on the customer table and the name index |
| CustomerLookup.LookupByName | benchmarks/tpcc.cc:1410-1437 | the scan-and-pick code returns the specified by-name lookup |
| CustomerLookup.LookupCustomer | benchmarks/tpcc.cc:1398-1446 | the by-name or by-id branch returns the specified lookup |
| CustomerLookup.LookupById | benchmarks/tpcc.cc:1439-1446 | the by-id branch returns the specified lookup |
| NewOrder.NewOrderEffect | benchmarks/tpcc.cc:1060-1196 | defines NewOrder: halt on a missing or insane customer, warehouse or district row, else the header rows at d_next_o_id followed by the lines |
| NewOrder.Header | benchmarks/tpcc.cc:1089-1118 | defines the header writes: d_next_o_id + 1, the new_order row, the oorder row with carrier 0 and the customer index row |
| NewOrder.PlaceLines | benchmarks/tpcc.cc:1120-1196 | defines the line loop: halt on a missing or insane item or a missing or insane stock row, else place each line in turn |
| NewOrder.PlaceOne | benchmarks/tpcc.cc:1137-1195 | defines one line's writes: the updated home stock row and the order_line row |
| NewOrder.EnoughStock | benchmarks/tpcc.cc:1138 | defines the replenishment test as C evaluates it, on the unsigned 32-bit difference |
| NewOrder.DistInfo | benchmarks/tpcc.cc:1156-1189 | defines the choice of the district's s_dist_NN text |
| NewOrder.StockAfterOrder | benchmarks/tpcc.cc:1137-1143 | quantity in [10,100] and an order of 1..10 keep it in [10,100]; ytd grows by the order; remote_cnt grows by one iff the line is remote; order_cnt and the texts are unchanged |
| NewOrder.ShortfallGoesNegative | benchmarks/tpcc.cc:1138 | outside the band the unsigned comparison takes the subtracting branch: 3 in stock and 5 ordered leave -2 |
| NewOrder.DistInfoSlotsDistinct | benchmarks/tpcc.cc:1156-1189 | each district reads its own s_dist_NN slot |
| NewOrder.PlaceLinesHalts | benchmarks/tpcc.cc:1120-1133 | placing the lines from i halts iff a later line's item is missing or insane, or its stock row is missing |
| NewOrder.NewOrderHaltsIffUnserviceable | benchmarks/tpcc.cc:1060-1133 | NewOrder halts exactly when a row it must read is missing or fails its sanity check |
| NewOrder.PlaceLinesStep | benchmarks/tpcc.cc:1120-1196 | placing lines i.. is placing line i, then lines i+1.. |
| NewOrder.PlaceLinesFrame | benchmarks/tpcc.cc:1120-1196 | placing lines changes only stock and order_line, and never the stock texts |
| NewOrder.PlaceOneFrame | benchmarks/tpcc.cc:1137-1196 | placing one line changes only stock and order_line, and keeps the stock keys and texts |
| NewOrder.StockTextKeptTrans | benchmarks/tpcc.cc:1137-1143 | keeping the stock texts over two steps keeps them over both |
| NewOrder.PlaceOneKeepsReadable | benchmarks/tpcc.cc:1125-1135 | placing a line leaves every line's item and stock rows readable exactly as before |
| NewOrder.PlaceLinesKeepsOtherLines | benchmarks/tpcc.cc:1191-1195 | order lines outside the new order's line numbers are untouched |
| NewOrder.PlaceLinesPlaces | benchmarks/tpcc.cc:1147-1195 | line n is inserted with its item, supplier, quantity, price times quantity, delivery date 0 and the district's dist_info |
| NewOrder.PlaceOneLinePlaced | benchmarks/tpcc.cc:1147-1195 | the line PlaceOne inserts is placed as requested when the later lines leave it alone |
| NewOrder.PlaceOneKeepsPlaced | benchmarks/tpcc.cc:1147-1195 | placing an earlier line does not change what a later line is priced and labelled from |
| NewOrder.NewOrderCommitEffects | benchmarks/tpcc.cc:1089-1196 | on commit d_next_o_id goes up by exactly one; new_order, oorder (carrier 0, ol_cnt = number of lines, all_local) and the customer index row are inserted at the old counter; lines 1..n are placed; warehouse, customer, item, history and the name index are unchanged |
| NewOrder.NewOrderHeaderRows | benchmarks/tpcc.cc:1089-1118 | on commit the district counter goes up by one and the order header rows are inserted at the old counter; warehouse, customer, item, history and the name index are unchanged |
| NewOrder.NewOrderLines | benchmarks/tpcc.cc:1120-1196 | on commit lines 1..n of the new order are placed and no other order line changes |
| NewOrder.PlaceLinesKeepsBand | benchmarks/tpcc.cc:1137-1143 | every stock quantity in [10,100] stays in [10,100] |
| NewOrder.NewOrderKeepsStock | benchmarks/tpcc.cc:1137-1145 | NewOrder keeps the stock band and the stock keys, and never changes s_order_cnt |
| NewOrder.StockAfterLinesTotals | benchmarks/tpcc.cc:1131-1145 | over the lines, a stock row's ytd grows by the total quantity ordered of its item and remote_cnt by the item's remote lines; order_cnt and the texts are kept; a row no line names is unchanged |
| NewOrder.PlaceLinesStockRow | benchmarks/tpcc.cc:1120-1145 | after the line loop each home stock row is its item's per-line updates in order, and other warehouses' rows are untouched |
| NewOrder.NewOrderStockRows | benchmarks/tpcc.cc:1131-1145 | on commit every home stock row's ytd and remote_cnt grow by its item's totals, rows no line names and other warehouses' rows are unchanged |
| NewOrder.NewOrderPreservesSanity | benchmarks/tpcc.cc:51-123 | a committed NewOrder keeps every table passing the sanity checks |
| NewOrder.HeaderSane | benchmarks/tpcc.cc:1089-1118 | inserting the order header rows keeps every table passing the sanity checks |
| NewOrder.PlaceOneSane | benchmarks/tpcc.cc:1137-1196 | placing one line keeps every table passing the sanity checks |
| NewOrder.PlaceLinesSane | benchmarks/tpcc.cc:1120-1196 | placing all remaining lines keeps every table passing the sanity checks |
| Payment.Prefix | benchmarks/tpcc.cc:1475-1479 | %.10s keeps at most the first 10 characters |
| Payment.IntText | benchmarks/tpcc.cc:1456-1463 | %d prints at least one character |
| Payment.HistoryTextFits | benchmarks/tpcc.cc:1473-1480 | h_data is the name prefixes joined by four spaces and fits the column |
| Payment.BadCreditData | benchmarks/tpcc.cc:1454-1467 | a bad-credit customer's data becomes the audit note, cut to the column's maximum size |
| Payment.HistoryText | benchmarks/tpcc.cc:1473-1480 | defines h_data as `%.10s    %.10s` of the warehouse and district names, cut to the column |
| Payment.AuditNote | benchmarks/tpcc.cc:1454-1463 | defines the bad-credit audit line of customer, district and warehouse ids, the amount and the old data |
| Payment.Charged | benchmarks/tpcc.cc:1448-1467 | defines the charged customer: balance down, ytd_payment up, payment_cnt + 1, data replaced by the cut audit line only for bad credit |
| Payment.ChargeStep | benchmarks/tpcc.cc:1398-1482 | defines the customer step: halt on a missing or insane customer, else the charged row and a history row keyed by the clock reading |
| Payment.PaymentEffect | benchmarks/tpcc.cc:1376-1482 | defines Payment: halt on a missing or insane warehouse or district, else both ytd grow and the customer step runs |
| Payment.PaymentEffectUnfold | benchmarks/tpcc.cc:1379-1396 | Payment first adds the amount to the warehouse and district ytd, then charges the customer |
| Payment.PaymentCommitEffects | benchmarks/tpcc.cc:1379-1482 | on commit warehouse and district ytd grow by the amount; the looked-up customer's balance falls by it, ytd_payment grows by it and payment_cnt by one; data changes only for BC; one history row is written; other tables are unchanged |
| Payment.PaymentBalances | benchmarks/tpcc.cc:1383-1482 | the amount is added to ytd, taken off the balance and recorded in history, all by the same amount |
| Payment.PaymentPreservesSanity | benchmarks/tpcc.cc:51-123 | a committed Payment keeps every table passing the sanity checks |
| Payment.TotalsSane | benchmarks/tpcc.cc:1384-1396 | adding the amount to the warehouse and district ytd keeps every table passing the sanity checks |
| Payment.ChargeStepSane | benchmarks/tpcc.cc:1398-1488 | charging the customer and inserting the history row keeps every table passing the sanity checks |
| Delivery.StampLines | benchmarks/tpcc.cc:1296-1311 | defines the stamping loop: halt on an insane line, else each line gets delivery date ts and its amount is summed |
| Delivery.DeliverOrder | benchmarks/tpcc.cc:1284-1333 | defines one order's delivery: halt on a missing or insane oorder, an insane line or a missing customer, else the delivered image |
| Delivery.DeliverDistrict | benchmarks/tpcc.cc:1270-1333 | defines one district: nothing pending changes nothing, else the oldest pending order is delivered and the cursor moves past it |
| Delivery.DeliverFrom | benchmarks/tpcc.cc:1269-1334 | defines districts d..10 in turn, halting at the first fatal assertion |
| Delivery.DeliveryEffect | benchmarks/tpcc.cc:1267-1334 | defines the whole Delivery body over districts 1..10 |
| Delivery.OldestPending | benchmarks/tpcc.cc:1270-1280 | the first-match scan finds nothing iff no new_order id at or above the cursor exists |
| Delivery.DeliveredLines | benchmarks/tpcc.cc:1289-1295 | the 15-limited line scan returns existing line numbers in ascending order, at most 15 |
| Delivery.StampLinesFacts | benchmarks/tpcc.cc:1296-1311 | stamping fails iff a line is insane; otherwise every scanned line gets delivery date ts, the others are unchanged, and the sum is the total amount |
| Delivery.StampLinesSum | benchmarks/tpcc.cc:1296-1311 | the sum returned by stamping is the total amount of the scanned lines |
| Delivery.StampLinesSane | benchmarks/tpcc.cc:1296-1311 | stamped lines still pass the order-line sanity check |
| Delivery.AmountSumFrame | benchmarks/tpcc.cc:1296-1307 | the sum depends only on the scanned lines' amounts |
| Delivery.OldestPendingIsMinimum | benchmarks/tpcc.cc:1270-1282 | the delivered order is the smallest new_order id at or above the cursor |
| Delivery.DeliverDistrictCursor | benchmarks/tpcc.cc:1278-1282 | a district with no pending order changes nothing; otherwise the cursor becomes that order id + 1, above the old cursor |
| Delivery.DeliveredLinesExist | benchmarks/tpcc.cc:1289-1295 | the scanned lines exist and are distinct |
| Delivery.DeliverOrderEffects | benchmarks/tpcc.cc:1284-1333 | delivering removes the new_order row, sets the carrier, adds the lines' total to the customer's balance, and leaves delivery_cnt and the other tables unchanged |
| Delivery.DeliverOrderLines | benchmarks/tpcc.cc:1296-1311 | delivering stamps exactly the order's scanned lines with ts |
| Delivery.DeliverFromCursors | benchmarks/tpcc.cc:1269-1282 | the cursor of a district already handled is kept, and the others only grow |
| Delivery.DeliverDistrictPreservesSanity | benchmarks/tpcc.cc:51-123 | delivering one district keeps every table passing the sanity checks |
| Delivery.DeliverOrderSane | benchmarks/tpcc.cc:1284-1333 | delivering one order keeps every table passing the sanity checks |
| Delivery.DeliveredSane | benchmarks/tpcc.cc:1313-1333 | the delivered image keeps every table passing the sanity checks |
| Delivery.DeliverFromPreservesSanity | benchmarks/tpcc.cc:51-123 | a committed Delivery keeps every table passing the sanity checks |
| Delivery.OldestPendingFrom | benchmarks/tpcc.cc:1276-1282 | the oldest pending order id is at or above the cursor and below 2^31 - 1 |
| Delivery.DeliverDistrictForward | benchmarks/tpcc.cc:1278-1282 | a district that completes never moves its cursor back |
| Delivery.DeliverUpToSplit | benchmarks/tpcc.cc:1269-1333 | districts 1..d handled are districts 1..d-1 handled and then district d completed |
| Delivery.DeliverUpToLast | benchmarks/tpcc.cc:1269-1282 | the last district of a completed prefix moves only its own cursor, forward |
| Delivery.DeliverUpToFrom | benchmarks/tpcc.cc:1269-1334 | handling districts 1..d-1 and then the rest is the whole Delivery |
| Delivery.DeliverUpToCursors | benchmarks/tpcc.cc:1269-1282 | handling districts 1..d-1 moves only their cursors, and only forward |
| Delivery.CursorsAtRaiseFrame | benchmarks/tpcc.cc:1267-1344 | an abort exception in district d moves no later cursor, and moves d's cursor (forward) exactly when it comes after the cursor write |
| Delivery.CursorsAtRaiseAgree | benchmarks/tpcc.cc:1267-1344 | an abort exception in district d leaves the cursors of districts before d as a full run sets them, and d's too when it comes after the cursor write |
| Delivery.CursorSlot | benchmarks/tpcc.cc:449 | a cursor slot exists iff its index is inside the array |
| Delivery.DeclaredCursorsMissDistrictTen | benchmarks/tpcc.cc:1271 | with the declared 10 slots, district 10 has no cursor slot |
| Delivery.CursorSlotsCoverDistricts | benchmarks/tpcc.cc:1282 | with 11 slots every district 1..10 has its own slot |
| OrderStatus.OrderStatusOf | benchmarks/tpcc.cc:1539-1611 | defines OrderStatus: halt on a missing or insane customer, no order, an insane line or a line count outside 5..15, else the customer, latest order and line count |
| OrderStatus.LatestOrder | benchmarks/tpcc.cc:1592-1604 | the latest-key scan finds nothing iff the customer has no order |
| OrderStatus.LatestOrderIsMaximum | benchmarks/tpcc.cc:1592-1604 | the reported order is the customer's largest order id |
| OrderStatus.OrderStatusReports | benchmarks/tpcc.cc:1539-1611 | the status names the looked-up customer of the home district, its latest order and that order's 5 to 15 sane lines |
| StockLevel.InWindow | benchmarks/tpcc.cc:1682-1684 | defines the scan range (w, d, next_o_id - 20, 0) to (w, d, next_o_id, 0) under the key order |
| StockLevel.StockLevelOf | benchmarks/tpcc.cc:1670-1711 | defines StockLevel: halt on a missing or insane district, an insane window line or a missing stock row, else the number of distinct window items below the threshold |
| StockLevel.OrderLineKeyLessIsStrictTotal | benchmarks/tpcc.cc:1682-1687 | order_line keys scan in lexicographic order |
| StockLevel.WindowIsRecentOrders | benchmarks/tpcc.cc:1682-1684 | the scanned window is the district's orders in [next_o_id-20, next_o_id), 20 orders once next_o_id >= 20 |
| StockLevel.WindowItemsInRange | benchmarks/tpcc.cc:1698 | every item in a sane window is a valid item id |
| StockLevel.StockLevelCounts | benchmarks/tpcc.cc:1689-1711 | the result counts the distinct window items whose stock is below the threshold; it is at most the window's item count and grows with the threshold |
| Worker.NewOrderScanCallback.Invoke | benchmarks/tpcc.cc:1213-1238 | the visitor keeps the first key and stops the scan |
| Worker.OrderLineNopCallback.Invoke | benchmarks/tpcc.cc:1499-1518 | the visitor counts each sane line and continues |
| Worker.OrderLineScanCallback.Invoke | benchmarks/tpcc.cc:1625-1648 | the visitor adds each sane line's item to the distinct set and counts it |
| Worker.ChargeCustomer | benchmarks/tpcc.cc:1448-1482 | charging the customer and writing history computes the specified step |
| Worker.ScanOrderLines | benchmarks/tpcc.cc:1289-1295 | the line scan returns the specified delivered lines |
| Worker.StampOrderLines | benchmarks/tpcc.cc:1296-1311 | the stamping loop computes the specified stamped lines and sum |
| Worker.DeliverOrderStep | benchmarks/tpcc.cc:1284-1333 | delivering one order computes the specified effect |
| Worker.FirstPending | benchmarks/tpcc.cc:1270-1280 | the first-match scan of new_order from the cursor returns the specified oldest pending order |
| Worker.DrawCustomerRef | benchmarks/tpcc.cc:1400-1443 | the customer is named by a generated surname or by an id in [1, 3000] |
| Worker.CreditTotals | benchmarks/tpcc.cc:1378-1396 | succeeds iff the warehouse and district rows exist and are sane; then both ytd grow by the amount and the history text is formed from their names |
| Worker.PaymentBody | benchmarks/tpcc.cc:1376-1482 | the Payment body computes the specified effect for a well-formed request |
| Worker.NewOrderBody | benchmarks/tpcc.cc:1060-1196 | the NewOrder body computes the specified effect |
| Worker.PlaceOrderLines | benchmarks/tpcc.cc:1120-1196 | the line loop computes the specified placement |
| Worker.CountOrderLines | benchmarks/tpcc.cc:1606-1611 | the counting scan fails iff a line is insane, else returns the order's line count |
| Worker.OrderStatusBody | benchmarks/tpcc.cc:1539-1611 | the OrderStatus body computes the specified status |
| Worker.LatestOrderId | benchmarks/tpcc.cc:1592-1604 | the latest-key scan of the customer's order index returns the specified latest order |
| Worker.ScanWindow | benchmarks/tpcc.cc:1682-1687 | the window scan returns exactly the order lines in the window |
| Worker.CollectWindowItems | benchmarks/tpcc.cc:1682-1698 | collecting fails iff a window line is insane, else returns the window's distinct items |
| Worker.CountLowStock | benchmarks/tpcc.cc:1696-1711 | the probe loop fails iff a stock row is missing, else counts the items below the threshold |
| Worker.StockLevelBody | benchmarks/tpcc.cc:1670-1711 | the StockLevel body computes the specified count |
| Worker.Worker.constructor | benchmarks/tpcc.cc:349-361 | a worker starts with its warehouse in range, zero cursors and zero counters |
| Worker.Worker.OtherWarehouse | benchmarks/tpcc.cc:1039-1041 | a remote warehouse is in range and differs from the home warehouse |
| Worker.Worker.Finish | benchmarks/tpcc.cc:1199-1209 | commit counts a commit and installs the tables; an abort counts an abort and changes nothing |
| Worker.Worker.DrawNewOrder | benchmarks/tpcc.cc:1029-1045 | the drawn request is well formed, and all_local holds iff every supplier is the home warehouse |
| Worker.Worker.TxnNewOrder | benchmarks/tpcc.cc:1027-1211 | a missing or insane customer, warehouse or district row halts before the clock is read; an abort exception after those reads aborts with the clock and tables unchanged; otherwise the clock is read once and advanced by one modulo 2^32, and the transaction halts iff the specified effect at that reading halts; it halts only when the specified effect halts; a commit installs the effect; otherwise the tables are unchanged and aborts count one more; the worker stays valid |
| NewOrder.HeaderRowsOk | benchmarks/tpcc.cc:1073-1090 | defines the customer, warehouse and district checks NewOrder makes before any write and before the clock is read |
| Worker.Worker.DrawPayment | benchmarks/tpcc.cc:1352-1363 | the drawn districts and warehouses are in range, remote only with several warehouses, and the amount is 1.00 to 5000.00 |
| Worker.Worker.TxnPayment | benchmarks/tpcc.cc:1350-1497 | reads the clock once and advances it by one modulo 2^32; halts iff the specified effect at that reading halts; a commit installs it; otherwise the tables are unchanged and aborts count one more; the worker stays valid |
| Worker.Worker.DeliverDistrictIn | benchmarks/tpcc.cc:1269-1333 | one district: an exception at the scan leaves the cursors, one after the cursor write leaves only d's cursor past the oldest pending order; otherwise it computes the specified district outcome and moves only d's cursor |
| Worker.Worker.DeliverDistricts | benchmarks/tpcc.cc:1267-1334 | the district loop ends with an exception exactly when abort budget was spent, leaving the cursors the specified raise point leaves; otherwise it halts iff the specified Delivery halts, or returns its tables and cursors |
| Worker.Worker.TxnDelivery | benchmarks/tpcc.cc:1243-1347 | carrier in 1..10 and one clock reading (advanced modulo 2^32); an abort exception aborts with the tables unchanged and the cursors as the specified raise point leaves them; otherwise it halts iff the specified effect halts, a commit installs it, and the cursors become the specified ones unless it halts; the worker stays valid |
| Worker.Worker.TxnOrderStatus | benchmarks/tpcc.cc:1524-1623 | returns the specified status, halts iff it is missing, and never changes the tables |
| Worker.Worker.TxnStockLevel | benchmarks/tpcc.cc:1657-1723 | returns the specified count, halts iff it is missing, and never changes the tables |
| LoadRows.ScopeEnd | benchmarks/tpcc.cc:616-619 | a loader handles warehouse_id alone, or all of 1..NumWarehouses when it is -1 |
| LoadRows.OrderLoadedKept | benchmarks/tpcc.cc:947-987 | a loaded order stays loaded while only other orders are inserted |
| LoadRows.OrderRowsKeptTrans | benchmarks/tpcc.cc:947-987 | leaving an order's rows untouched composes across batches |
| LoadRows.IdRange | benchmarks/tpcc.cc:926-928 | the id set is exactly 1..n |
| LoadRows.IdRangeCard | benchmarks/tpcc.cc:926 | 1..n has n elements |
| LoadRows.FullIdRange | benchmarks/tpcc.cc:926-927 | a subset of 1..n with n elements is all of 1..n, so the fill loop stops with every id |
| LoadRows.IdRangeMissing | benchmarks/tpcc.cc:926-927 | while the set is smaller than n some id is still missing |
| LoadRows.AscendingIdRange | benchmarks/tpcc.cc:928-934 | the sorted copy of 1..n has id i+1 at index i, so o_c_id == o_id |
| LoadRows.BatchStartAsWritten | benchmarks/tpcc.cc:633 | the 32-bit start index of a stock batch is below 2^32 |
| LoadRows.BatchStartAsWrittenOdd | benchmarks/tpcc.cc:633 | the 32-bit start is always odd, so never 0, and the loader's item range starts at 1 or above |
| LoadRows.BatchStartWrapsAround | benchmarks/tpcc.cc:631-634 | batches 42950 and 85900 wrap around to start at 32705 and 65409 |
| LoadRows.BatchStart | benchmarks/tpcc.cc:621-633 | in the layout of NBatches = 1000 batches of NumItems/NBatches = 100 items, every batch lies inside 1..100000 |
| LoadRows.BatchOfItem | benchmarks/tpcc.cc:621-633 | every item 1..100000 lies in some batch of that layout |
| LoadRows.BatchesDisjoint | benchmarks/tpcc.cc:621-633 | a later batch starts after an earlier one ends, so no stock row is loaded twice |
| Loaders.DrawStr | benchmarks/tpcc.cc:484 | RandomStr of a length drawn in [lo, hi] has lo-1 to hi-1 characters |
| Loaders.DrawData | benchmarks/tpcc.cc:560-568 | the data column, with or without "ORIGINAL", has 25 to 50 characters |
| Loaders.DrawWarehouse | benchmarks/tpcc.cc:481-497 | a generated warehouse row passes its sanity check and has the loader's field ranges |
| Loaders.DrawItem | benchmarks/tpcc.cc:553-569 | a generated item row passes its sanity check and has the loader's field ranges |
| Loaders.DrawStock | benchmarks/tpcc.cc:636-660 | a generated stock row has quantity 10..100, zero counters, 25..50 data and 23-character dist texts |
| Loaders.DrawDistrict | benchmarks/tpcc.cc:724-734 | a generated district row has the loader's ytd, tax, next_o_id 3001 and text lengths |
| Loaders.DrawCustomer | benchmarks/tpcc.cc:793-826 | a generated customer has its credit, balance and counter constants, a generated surname (the c-1-th for c <= 1000) and the loader's text lengths |
| Loaders.DrawOrderLine | benchmarks/tpcc.cc:966-985 | a generated line has quantity 5; an old order is delivered at entry with amount 0, a new one is undelivered with a positive amount |
| Loaders.LoadWarehouses | benchmarks/tpcc.cc:467-527 | on success warehouses 1..N are loaded rows and nothing else changes; failure means the engine aborted |
| Loaders.LoadItems | benchmarks/tpcc.cc:544-586 | on success items 1..100000 are loaded rows and nothing else changes; failure means the engine aborted |
| Loaders.StageStock | benchmarks/tpcc.cc:633-667 | one batch inserts a loaded stock row for every item of its range and touches nothing else |
| Loaders.LoadWarehouseStock | benchmarks/tpcc.cc:621-682 | the 100000 batches as written (batch 0 inserts every item, wrapped starts insert items again, the rest commit nothing) leave all of one warehouse's stock rows loaded; only its stock rows change; it stops early only on an abort when loading all warehouses |
| Loaders.LoadStock | benchmarks/tpcc.cc:611-693 | on success every in-scope warehouse has all 100000 stock rows loaded and only stock changes |
| Loaders.LoadDistricts | benchmarks/tpcc.cc:710-756 | on success districts 1..10 of every warehouse are loaded rows and only districts change |
| Loaders.StageCustomer | benchmarks/tpcc.cc:793-854 | one customer is inserted with its name index entry and a history row of amount 10.00 whose data has 9 to 23 characters, keyed by the second clock reading |
| Loaders.StageCustomerStep | benchmarks/tpcc.cc:785-856 | after customer c, customers 1..c of the district are loaded |
| Loaders.CustomerLoadedKept | benchmarks/tpcc.cc:785-856 | a loaded customer stays loaded while other districts are loaded |
| Loaders.StageDistrictCustomers | benchmarks/tpcc.cc:785-856 | one district's batch loads customers 1..3000 and leaves other districts' rows alone |
| Loaders.LoadDistrictCustomers | benchmarks/tpcc.cc:783-870 | the district batch is retried until commit; it stops early only on an abort when loading one warehouse |
| Loaders.LoadCustomers | benchmarks/tpcc.cc:778-880 | on success every in-scope district has customers 1..3000 loaded with index and history rows |
| Loaders.FillCustomerIds | benchmarks/tpcc.cc:925-927 | the fill loop ends with exactly the ids 1..3000 |
| Loaders.StageOrder | benchmarks/tpcc.cc:931-988 | one order is loaded with its oorder, index, new_order (ids >= 2101) and 5..15 line rows, and other orders' rows are untouched |
| Loaders.StageOrderLines | benchmarks/tpcc.cc:965-988 | lines 1..ol_cnt of the order are staged, each a sane line with quantity 5, supplier = home warehouse and 23-character dist info, whose delivery date and amount follow the 2101 rule; no other line changes |
| Loaders.LoadOrdersOf | benchmarks/tpcc.cc:929-1000 | orders 1..3000 of a district are loaded with o_c_id == o_id; it stops early only on an abort when loading all warehouses |
| Loaders.LoadDistrictOrders | benchmarks/tpcc.cc:923-1000 | a district's orders are loaded from the sorted id set, so each order's customer is its own id |
| Loaders.LoadOrders | benchmarks/tpcc.cc:907-1005 | on success every in-scope district has orders 1..3000 loaded and only the order tables grow |

## Left out

- Floating point. Prices, amounts, ytd, balances, tax and discount are exact integer cents (or 1/10000 units), so float rounding is not modelled.
- Payment.BadCreditData: the `%f` amount inside the audit note is an arbitrary string parameter. Only the note's layout and its truncation are stated.
- The partial read of the stock quantity through an `int16_t` serializer. StockLevel reads the whole quantity.
- The byte sizes the transactions return (`ret`). A transaction reports `Committed`, `Aborted` or `Halted` instead.
- 32-bit overflow of the counters d_next_o_id, s_ytd, s_order_cnt, s_remote_cnt, c_payment_cnt and the commit and abort counters. The 32-bit arithmetic that is modelled is the clock, the stock loader's batch start (computed as written by `LoadWarehouseStock`), and the unsigned difference in NewOrder's replenishment test (`EnoughStock`, shown by `ShortfallGoesNegative`).
- The engine, its transactions and the record codec (`Encode`/`Decode`, `Size`). An insert on an existing key is modelled as an overwrite, because that case is decided by the engine, which is not part of this model.
- The internals of the engine's `static_limit_callback` and `latest_key_callback`. They are modelled by their effect: the first 15 lines, all names below 512, and the largest key.
- Hash-map iteration order of StockLevel's distinct-item map. The model takes the items in any order (`PickAny`), which does not change the count.
- The fast_random generator. Each draw is any value in its range; a rejection loop draws a run of rejected values of any finite length.
- An abort exception in NewOrder, Payment, OrderStatus or StockLevel thrown before a fatal assertion the body would reach, other than NewOrder's exception between its district checks and its clock reading. The model reports `Halted` whenever the profile would halt.
- Worker.Worker.TxnNewOrder: an abort exception in the header reads themselves (tpcc.cc:1075, 1081, 1087) is reported as the one thrown just after them, which leaves the same state; one thrown after the clock reading is reported at commit time, after the clock has advanced as in the source.
- Loaders.StageDistrictCustomers: the clock is read twice per customer (tpcc.cc:824, 848) and the model advances it by all 6000 readings of the district's batch before the commit. An abort exception partway through the batch leaves the source's clock advanced fewer times.
- CPU pinning, workload weights, the benchmark runner, perf counters and verbose logging.
- The loaders' sanity checks and the warehouse read-back comparison. Both are proved to pass (`DrawWarehouse`, `LoadWarehouses`) rather than checked at run time.

## Findings

| source | as written | input that shows it | evidently intended | confidence | as-written member | corrected member |
|---|---|---|---|---|---|---|
| benchmarks/tpcc.cc:449 | `last_no_o_ids[10]` is indexed by d in 1..10 at lines 1271 and 1282, one past the end for d = 10 | any Delivery that reaches district 10 | one cursor per district 1..10, i.e. 11 slots (or d-1 indexing) | not executed | Delivery.DeclaredCursorsMissDistrictTen | Delivery.CursorSlotsCoverDistricts |
| benchmarks/tpcc.cc:633 | `uint i = b * NItemsPerBatch + 1` wraps around modulo 2^32 while b runs up to 99999; `Loaders.LoadWarehouseStock` runs this loop as written | b = 42950 starts at i = 32705 and b = 85900 at 65409, so those batches re-insert stock rows that batch 0 already loaded | NBatches = 1000 batches of NumItems()/NBatches = 100 items each (the static_asserts at 624-625 require the division to be exact): batch b loads items b*100+1 to b*100+100, so no two batches overlap | not executed | LoadRows.BatchStartWrapsAround | LoadRows.BatchStart |
