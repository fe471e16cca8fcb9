/** The TPC-C schema: configuration constants, the key and value records of the
    eleven tables, and the database image as a value.

    Money is kept in integer cents and tax and discount rates in units of
    1/10000, where the benchmark uses floats. Keys compare lexicographically
    field by field, which is the order their encoded byte strings have in the
    storage engine. */
module Schema {

  datatype Option<T> = None | Some(value: T)

  // Configuration constants. The number of warehouses is the scale factor, a
  // run-time parameter, and is passed around as `numWarehouses`.
  const NumItems: int := 100000
  const NumDistrictsPerWarehouse: int := 10
  const NumCustomersPerDistrict: int := 3000
  const Int32Max: int := 0x7fff_ffff

  /** Orders with an id below this were delivered at load time. */
  const FirstUndeliveredOrderId: int := 2101

  /** Maximum sizes of the variable-length text fields written by the transactions. */
  const CustomerDataMaxSize: int := 500
  const HistoryDataMaxSize: int := 24

  // ---------------------------------------------------------------- keys

  datatype DistrictKey = DistrictKey(w: int, d: int)
  datatype CustomerKey = CustomerKey(w: int, d: int, c: int)
  /** customer_name_idx: (c_w_id, c_d_id, c_last, c_first) -> c_id */
  datatype NameIdxKey = NameIdxKey(w: int, d: int, last: string, first: string)
  /** history: (h_c_d_id, h_c_w_id, h_c_id, h_d_id, h_w_id, h_date) */
  datatype HistoryKey = HistoryKey(cd: int, cw: int, c: int, d: int, w: int, date: int)
  datatype StockKey = StockKey(w: int, i: int)
  /** The key of both new_order and oorder. */
  datatype OrderKey = OrderKey(w: int, d: int, o: int)
  /** oorder_c_id_idx: (o_w_id, o_d_id, o_c_id, o_id) */
  datatype CIdIdxKey = CIdIdxKey(w: int, d: int, c: int, o: int)
  datatype OrderLineKey = OrderLineKey(w: int, d: int, o: int, n: int)

  // -------------------------------------------------------------- values

  datatype Warehouse = Warehouse(
    ytd: int, tax: int,
    name: string, street1: string, street2: string, city: string, state: string, zip: string)

  datatype District = District(
    ytd: int, tax: int, nextOId: int,
    name: string, street1: string, street2: string, city: string, state: string, zip: string)

  datatype Customer = Customer(
    discount: int, credit: string, last: string, middle: string, first: string,
    creditLim: int, balance: int, ytdPayment: int, paymentCnt: int, deliveryCnt: int,
    street1: string, street2: string, city: string, state: string, zip: string,
    phone: string, since: int, data: string)

  datatype History = History(amount: int, data: string)

  datatype Item = Item(name: string, price: int, data: string, imId: int)

  datatype Stock = Stock(
    quantity: int, ytd: int, orderCnt: int, remoteCnt: int, data: string,
    dist01: string, dist02: string, dist03: string, dist04: string, dist05: string,
    dist06: string, dist07: string, dist08: string, dist09: string, dist10: string)

  datatype OOrder = OOrder(cId: int, carrierId: int, olCnt: int, allLocal: bool, entryD: int)

  datatype OrderLine = OrderLine(
    iId: int, deliveryD: int, amount: int, supplyWId: int, quantity: int, distInfo: string)

  /** The whole database image. new_order and oorder_c_id_idx carry an empty
      marker value, so they are sets of keys. */
  datatype Tables = Tables(
    warehouse: map<int, Warehouse>,
    district: map<DistrictKey, District>,
    customer: map<CustomerKey, Customer>,
    customerNameIdx: map<NameIdxKey, int>,
    history: map<HistoryKey, History>,
    item: map<int, Item>,
    stock: map<StockKey, Stock>,
    newOrder: set<OrderKey>,
    oorder: map<OrderKey, OOrder>,
    oorderCIdIdx: set<CIdIdxKey>,
    orderLine: map<OrderLineKey, OrderLine>)

  /** The outcome of running a read-write transaction body on an image: a
      fatal assertion fails, or the body completes with a staged image. */
  datatype Effect = Halt | Done(tables: Tables)

  /** The line numbers of order (w, d, o) in [0, 2^31 - 1): what a scan of
      order_line from (w, d, o, 0) to (w, d, o, 2^31 - 1) visits, in
      ascending order, since those keys share their first three fields. */
  function LineNumbers(ol: map<OrderLineKey, OrderLine>, w: int, d: int, o: int): set<int>
  {
    set k | k in ol && k.w == w && k.d == d && k.o == o && 0 <= k.n < Int32Max :: k.n
  }

  const EmptyTables: Tables := Tables(map[], map[], map[], map[], map[], map[], map[], {}, map[], {}, map[])
}
