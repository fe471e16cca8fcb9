/** The Payment transaction profile (TPC-C clause 2.5): the payment is added
    to the year-to-date totals of the home warehouse and district, charged to
    a customer picked by number or by surname, and recorded in history. */
module Payment {
  import opened Schema
  import opened Checker
  import opened Generators
  import opened CustomerLookup

  /** The draws of one Payment. The customer lives in district `cd` of
      warehouse `cw`; the amount is in cents. */
  datatype Request = Request(d: int, cw: int, cd: int, customer: CustomerRef, amount: int)

  /** What the worker's draws can produce for home warehouse `w`: either the
      home district's own customer, or one from another warehouse. */
  predicate WellFormed(req: Request, w: int, numWarehouses: int)
  {
    && InWarehouseRange(w, numWarehouses)
    && InDistrictRange(req.d)
    && InWarehouseRange(req.cw, numWarehouses) && InDistrictRange(req.cd)
    && ((req.cw == w && req.cd == req.d) || req.cw != w)
    && (numWarehouses == 1 ==> req.cw == w)
    && 100 <= req.amount <= 500000
    && match req.customer
       case ByLast(last) => exists num :: 0 <= num <= 999 && last == CustomerLastName(num)
       case ByNumber(c) => InCustomerRange(c)
  }

  // ------------------------------------------------------------ texts

  /** The first n characters of s, or all of s when it is shorter. */
  function Prefix(s: string, n: nat): (r: string)
    ensures |r| <= n && |r| <= |s|
    ensures |s| <= n ==> r == s
    ensures r == s[..|r|]
  {
    if |s| <= n then s else s[..n]
  }

  /** Decimal rendering of an integer, as `%d` prints it. */
  function IntText(n: int): (r: string)
    ensures |r| >= 1
    decreases if n < 0 then 1 - n else n
  {
    if n < 0 then "-" + IntText(-n)
    else if n < 10 then [('0' as int + n) as char]
    else IntText(n / 10) + [('0' as int + n % 10) as char]
  }

  /** The history text `%.10s    %.10s` of the warehouse and district names. */
  function HistoryText(warehouseName: string, districtName: string): string
  {
    Prefix(Prefix(warehouseName, 10) + "    " + Prefix(districtName, 10), HistoryDataMaxSize)
  }

  /** The history text is never cut by the 24-character limit: it is the two
      name prefixes separated by four spaces. */
  lemma HistoryTextFits(warehouseName: string, districtName: string)
    ensures var text := Prefix(warehouseName, 10) + "    " + Prefix(districtName, 10);
      && HistoryText(warehouseName, districtName) == text
      && 4 <= |text| <= HistoryDataMaxSize
      && text[|Prefix(warehouseName, 10)|..|Prefix(warehouseName, 10)| + 4] == "    "
  {
  }

  /** A customer with bad credit: the first two characters of c_credit are "BC". */
  predicate BadCredit(c: Customer)
  {
    |c.credit| >= 2 && c.credit[0] == 'B' && c.credit[1] == 'C'
  }

  /** The audit line `%d %d %d %d %d %f | %s` put in front of a bad-credit
      customer's data. The rendering of the float amount is a parameter. */
  function AuditNote(key: CustomerKey, d: int, w: int, amountText: string, data: string): string
  {
    IntText(key.c) + " " + IntText(key.d) + " " + IntText(key.w) + " "
      + IntText(d) + " " + IntText(w) + " " + amountText + " | " + data
  }

  // ------------------------------------------------------- the profile

  /** The customer row after the payment. */
  function Charged(c: Customer, key: CustomerKey, req: Request, w: int, amountText: string): Customer
  {
    c.(balance := c.balance - req.amount,
       ytdPayment := c.ytdPayment + req.amount,
       paymentCnt := c.paymentCnt + 1,
       data := if BadCredit(c) then Prefix(AuditNote(key, req.d, w, amountText, c.data), CustomerDataMaxSize)
               else c.data)
  }

  /** The customer step of Payment on image t: the picked customer is
      charged and a history row with text `note` records the payment. */
  ghost function ChargeStep(t: Tables, w: int, numWarehouses: int, req: Request, ts: int, amountText: string, note: string): Effect
  {
    var pick := Pick(t, req.cw, req.cd, req.customer);
    if pick.NotFound? || !CustomerOk(pick.key, pick.customer, numWarehouses) then Halt
    else
      var key := pick.key;
      var hk := HistoryKey(key.d, key.w, key.c, req.d, w, ts);
      Done(t.(customer := t.customer[key := Charged(pick.customer, key, req, w, amountText)],
              history := t.history[hk := History(req.amount, note)]))
  }

  /** The whole body of Payment for home warehouse w at time ts: the
      warehouse and district totals grow, then the customer step runs. */
  ghost function PaymentEffect(t: Tables, w: int, numWarehouses: int, req: Request, ts: int, amountText: string): Effect
    requires WellFormed(req, w, numWarehouses)
  {
    var dk := DistrictKey(w, req.d);
    if w !in t.warehouse || !WarehouseOk(w, t.warehouse[w], numWarehouses) then Halt
    else if dk !in t.district || !DistrictOk(dk, t.district[dk], numWarehouses) then Halt
    else
      ChargeStep(Credited(t, w, dk, req.amount), w, numWarehouses, req, ts, amountText,
                 HistoryText(t.warehouse[w].name, t.district[dk].name))
  }

  /** The image with the amount added to the warehouse's and district's ytd. */
  function Credited(t: Tables, w: int, dk: DistrictKey, amount: int): Tables
    requires w in t.warehouse && dk in t.district
  {
    t.(warehouse := t.warehouse[w := t.warehouse[w].(ytd := t.warehouse[w].ytd + amount)],
       district := t.district[dk := t.district[dk].(ytd := t.district[dk].ytd + amount)])
  }

  /** When the warehouse and district pass their checks, Payment is the
      customer step on the image with the totals grown. */
  lemma PaymentEffectUnfold(t: Tables, w: int, numWarehouses: int, req: Request, ts: int, amountText: string)
    requires WellFormed(req, w, numWarehouses)
    requires w in t.warehouse && WarehouseOk(w, t.warehouse[w], numWarehouses)
    requires DistrictKey(w, req.d) in t.district
    requires DistrictOk(DistrictKey(w, req.d), t.district[DistrictKey(w, req.d)], numWarehouses)
    ensures var dk := DistrictKey(w, req.d);
      PaymentEffect(t, w, numWarehouses, req, ts, amountText) ==
        ChargeStep(Credited(t, w, dk, req.amount), w, numWarehouses, req, ts, amountText,
                   HistoryText(t.warehouse[w].name, t.district[dk].name))
  {
  }

  // -------------------------------------------------------- properties

  /** Payment's committed effects: the home warehouse's and district's ytd
      grow by the amount; the picked customer's balance drops by it, its ytd
      payment grows by it and its payment count by one, its delivery count
      and every other field but c_data stay; c_data changes only for bad
      credit; one history row keyed by customer, district, warehouse and
      time records the amount; nothing else changes. */
  lemma PaymentCommitEffects(t: Tables, w: int, numWarehouses: int, req: Request, ts: int, amountText: string)
    requires WellFormed(req, w, numWarehouses)
    requires PaymentEffect(t, w, numWarehouses, req, ts, amountText).Done?
    ensures var t' := PaymentEffect(t, w, numWarehouses, req, ts, amountText).tables;
      var dk := DistrictKey(w, req.d);
      var pick := Pick(t, req.cw, req.cd, req.customer);
      var key := pick.key;
      var c := t.customer[key];
      && pick.Found? && key.w == req.cw && key.d == req.cd && key in t.customer
      && w in t.warehouse && dk in t.district
      && t'.warehouse == t.warehouse[w := t.warehouse[w].(ytd := t.warehouse[w].ytd + req.amount)]
      && t'.district == t.district[dk := t.district[dk].(ytd := t.district[dk].ytd + req.amount)]
      && t'.customer.Keys == t.customer.Keys
      && (forall k :: k in t.customer && k != key ==> t'.customer[k] == t.customer[k])
      && t'.customer[key].balance == c.balance - req.amount
      && t'.customer[key].ytdPayment == c.ytdPayment + req.amount
      && t'.customer[key].paymentCnt == c.paymentCnt + 1
      && t'.customer[key].deliveryCnt == c.deliveryCnt
      && t'.customer[key] == c.(balance := t'.customer[key].balance, ytdPayment := t'.customer[key].ytdPayment,
                                paymentCnt := t'.customer[key].paymentCnt, data := t'.customer[key].data)
      && (!BadCredit(c) ==> t'.customer[key].data == c.data)
      && t'.history == t.history[HistoryKey(key.d, key.w, key.c, req.d, w, ts) :=
           History(req.amount, HistoryText(t.warehouse[w].name, t.district[dk].name))]
      && t'.item == t.item && t'.stock == t.stock && t'.newOrder == t.newOrder
      && t'.oorder == t.oorder && t'.oorderCIdIdx == t.oorderCIdIdx && t'.orderLine == t.orderLine
      && t'.customerNameIdx == t.customerNameIdx
  {
    var dk := DistrictKey(w, req.d);
    PickFrame(t, Credited(t, w, dk, req.amount), req.cw, req.cd, req.customer);
  }

  /** A bad-credit customer's new c_data is the audit line followed by the
      old data, cut to 500 characters: at most 500 long, and starting with
      the old data's audit prefix. */
  lemma BadCreditData(c: Customer, key: CustomerKey, req: Request, w: int, amountText: string)
    requires BadCredit(c)
    ensures var note := AuditNote(key, req.d, w, amountText, c.data);
      var data := Charged(c, key, req, w, amountText).data;
      && |data| <= CustomerDataMaxSize
      && data == note[..|data|]
      && (|note| <= CustomerDataMaxSize ==> data == note)
      && (|note| > CustomerDataMaxSize ==> |data| == CustomerDataMaxSize)
  {
  }

  /** The same amount is added to the warehouse and district totals, taken
      from the customer's balance and written into the history row. */
  lemma PaymentBalances(t: Tables, w: int, numWarehouses: int, req: Request, ts: int, amountText: string)
    requires WellFormed(req, w, numWarehouses)
    requires PaymentEffect(t, w, numWarehouses, req, ts, amountText).Done?
    ensures var t' := PaymentEffect(t, w, numWarehouses, req, ts, amountText).tables;
      var dk := DistrictKey(w, req.d);
      var key := Pick(t, req.cw, req.cd, req.customer).key;
      var hk := HistoryKey(key.d, key.w, key.c, req.d, w, ts);
      && key in t.customer && key in t'.customer && hk in t'.history
      && t'.warehouse[w].ytd - t.warehouse[w].ytd == req.amount
      && t'.district[dk].ytd - t.district[dk].ytd == req.amount
      && t.customer[key].balance - t'.customer[key].balance == req.amount
      && t'.history[hk].amount == req.amount
  {
    PaymentCommitEffects(t, w, numWarehouses, req, ts, amountText);
  }

  /** A committed Payment leaves every sanity check passing. */
  lemma PaymentPreservesSanity(t: Tables, w: int, numWarehouses: int, req: Request, ts: int, amountText: string)
    requires WellFormed(req, w, numWarehouses) && TablesSane(t, numWarehouses)
    requires PaymentEffect(t, w, numWarehouses, req, ts, amountText).Done?
    ensures TablesSane(PaymentEffect(t, w, numWarehouses, req, ts, amountText).tables, numWarehouses)
  {
    var dk := DistrictKey(w, req.d);
    TotalsSane(t, w, dk, req.amount, numWarehouses);
    ChargeStepSane(Credited(t, w, dk, req.amount), w, numWarehouses, req, ts, amountText,
                   HistoryText(t.warehouse[w].name, t.district[dk].name));
  }

  /** Growing the warehouse and district totals keeps every table sane. */
  lemma TotalsSane(t: Tables, w: int, dk: DistrictKey, amount: int, numWarehouses: int)
    requires TablesSane(t, numWarehouses) && w in t.warehouse && dk in t.district
    ensures TablesSane(Credited(t, w, dk, amount), numWarehouses)
  {
  }

  /** Charging a sane customer keeps every table sane. */
  lemma ChargeStepSane(t: Tables, w: int, numWarehouses: int, req: Request, ts: int, amountText: string, note: string)
    requires TablesSane(t, numWarehouses)
    requires ChargeStep(t, w, numWarehouses, req, ts, amountText, note).Done?
    ensures TablesSane(ChargeStep(t, w, numWarehouses, req, ts, amountText, note).tables, numWarehouses)
  {
  }
}
