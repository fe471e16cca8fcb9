/** Finding the customer of a Payment or OrderStatus request, either by id or
    by surname through customer_name_idx.

    The by-surname scan visits the index entries (w, d, last, first) in
    ascending order of first name and keeps at most 512 of them; there must be
    at least one and fewer than 512, and the entry at the lower middle is
    chosen. */
module CustomerLookup {
  import opened Schema
  import opened OrderedScan
  import opened Generators

  /** The scan limit of the by-surname lookup. */
  const NMaxCustomerIdxScanElems: int := 512

  datatype Lookup =
    | NotFound            // a fatal assertion fails
    | Found(key: CustomerKey, customer: Customer)

  /** How a Payment or OrderStatus request names its customer. */
  datatype CustomerRef = ByLast(last: string) | ByNumber(c: int)

  /** The customer a request names in district (w, d). */
  ghost function Pick(t: Tables, w: int, d: int, ref: CustomerRef): (r: Lookup)
    ensures r.Found? ==> r.key.w == w && r.key.d == d && r.key in t.customer && r.customer == t.customer[r.key]
  {
    match ref
    case ByLast(last) => ByName(t, w, d, last)
    case ByNumber(c) => ById(t, w, d, c)
  }

  /** A lookup reads only customer and customer_name_idx. */
  lemma PickFrame(t: Tables, t': Tables, w: int, d: int, ref: CustomerRef)
    requires t'.customer == t.customer && t'.customerNameIdx == t.customerNameIdx
    ensures Pick(t', w, d, ref) == Pick(t, w, d, ref)
  {
    match ref
    case ByLast(last) =>
      assert FirstNamesUnder(t', w, d, last) == FirstNamesUnder(t, w, d, last);
      assert SortedFirstNames(t', w, d, last) == SortedFirstNames(t, w, d, last);
    case ByNumber(c) =>
  }

  /** The first names indexed under (w, d, last). */
  function FirstNamesUnder(t: Tables, w: int, d: int, last: string): set<string>
  {
    set k | k in t.customerNameIdx && k.w == w && k.d == d && k.last == last :: k.first
  }

  ghost function ById(t: Tables, w: int, d: int, c: int): (r: Lookup)
    ensures r.Found? <==> CustomerKey(w, d, c) in t.customer
    ensures r.Found? ==> r.key == CustomerKey(w, d, c) && r.customer == t.customer[r.key]
  {
    var key := CustomerKey(w, d, c);
    if key in t.customer then Found(key, t.customer[key]) else NotFound
  }

  /** The first names indexed under (w, d, last) in ascending order: the
      order in which the range scan of customer_name_idx visits them. */
  ghost function SortedFirstNames(t: Tables, w: int, d: int, last: string): (r: seq<string>)
    ensures |r| == |FirstNamesUnder(t, w, d, last)|
    ensures forall x :: x in r <==> x in FirstNamesUnder(t, w, d, last)
  {
    StrLessIsStrictTotal();
    Enumerate(FirstNamesUnder(t, w, d, last), StrLess)
  }

  /** The customer picked by surname: among the k index entries under
      (w, d, last), the one at MiddleIndex(k) in first-name order. */
  ghost function ByName(t: Tables, w: int, d: int, last: string): Lookup
  {
    var names := SortedFirstNames(t, w, d, last);
    var k := |names|;
    if k == 0 || k >= NMaxCustomerIdxScanElems then NotFound
    else
      var first := names[MiddleIndex(k)];
      var ik := NameIdxKey(w, d, last, first);
      assert ik in t.customerNameIdx by {
        assert first in FirstNamesUnder(t, w, d, last);
        var k' :| k' in t.customerNameIdx && k'.w == w && k'.d == d && k'.last == last && k'.first == first;
        assert k' == ik;
      }
      ById(t, w, d, t.customerNameIdx[ik])
  }

  /** The i-th sorted first name has i of the matching names before it and
      the rest after it. */
  lemma RankOfSortedName(t: Tables, w: int, d: int, last: string, i: int)
    requires 0 <= i < |FirstNamesUnder(t, w, d, last)|
    ensures var names := FirstNamesUnder(t, w, d, last);
      var first := SortedFirstNames(t, w, d, last)[i];
      && CountBelow(names, StrLess, first) == i
      && CountAbove(names, StrLess, first) == |names| - 1 - i
  {
    StrLessIsStrictTotal();
    RankOfEnumerate(FirstNamesUnder(t, w, d, last), StrLess, i);
  }

  /** A by-surname pick comes from the requested district, is indexed under
      the requested surname, and its first name has exactly MiddleIndex(k)
      of the k matching first names before it and k - 1 - MiddleIndex(k)
      after it: the lower median. */
  lemma ByNamePicksLowerMedian(t: Tables, w: int, d: int, last: string)
    requires ByName(t, w, d, last).Found?
    ensures var names := FirstNamesUnder(t, w, d, last);
      var k := |names|;
      var first := SortedFirstNames(t, w, d, last)[MiddleIndex(k)];
      var ik := NameIdxKey(w, d, last, first);
      && 0 < k < NMaxCustomerIdxScanElems
      && first in names
      && ik in t.customerNameIdx
      && ByName(t, w, d, last).key == CustomerKey(w, d, t.customerNameIdx[ik])
      && CountBelow(names, StrLess, first) == MiddleIndex(k)
      && CountAbove(names, StrLess, first) == k - 1 - MiddleIndex(k)
  {
    var names := FirstNamesUnder(t, w, d, last);
    RankOfSortedName(t, w, d, last, MiddleIndex(|names|));
  }

  /** The by-surname lookup as the worker runs it: a range scan of the index,
      capped at 512 entries, and a point read of the chosen customer. */
  method LookupByName(t: Tables, w: int, d: int, last: string) returns (r: Lookup)
    ensures r == ByName(t, w, d, last)
  {
    StrLessIsStrictTotal();
    var names := Scan(FirstNamesUnder(t, w, d, last), StrLess);
    assert names == SortedFirstNames(t, w, d, last);
    var k := |names|;
    if k == 0 || k >= NMaxCustomerIdxScanElems {
      return NotFound;
    }
    var index := k / 2;
    if k % 2 == 0 {
      index := index - 1;
    }
    var ik := NameIdxKey(w, d, last, names[index]);
    assert ik in t.customerNameIdx by {
      assert names[index] in FirstNamesUnder(t, w, d, last);
    }
    assert index == MiddleIndex(k);
    r := LookupById(t, w, d, t.customerNameIdx[ik]);
  }

  method LookupCustomer(t: Tables, w: int, d: int, ref: CustomerRef) returns (r: Lookup)
    ensures r == Pick(t, w, d, ref)
  {
    match ref
    case ByLast(last) => r := LookupByName(t, w, d, last);
    case ByNumber(c) => r := LookupById(t, w, d, c);
  }

  method LookupById(t: Tables, w: int, d: int, c: int) returns (r: Lookup)
    ensures r == ById(t, w, d, c)
  {
    var key := CustomerKey(w, d, c);
    if key in t.customer {
      r := Found(key, t.customer[key]);
    } else {
      r := NotFound;
    }
  }
}
