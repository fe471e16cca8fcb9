/** Ordered range scans. The storage engine visits the keys of a range in
    ascending order; here a scan is the ascending enumeration of the finite set
    of keys that fall in the range, under a strict total order on keys. */
module OrderedScan {

  ghost predicate StrictTotalOrder<K(!new)>(lt: (K, K) -> bool)
  {
    && (forall a :: !lt(a, a))
    && (forall a, b, c :: lt(a, b) && lt(b, c) ==> lt(a, c))
    && (forall a, b :: a != b ==> lt(a, b) || lt(b, a))
  }

  /** Strictly ascending under `lt`. */
  predicate Ascending<K>(r: seq<K>, lt: (K, K) -> bool)
  {
    forall i, j :: 0 <= i < j < |r| ==> lt(r[i], r[j])
  }

  /** Holds the same elements as `s`. */
  ghost predicate Enumerates<K(!new)>(r: seq<K>, s: set<K>)
  {
    forall x :: x in r <==> x in s
  }

  /** `m` comes before every other element of `s`. */
  ghost predicate IsMinimum<K(!new)>(m: K, s: set<K>, lt: (K, K) -> bool)
  {
    forall y :: y in s && y != m ==> lt(m, y)
  }

  lemma {:induction false} MinimumExists<K(!new)>(s: set<K>, lt: (K, K) -> bool)
    requires StrictTotalOrder(lt) && s != {}
    ensures exists m :: m in s && IsMinimum(m, s, lt)
    decreases |s|
  {
    var x :| x in s;
    if s == {x} {
      assert IsMinimum(x, s, lt);
    } else {
      var rest := s - {x};
      MinimumExists(rest, lt);
      var m :| m in rest && IsMinimum(m, rest, lt);
      if lt(x, m) {
        forall y | y in s && y != x ensures lt(x, y) {
          if y != m { assert lt(m, y); }
        }
        assert IsMinimum(x, s, lt);
      } else {
        assert lt(m, x) by { assert m != x; }
        assert IsMinimum(m, s, lt);
      }
    }
  }

  /** The ascending enumeration of a finite key set: the order in which a
      range scan visits the keys in the range. */
  ghost function Enumerate<K(!new)>(s: set<K>, lt: (K, K) -> bool): (r: seq<K>)
    requires StrictTotalOrder(lt)
    ensures Ascending(r, lt) && Enumerates(r, s) && |r| == |s|
    decreases |s|
  {
    if s == {} then []
    else
      MinimumExists(s, lt);
      var m :| m in s && IsMinimum(m, s, lt);
      var rest := Enumerate(s - {m}, lt);
      assert forall x :: x in rest ==> lt(m, x);
      [m] + rest
  }

  /** The head of an ascending sequence comes before all its other elements. */
  lemma HeadFirst<K(!new)>(r: seq<K>, lt: (K, K) -> bool)
    requires Ascending(r, lt) && r != []
    ensures forall x :: x in r ==> x == r[0] || lt(r[0], x)
  {
  }

  /** An ascending sequence is determined by the set of its elements. */
  lemma {:induction false} AscendingUnique<K(!new)>(r1: seq<K>, r2: seq<K>, lt: (K, K) -> bool)
    requires StrictTotalOrder(lt)
    requires Ascending(r1, lt) && Ascending(r2, lt)
    requires forall x :: x in r1 <==> x in r2
    ensures r1 == r2
    decreases |r1|
  {
    assert r1 != [] ==> r1[0] in r2;
    assert r2 != [] ==> r2[0] in r1;
    if r1 != [] && r2 != [] {
      HeadFirst(r1, lt);
      HeadFirst(r2, lt);
      assert r1[0] in r2 && r2[0] in r1;
      assert r1[0] == r2[0];
      forall x ensures x in r1[1..] <==> x in r2[1..] {
        if x in r1[1..] {
          var i :| 1 <= i < |r1| && r1[i] == x;
          assert lt(r1[0], x);
          assert x in r1 && x in r2;
          var j :| 0 <= j < |r2| && r2[j] == x;
          assert j != 0;
          assert r2[1..][j - 1] == x;
        }
        if x in r2[1..] {
          var j :| 1 <= j < |r2| && r2[j] == x;
          assert lt(r2[0], x);
          assert x in r2 && x in r1;
          var i :| 0 <= i < |r1| && r1[i] == x;
          assert i != 0;
          assert r1[1..][i - 1] == x;
        }
      }
      AscendingUnique(r1[1..], r2[1..], lt);
      assert r1 == [r1[0]] + r1[1..];
      assert r2 == [r2[0]] + r2[1..];
    }
  }

  /** Inserts `x` into an ascending sequence that does not hold it. */
  function Insert<K(!new)>(r: seq<K>, x: K, lt: (K, K) -> bool): (r': seq<K>)
    requires StrictTotalOrder(lt) && Ascending(r, lt) && x !in r
    ensures Ascending(r', lt)
    ensures forall y :: y in r' <==> y in r || y == x
    ensures |r'| == |r| + 1
    decreases |r|
  {
    if r == [] then [x]
    else if lt(x, r[0]) then
      assert forall i :: 0 <= i < |r| ==> lt(x, r[i]) by {
        forall i | 0 <= i < |r| ensures lt(x, r[i]) { if i > 0 { assert lt(r[0], r[i]); } }
      }
      [x] + r
    else
      assert lt(r[0], x) by { assert x != r[0]; }
      var tail := Insert(r[1..], x, lt);
      assert forall y :: y in tail ==> lt(r[0], y) by {
        forall y | y in tail ensures lt(r[0], y) {
          if y != x { var i :| 1 <= i < |r| && r[i] == y; }
        }
      }
      [r[0]] + tail
  }

  /** The engine's range scan: the keys of `s` in ascending order. */
  method Scan<K(==,!new)>(s: set<K>, lt: (K, K) -> bool) returns (r: seq<K>)
    requires StrictTotalOrder(lt)
    ensures r == Enumerate(s, lt)
  {
    r := [];
    var rest := s;
    while rest != {}
      invariant rest <= s
      invariant Ascending(r, lt)
      invariant forall x :: x in r <==> x in s && x !in rest
      decreases |rest|
    {
      var x :| x in rest;
      r := Insert(r, x, lt);
      rest := rest - {x};
    }
    AscendingUnique(r, Enumerate(s, lt), lt);
  }

  /** A scan of integer keys: each key of `s` once, in ascending order. */
  method ScanInts(s: set<int>) returns (r: seq<int>)
    ensures forall x :: x in r <==> x in s
    ensures |r| == |s|
    ensures forall i, j :: 0 <= i < j < |r| ==> r[i] < r[j]
  {
    IntLessIsStrictTotal();
    r := Scan(s, IntLess);
  }

  /** The elements of `r` before position `i`. */
  function Before<K>(r: seq<K>, i: int): set<K>
    requires 0 <= i <= |r|
  {
    set j | 0 <= j < i :: r[j]
  }

  /** In an ascending sequence exactly the first `i` elements come before
      `r[i]`. */
  lemma {:induction false} RankInAscending<K(!new)>(r: seq<K>, lt: (K, K) -> bool, i: int)
    requires StrictTotalOrder(lt) && Ascending(r, lt) && 0 <= i < |r|
    ensures (set x | x in r && lt(x, r[i])) == Before(r, i)
    ensures |Before(r, i)| == i
  {
    forall j | i <= j < |r| ensures !lt(r[j], r[i]) {
      if j > i { assert lt(r[i], r[j]); }
    }
    forall x | x in r && lt(x, r[i]) ensures x in Before(r, i) {
      var j :| 0 <= j < |r| && r[j] == x;
      assert j < i;
    }
    BeforeCard(r, lt, i);
  }

  lemma {:induction false} BeforeCard<K(!new)>(r: seq<K>, lt: (K, K) -> bool, i: int)
    requires StrictTotalOrder(lt) && Ascending(r, lt) && 0 <= i <= |r|
    ensures |Before(r, i)| == i
    decreases i
  {
    if i > 0 {
      BeforeCard(r, lt, i - 1);
      assert Before(r, i) == Before(r, i - 1) + {r[i - 1]};
      assert r[i - 1] !in Before(r, i - 1) by {
        forall j | 0 <= j < i - 1 ensures r[j] != r[i - 1] {
          assert lt(r[j], r[i - 1]);
        }
      }
    }
  }

  /** The elements of `r` after position `i`. */
  function After<K>(r: seq<K>, i: int): set<K>
    requires -1 <= i < |r|
  {
    set j | i < j < |r| :: r[j]
  }

  lemma {:induction false} AfterCard<K(!new)>(r: seq<K>, lt: (K, K) -> bool, i: int)
    requires StrictTotalOrder(lt) && Ascending(r, lt) && -1 <= i < |r|
    ensures |After(r, i)| == |r| - 1 - i
    decreases |r| - i
  {
    if i < |r| - 1 {
      AfterCard(r, lt, i + 1);
      assert After(r, i) == After(r, i + 1) + {r[i + 1]};
      assert r[i + 1] !in After(r, i + 1) by {
        forall j | i + 1 < j < |r| ensures r[j] != r[i + 1] {
          assert lt(r[i + 1], r[j]);
        }
      }
    }
  }

  /** Exactly the elements after position `i` come after `r[i]`. */
  lemma {:induction false} AfterCount<K(!new)>(r: seq<K>, lt: (K, K) -> bool, i: int)
    requires StrictTotalOrder(lt) && Ascending(r, lt) && 0 <= i < |r|
    ensures |set x | x in r && lt(r[i], x)| == |r| - 1 - i
  {
    forall j | 0 <= j <= i ensures !lt(r[i], r[j]) {
      if j < i { assert lt(r[j], r[i]); }
    }
    forall x | x in r && lt(r[i], x) ensures x in After(r, i) {
      var j :| 0 <= j < |r| && r[j] == x;
      assert i < j;
    }
    assert (set x | x in r && lt(r[i], x)) == After(r, i);
    AfterCard(r, lt, i);
  }

  /** Counting over a set and over a sequence that enumerates it agree. */
  lemma CountsOfEnumeration<K(!new)>(r: seq<K>, s: set<K>, lt: (K, K) -> bool, x: K)
    requires Enumerates(r, s)
    ensures CountBelow(s, lt, x) == |set y | y in r && lt(y, x)|
    ensures CountAbove(s, lt, x) == |set y | y in r && lt(x, y)|
  {
    assert (set y | y in s && lt(y, x)) == (set y | y in r && lt(y, x));
    assert (set y | y in s && lt(x, y)) == (set y | y in r && lt(x, y));
  }

  /** How many elements of `s` come before `x`. */
  function CountBelow<K(!new)>(s: set<K>, lt: (K, K) -> bool, x: K): nat
  {
    |set y | y in s && lt(y, x)|
  }

  /** How many elements of `s` come after `x`. */
  function CountAbove<K(!new)>(s: set<K>, lt: (K, K) -> bool, x: K): nat
  {
    |set y | y in s && lt(x, y)|
  }

  /** The element at position `i` of the ascending enumeration of `s` has
      `i` elements of `s` before it and the rest after it. */
  lemma RankOfEnumerate<K(!new)>(s: set<K>, lt: (K, K) -> bool, i: int)
    requires StrictTotalOrder(lt) && 0 <= i < |s|
    ensures Enumerate(s, lt)[i] in s
    ensures CountBelow(s, lt, Enumerate(s, lt)[i]) == i
    ensures CountAbove(s, lt, Enumerate(s, lt)[i]) == |s| - 1 - i
  {
    var r := Enumerate(s, lt);
    RankInAscending(r, lt, i);
    AfterCount(r, lt, i);
    CountsOfEnumeration(r, s, lt, r[i]);
  }

  // ------------------------------------------------- the orders used here

  function IntLess(a: int, b: int): bool { a < b }

  lemma IntLessIsStrictTotal()
    ensures StrictTotalOrder(IntLess)
  {
  }

  /** Lexicographic order on strings: a proper prefix comes first. This is the
      order of the zero-padded fixed-width byte strings the engine compares,
      for strings without NUL characters. */
  predicate StrLess(a: string, b: string)
    decreases |a|
  {
    if a == [] then b != []
    else if b == [] then false
    else if a[0] != b[0] then a[0] < b[0]
    else StrLess(a[1..], b[1..])
  }

  lemma {:induction false} StrLessIrreflexive(a: string)
    ensures !StrLess(a, a)
    decreases |a|
  {
    if a != [] { StrLessIrreflexive(a[1..]); }
  }

  lemma {:induction false} StrLessTransitive(a: string, b: string, c: string)
    requires StrLess(a, b) && StrLess(b, c)
    ensures StrLess(a, c)
    decreases |a|
  {
    if a != [] && b != [] && c != [] && a[0] == b[0] && b[0] == c[0] {
      StrLessTransitive(a[1..], b[1..], c[1..]);
    }
  }

  lemma {:induction false} StrLessTotal(a: string, b: string)
    requires a != b
    ensures StrLess(a, b) || StrLess(b, a)
    decreases |a|
  {
    if a != [] && b != [] && a[0] == b[0] {
      assert a == [a[0]] + a[1..];
      assert b == [b[0]] + b[1..];
      StrLessTotal(a[1..], b[1..]);
    }
  }

  lemma StrLessIsStrictTotal()
    ensures StrictTotalOrder(StrLess)
  {
    forall a ensures !StrLess(a, a) { StrLessIrreflexive(a); }
    forall a, b, c | StrLess(a, b) && StrLess(b, c) ensures StrLess(a, c) {
      StrLessTransitive(a, b, c);
    }
    forall a, b | a != b ensures StrLess(a, b) || StrLess(b, a) { StrLessTotal(a, b); }
  }
}
