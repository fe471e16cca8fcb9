/** The benchmark's random-number and string generators.

    The underlying uniform generator is abstract: a draw in [min, max] may be
    any value in that range, and a raw character or 64-bit draw may be any
    value. Everything built on top of the draws (the non-uniform NURand
    distribution, surnames, alphanumeric and digit strings) is modelled as the
    benchmark computes it. */
module Generators {
  import opened Schema

  // ------------------------------------------------------------ draws

  /** A uniform draw in [min, max]. */
  method RandomNumber(min: int, max: int) returns (x: int)
    requires min <= max
    ensures min <= x <= max
  {
    var y :| min <= y <= max;
    x := y;
  }

  /** A uniform draw in [min, max] inside a retry loop that rejects `avoid`.
      `run` counts how many more draws hit `avoid` before one misses it, so
      the draw is `avoid` exactly when `run` is positive. */
  method RandomNumberRun(min: int, max: int, avoid: int, run: nat) returns (x: int)
    requires min <= avoid <= max && min < max
    ensures min <= x <= max
    ensures x == avoid <==> run > 0
  {
    if run > 0 {
      x := avoid;
    } else {
      var y :| min <= y <= max && y != avoid by {
        if avoid == min { assert min + 1 <= max; } else { assert min != avoid; }
      }
      x := y;
    }
  }

  /** A raw 64-bit draw. */
  method NextRaw() returns (x: int)
    ensures 0 <= x < 0x1_0000_0000_0000_0000
  {
    var y :| 0 <= y < 0x1_0000_0000_0000_0000;
    x := y;
  }

  /** Any element of a non-empty set: which one the benchmark meets first
      (the iteration order of a hash set, say) is not modelled. */
  method PickAny<K>(s: set<K>) returns (x: K)
    requires s != {}
    ensures x in s
  {
    x :| x in s;
  }

  /** Alphanumeric in the C locale, as `isalnum` decides it. */
  predicate IsAlnum(c: char)
  {
    '0' <= c <= '9' || 'A' <= c <= 'Z' || 'a' <= c <= 'z'
  }

  predicate IsDigit(c: char)
  {
    '0' <= c <= '9'
  }

  /** A raw character of the generator's stream. `run` counts how many more
      non-alphanumeric characters the stream yields before its next
      alphanumeric one, so the character is alphanumeric exactly when `run`
      is zero. */
  method NextChar(run: nat) returns (c: char)
    ensures IsAlnum(c) <==> run == 0
  {
    if run == 0 {
      assert IsAlnum('a');
      var a :| IsAlnum(a);
      c := a;
    } else {
      assert !IsAlnum('!');
      var b :| !IsAlnum(b) && b < 256 as char;
      c := b;
    }
  }

  // ------------------------------------------------------------ NURand

  /** Bitwise OR of two non-negative integers (C's `|` on non-negative ints). */
  function BitOr(a: nat, b: nat): nat
    decreases a + b
  {
    if a == 0 then b
    else if b == 0 then a
    else 2 * BitOr(a / 2, b / 2) + (if a % 2 == 1 || b % 2 == 1 then 1 else 0)
  }

  function Pow2(k: nat): (p: nat)
    ensures p >= 1
  {
    if k == 0 then 1 else 2 * Pow2(k - 1)
  }

  /** Bit `i` of `n`. */
  function Bit(n: nat, i: nat): nat
  {
    (n / Pow2(i)) % 2
  }

  /** BitOr sets exactly the bits set in either operand. */
  lemma {:induction false} BitOrBits(a: nat, b: nat, i: nat)
    ensures Bit(BitOr(a, b), i) == 1 <==> Bit(a, i) == 1 || Bit(b, i) == 1
    decreases i
  {
    var n := BitOr(a, b);
    if a == 0 || b == 0 {
      assert n == if a == 0 then b else a;
    } else {
      var e := if a % 2 == 1 || b % 2 == 1 then 1 else 0;
      assert n == 2 * BitOr(a / 2, b / 2) + e;
      assert n / 2 == BitOr(a / 2, b / 2) && n % 2 == e;
      if i == 0 {
        assert Pow2(0) == 1;
        assert Bit(n, 0) == e && Bit(a, 0) == a % 2 && Bit(b, 0) == b % 2;
      } else {
        BitOrBits(a / 2, b / 2, i - 1);
        HalveBit(a, i);
        HalveBit(b, i);
        HalveBit(n, i);
      }
    }
  }

  lemma HalveBit(n: nat, i: nat)
    requires i > 0
    ensures Bit(n, i) == Bit(n / 2, i - 1)
  {
    DivHalf(n, Pow2(i - 1));
  }

  lemma MulAtLeast(a: int, d: int)
    requires a >= 1 && d > 0
    ensures a * d >= d
  {
    assert (a - 1) * d >= 0;
    assert a * d == (a - 1) * d + d;
  }

  lemma DivUnique(n: int, d: int, q: int, r: int)
    requires d > 0 && 0 <= r < d && n == q * d + r
    ensures n / d == q
  {
    var q' := n / d;
    var r' := n % d;
    assert n == q' * d + r';
    assert q * d - q' * d == r' - r;
    assert (q - q') * d == q * d - q' * d;
    assert (q' - q) * d == q' * d - q * d;
    if q > q' {
      MulAtLeast(q - q', d);
    } else if q < q' {
      MulAtLeast(q' - q, d);
    }
  }

  lemma DivHalf(n: nat, m: nat)
    requires m > 0
    ensures n / (2 * m) == (n / 2) / m
  {
    var q := (n / 2) / m;
    var r := (n / 2) % m;
    assert n / 2 == q * m + r;
    assert n == q * (2 * m) + (2 * r + n % 2);
    DivUnique(n, 2 * m, q, 2 * r + n % 2);
  }

  /** The powers of two the NURand bounds are checked against. */
  lemma Pow2Values()
    ensures Pow2(10) == 1024 && Pow2(12) == 4096 && Pow2(17) == 131072
    ensures Pow2(30) == 0x4000_0000
  {
    assert Pow2(10) == 1024;
    assert Pow2(20) == 1024 * 1024;
  }

  /** OR of two values below 2^k stays below 2^k. */
  lemma {:induction false} BitOrBelow(a: nat, b: nat, k: nat)
    requires a < Pow2(k) && b < Pow2(k)
    ensures BitOr(a, b) < Pow2(k)
    decreases k
  {
    if a != 0 && b != 0 {
      assert k > 0;
      BitOrBelow(a / 2, b / 2, k - 1);
    }
  }

  /** NURand(A, x, y) of TPC-C clause 2.1.6, given the two uniform draws
      x in [0, A] and y in [min, max]. The C int sum must not overflow. */
  function NURand(a: int, c: int, min: int, max: int, x: int, y: int): (r: int)
    requires 0 <= x <= a && 0 <= min <= y <= max && 0 <= c
    requires BitOr(x, y) + c <= Int32Max
    ensures min <= r <= max
  {
    (BitOr(x, y) + c) % (max - min + 1) + min
  }

  /** NonUniformRandom(A, C, min, max): draws x in [0, A] and y in [min, max]
      and combines them with NURand. Both bounds lie below 2^k, k <= 30, so
      the sum with C (below 2^30) cannot overflow. */
  method NonUniformRandom(a: int, c: int, min: int, max: int, ghost k: nat) returns (r: int)
    requires 0 <= a && 0 <= min <= max && 0 <= c
    requires k <= 30 && a < Pow2(k) && max < Pow2(k) && c < Pow2(30)
    ensures min <= r <= max
  {
    var x := RandomNumber(0, a);
    var y := RandomNumber(min, max);
    BitOrBelow(x, y, k);
    Pow2Le(k, 30);
    Pow2Values();
    r := NURand(a, c, min, max, x, y);
  }

  lemma {:induction false} Pow2Le(j: nat, k: nat)
    requires j <= k
    ensures Pow2(j) <= Pow2(k)
    decreases k
  {
    if j < k { Pow2Le(j, k - 1); }
  }

  /** An item id, NURand(8191) over [1, NumItems]. */
  method GetItemId() returns (i: int)
    ensures 1 <= i <= NumItems
  {
    Pow2Values();
    i := NonUniformRandom(8191, 7911, 1, NumItems, 17);
  }

  /** A customer id, NURand(1023) over [1, NumCustomersPerDistrict]. */
  method GetCustomerId() returns (c: int)
    ensures 1 <= c <= NumCustomersPerDistrict
  {
    Pow2Values();
    c := NonUniformRandom(1023, 259, 1, NumCustomersPerDistrict, 12);
  }

  // ---------------------------------------------------------- surnames

  const NameTokens: seq<string> :=
    ["BAR", "OUGHT", "ABLE", "PRI", "PRES", "ESE", "ANTI", "CALLY", "ATION", "EING"]

  /** All tokens are at most 5 characters long, so a surname has at most 15. */
  const CustomerLastNameMaxSize: int := 5 * 3

  lemma TokenLength(i: int)
    requires 0 <= i < 10
    ensures 3 <= |NameTokens[i]| <= 5
  {
    if i < 5 {
      assert i == 0 || i == 1 || i == 2 || i == 3 || i == 4;
    } else {
      assert i == 5 || i == 6 || i == 7 || i == 8 || i == 9;
    }
  }

  /** The surname numbered `num` (TPC-C clause 4.3.2.3): the tokens of its
      hundreds, tens and units digits. */
  function CustomerLastName(num: int): (r: string)
    requires 0 <= num <= 999
    ensures 9 <= |r| <= CustomerLastNameMaxSize
  {
    TokenLength(num / 100);
    TokenLength((num / 10) % 10);
    TokenLength(num % 10);
    NameTokens[num / 100] + NameTokens[(num / 10) % 10] + NameTokens[num % 10]
  }

  /** The surname of the number with decimal digits h, t, u spells the tokens
      of those digits in order. */
  lemma LastNameOfDigits(h: int, t: int, u: int)
    requires 0 <= h < 10 && 0 <= t < 10 && 0 <= u < 10
    ensures CustomerLastName(100 * h + 10 * t + u) == NameTokens[h] + NameTokens[t] + NameTokens[u]
  {
    Digits(h, t, u);
  }

  /** The hundreds, tens and units digits of 100 * h + 10 * t + u. */
  lemma Digits(h: int, t: int, u: int)
    requires 0 <= h < 10 && 0 <= t < 10 && 0 <= u < 10
    ensures (100 * h + 10 * t + u) / 100 == h
    ensures ((100 * h + 10 * t + u) / 10) % 10 == t
    ensures (100 * h + 10 * t + u) % 10 == u
  {
    Hundreds(h, 10 * t + u);
    Tens(10 * h + t, u);
    Tens(h, t);
  }

  /** Quotient and remainder of 10 * q + r by 10. */
  lemma Tens(q: int, r: int)
    requires 0 <= r < 10
    ensures (10 * q + r) / 10 == q && (10 * q + r) % 10 == r
  {
  }

  /** Quotient of 100 * q + r by 100. */
  lemma Hundreds(q: int, r: int)
    requires 0 <= r < 100
    ensures (100 * q + r) / 100 == q
  {
  }

  /** The surname used when loading customers beyond the first thousand:
      NURand(255, 157) over [0, 999]. */
  method GetNonUniformCustomerLastNameLoad() returns (s: string)
    ensures exists num :: 0 <= num <= 999 && s == CustomerLastName(num)
  {
    Pow2Values();
    var num := NonUniformRandom(255, 157, 0, 999, 10);
    s := CustomerLastName(num);
  }

  /** The surname Payment and OrderStatus look up: NURand(255, 223) over [0, 999]. */
  method GetNonUniformCustomerLastNameRun() returns (s: string)
    ensures exists num :: 0 <= num <= 999 && s == CustomerLastName(num)
  {
    Pow2Values();
    var num := NonUniformRandom(255, 223, 0, 999, 10);
    s := CustomerLastName(num);
  }

  // ----------------------------------------------------------- strings

  /** RandomStr(len): following oltpbench, a string of len - 1 alphanumeric
      characters (the empty string for len 0), drawn by rejection sampling
      from the raw character stream. */
  method RandomStr(len: nat) returns (s: string)
    ensures len == 0 ==> s == ""
    ensures len > 0 ==> |s| == len - 1
    ensures forall k :: 0 <= k < |s| ==> IsAlnum(s[k])
  {
    if len == 0 {
      return "";
    }
    var buf := new char[len - 1](_ => 0 as char);
    var i := 0;
    var run: nat :| true;
    while i < len - 1
      invariant 0 <= i <= len - 1
      invariant forall k :: 0 <= k < i ==> IsAlnum(buf[k])
      decreases len - 1 - i, run
    {
      var c := NextChar(run);
      if !IsAlnum(c) {
        run := run - 1;
        continue;
      }
      buf[i] := c;
      i := i + 1;
      run :| true;
    }
    s := buf[..];
  }

  /** RandomNStr(len): exactly len decimal digits, one per raw draw. */
  method RandomNStr(len: nat) returns (s: string)
    ensures |s| == len
    ensures forall k :: 0 <= k < |s| ==> IsDigit(s[k])
  {
    var buf := new char[len](_ => 0 as char);
    for i := 0 to len
      invariant forall k :: 0 <= k < i ==> IsDigit(buf[k])
    {
      var x := NextRaw();
      buf[i] := ('0' as int + x % 10) as char;
    }
    s := buf[..];
  }

  // ------------------------------------------------ by-surname lookups

  /** The entry Payment and OrderStatus pick among k name-index matches:
      k/2 when k is odd, k/2 - 1 when k is even (the lower middle). */
  function MiddleIndex(k: int): (index: int)
    requires k >= 0
    ensures k > 0 ==> 0 <= index < k && index == (k - 1) / 2
    ensures k > 0 ==> index <= k - 1 - index <= index + 1
  {
    var index := k / 2;
    if k % 2 == 0 then index - 1 else index
  }
}
