// Shared vocabulary for the StellarSwipe contracts model: optional values,
// results, Rust integer semantics that differ from Dafny's, and a few
// sequence helpers used by several contracts.

module Base {

  datatype Option<T> = None | Some(value: T)

  /** A contract call either returns a value or one of the contract's errors. */
  datatype Result<T, E> = Ok(value: T) | Err(error: E)
  {
    predicate IsFailure() { Err? }
  }

  /** Soroban addresses are opaque and only compared for equality. */
  type Address = nat

  /** One byte of a Soroban `Bytes` or `String` value. */
  type Byte = b: int | 0 <= b < 256

  /** The bytes of an ASCII string. */
  function Ascii(s: string): (b: seq<Byte>)
    requires forall i :: 0 <= i < |s| ==> s[i] as int < 256
    ensures |b| == |s| && forall i :: 0 <= i < |s| ==> b[i] == s[i] as int
  {
    seq(|s|, i requires 0 <= i < |s| => s[i] as int)
  }

  const I128_MIN: int := -0x8000_0000_0000_0000_0000_0000_0000_0000
  const I128_MAX: int := 0x7fff_ffff_ffff_ffff_ffff_ffff_ffff_ffff
  const U32_MAX: int := 0xffff_ffff
  const U64_MAX: int := 0xffff_ffff_ffff_ffff

  predicate InI128(x: int) { I128_MIN <= x <= I128_MAX }

  /** The i128 `saturating_*` operations: the exact result clamped to the i128 range. */
  function SatI128(x: int): (r: int)
    ensures InI128(r)
    ensures InI128(x) ==> r == x
    ensures x > I128_MAX ==> r == I128_MAX
    ensures x < I128_MIN ==> r == I128_MIN
  {
    if x < I128_MIN then I128_MIN else if x > I128_MAX then I128_MAX else x
  }

  function Abs(x: int): nat { if x < 0 then -x else x }

  function Min(a: int, b: int): int { if a <= b then a else b }

  function Max(a: int, b: int): int { if a >= b then a else b }

  /** Rust's integer `/`: the quotient is truncated toward zero. */
  function Quot(a: int, b: int): int
    requires b != 0
  {
    if a >= 0 && b > 0 then a / b
    else if a >= 0 then -(a / -b)
    else if b > 0 then -((-a) / b)
    else (-a) / (-b)
  }

  /** `total * bps / 10000` with Rust's truncating division: a share in basis points. */
  function Share(total: int, bps: nat): int
  {
    Quot(total * bps, 10000)
  }

  /** Unsigned `saturating_sub`: never below zero. */
  function SatSub(a: int, b: int): (r: int)
    ensures r >= 0 && r >= a - b
    ensures a >= b ==> r == a - b
  {
    if a >= b then a - b else 0
  }

  /** Truncating division by a positive divisor keeps any bounds the exact quotient has. */
  lemma QuotBetween(a: int, b: int, lo: int, hi: int)
    requires b > 0 && lo * b <= a <= hi * b
    ensures lo <= Quot(a, b) <= hi
  {
    if a >= 0 {
      var q := a / b;
      DivBounds(a, b);
      MulCancel(lo, q + 1, b);
      MulCancel(q, hi, b);
    } else {
      var d := (-a) / b;
      DivBounds(-a, b);
      MulCancel(d, -lo, b);
      MulCancel(-hi, d + 1, b);
    }
  }

  /** Euclidean division of a non-negative dividend leaves a remainder below the divisor. */
  lemma DivBounds(a: int, b: int)
    requires a >= 0 && b > 0
    ensures (a / b) * b <= a < (a / b + 1) * b
  {
    var q := a / b;
    assert a == q * b + a % b;
    assert (q + 1) * b == q * b + b;
  }

  /** Adding one more value of weight `w` within `[lo, hi]` to a weighted sum
      keeps the sum between `lo` and `hi` times the total weight. */
  lemma AccumulateWithin(lo: int, hi: int, sum: int, total: int, p: int, w: int)
    requires lo * total <= sum <= hi * total
    requires lo <= p <= hi && w >= 0
    ensures lo * (total + w) <= sum + p * w <= hi * (total + w)
  {
    assert (p - lo) * w >= 0;
    assert (hi - p) * w >= 0;
    assert lo * (total + w) == lo * total + lo * w;
    assert hi * (total + w) == hi * total + hi * w;
  }

  /** A truncated quotient by a positive divisor exceeds `m` exactly when the
      dividend reaches `(m + 1)` divisors. */
  lemma QuotExceeds(x: int, d: int, m: int)
    requires d > 0 && m >= 0
    ensures Quot(x, d) > m <==> x >= (m + 1) * d
  {
    if x >= 0 {
      var q := x / d;
      DivBounds(x, d);
      MulCancel(q, m, d);
      MulCancel(m + 1, q + 1, d);
    } else {
      assert (m + 1) * d > 0;
    }
  }

  /** For a non-negative dividend, `c` is at most the quotient exactly when `c`
      divisors fit in the dividend. */
  lemma AtMostQuot(c: int, x: int, d: int)
    requires d > 0 && x >= 0
    ensures c <= Quot(x, d) <==> c * d <= x
  {
    var q := x / d;
    DivBounds(x, d);
    MulCancel(q, c - 1, d);
    MulCancel(c, q + 1, d);
    assert (c - 1) * d == c * d - d;
  }

  lemma MulCancel(x: int, y: int, b: int)
    requires b > 0
    ensures x * b <= y * b ==> x <= y
    ensures x * b < y * b ==> x < y
  {
    if x > y {
      var d := x - y - 1;
      assert d >= 0;
      assert d * b >= 0;
      assert x * b == y * b + d * b + b;
    }
  }

  /** Truncation is symmetric about zero, unlike Dafny's Euclidean division. */
  lemma QuotNeg(a: int, b: int)
    requires b != 0
    ensures Quot(-a, b) == -Quot(a, b)
  {
  }

  lemma QuotNonNegative(a: int, b: int)
    requires a >= 0 && b > 0
    ensures Quot(a, b) == a / b && 0 <= a / b <= a
  {
    assert a * (b - 1) >= 0;
    assert a * b == a + a * (b - 1);
    QuotBetween(a, b, 0, a);
  }

  predicate NoDup<T(==)>(s: seq<T>)
  {
    forall i, j :: 0 <= i < j < |s| ==> s[i] != s[j]
  }

  /** Position of the first occurrence of `x` in `s`. */
  function IndexOf<T(==)>(s: seq<T>, x: T): (i: nat)
    requires x in s
    ensures i < |s| && s[i] == x
    ensures forall j :: 0 <= j < i ==> s[j] != x
  {
    if s[0] == x then 0 else 1 + IndexOf(s[1..], x)
  }

  /** The first occurrence is the one with no earlier occurrence. */
  lemma IndexOfUnique<T>(s: seq<T>, x: T, k: nat)
    requires k < |s| && s[k] == x && forall j :: 0 <= j < k ==> s[j] != x
    ensures IndexOf(s, x) == k
  {
  }

  /** Number of occurrences of `x` in `s`. */
  function Count<T(==)>(s: seq<T>, x: T): (n: nat)
    ensures n <= |s|
    ensures n == 0 <==> x !in s
  {
    if s == [] then 0 else Count(s[..|s| - 1], x) + (if s[|s| - 1] == x then 1 else 0)
  }

  /** `s` with every occurrence of `x` dropped, order kept (a Soroban rebuild loop with `!=`). */
  function Without<T(==)>(s: seq<T>, x: T): (r: seq<T>)
    ensures x !in r
    ensures forall i :: 0 <= i < |r| ==> r[i] in s && r[i] != x
    ensures forall i :: 0 <= i < |s| && s[i] != x ==> s[i] in r
    ensures |r| == |s| - Count(s, x)
  {
    if s == [] then [] else
      var init := Without(s[..|s| - 1], x);
      if s[|s| - 1] == x then init else init + [s[|s| - 1]]
  }

  /** `x` is in a one-longer prefix exactly when it is in the prefix or is the next element. */
  lemma InPrefix<T>(s: seq<T>, i: nat, x: T)
    requires i < |s|
    ensures x in s[..i + 1] <==> x in s[..i] || s[i] == x
  {
    assert s[..i + 1] == s[..i] + [s[i]];
  }

  /** One more element of `s` extends `Without` of the prefix by that element unless it is `x`. */
  lemma WithoutPrefix<T>(s: seq<T>, i: nat, x: T)
    requires i < |s|
    ensures Without(s[..i + 1], x) == if s[i] == x then Without(s[..i], x) else Without(s[..i], x) + [s[i]]
  {
    assert s[..i + 1][..i] == s[..i];
  }

  /** The elements of `s` that `keep` accepts, order kept (a Soroban loop pushing
      the accepted elements onto a new vector). */
  function Filter<T>(s: seq<T>, keep: T -> bool): (r: seq<T>)
    ensures |r| <= |s|
    ensures forall i :: 0 <= i < |r| ==> r[i] in s && keep(r[i])
    ensures forall i :: 0 <= i < |s| && keep(s[i]) ==> s[i] in r
  {
    if s == [] then []
    else
      assert s == s[..|s| - 1] + [s[|s| - 1]];
      Filter(s[..|s| - 1], keep) + if keep(s[|s| - 1]) then [s[|s| - 1]] else []
  }

  /** What a filter keeps, as membership. */
  lemma FilterMembers<T>(s: seq<T>, keep: T -> bool)
    ensures forall x :: x in Filter(s, keep) <==> x in s && keep(x)
  {
    forall x ensures x in Filter(s, keep) <==> x in s && keep(x) {
      if x in Filter(s, keep) {
        var i :| 0 <= i < |Filter(s, keep)| && Filter(s, keep)[i] == x;
      }
      if x in s && keep(x) {
        var i :| 0 <= i < |s| && s[i] == x;
      }
    }
  }

  /** Filtering twice is filtering once by both tests. */
  lemma {:induction false} FilterFilter<T>(s: seq<T>, p: T -> bool, q: T -> bool, both: T -> bool)
    requires forall x :: both(x) == (p(x) && q(x))
    ensures Filter(Filter(s, p), q) == Filter(s, both)
  {
    if s != [] {
      FilterFilter(s[..|s| - 1], p, q, both);
      var last := s[|s| - 1];
      var init := Filter(s[..|s| - 1], p);
      if p(last) {
        assert Filter(s, p)[..|Filter(s, p)| - 1] == init;
      } else {
        assert Filter(s, p) == init;
      }
    }
  }

  /** A test that accepts every element filters nothing out. */
  lemma {:induction false} FilterAll<T>(s: seq<T>, keep: T -> bool)
    requires forall x :: x in s ==> keep(x)
    ensures Filter(s, keep) == s
  {
    if s != [] {
      FilterAll(s[..|s| - 1], keep);
      assert s == s[..|s| - 1] + [s[|s| - 1]];
    }
  }

  lemma {:induction false} WithoutNoDup<T>(s: seq<T>, x: T)
    requires NoDup(s)
    ensures NoDup(Without(s, x))
    ensures x in s ==> |Without(s, x)| == |s| - 1
  {
    if s != [] {
      var init, last := s[..|s| - 1], s[|s| - 1];
      assert NoDup(init);
      WithoutNoDup(init, x);
      assert last !in init;
      if last != x {
        var w := Without(init, x);
        assert Without(s, x) == w + [last];
        assert last !in w;
      }
      if x in s {
        CountNoDup(s, x);
      }
    }
  }

  lemma CountNoDup<T>(s: seq<T>, x: T)
    requires NoDup(s) && x in s
    ensures Count(s, x) == 1
  {
    var init := s[..|s| - 1];
    assert NoDup(init);
    if s[|s| - 1] == x {
      assert x !in init;
    } else {
      assert x in init;
      CountNoDup(init, x);
    }
  }

  /** A multiset counts what `Count` counts. */
  lemma {:induction false} MultisetCount<T>(s: seq<T>, x: T)
    ensures multiset(s)[x] == Count(s, x)
  {
    if s != [] {
      MultisetCount(s[..|s| - 1], x);
      assert s == s[..|s| - 1] + [s[|s| - 1]];
    }
  }

  lemma {:induction false} CountTwo<T>(s: seq<T>, i: nat, j: nat)
    requires i < j < |s| && s[i] == s[j]
    ensures Count(s, s[i]) >= 2
  {
    var init := s[..|s| - 1];
    if j < |s| - 1 {
      CountTwo(init, i, j);
    } else {
      assert init[i] == s[i];
      assert s[i] in init;
    }
  }

  /** A rearrangement of a duplicate-free sequence is duplicate-free. */
  lemma NoDupPermutation<T>(s: seq<T>, t: seq<T>)
    requires NoDup(s) && multiset(s) == multiset(t)
    ensures NoDup(t)
  {
    forall i, j | 0 <= i < j < |t|
      ensures t[i] != t[j]
    {
      if t[i] == t[j] {
        CountTwo(t, i, j);
        MultisetCount(t, t[i]);
        MultisetCount(s, t[i]);
        assert t[i] in multiset(s);
        CountNoDup(s, t[i]);
      }
    }
  }

  predicate IsDigit(b: Byte) { 48 <= b <= 57 }

  function Pow10(n: nat): (p: nat)
    ensures p >= 1
  {
    if n == 0 then 1 else 10 * Pow10(n - 1)
  }

  predicate AllDigits(t: seq<Byte>)
  {
    forall i :: 0 <= i < |t| ==> IsDigit(t[i])
  }

  /** The value of a decimal numeral, most significant digit first. */
  function NumeralValue(t: seq<Byte>): nat
    requires AllDigits(t)
  {
    if t == [] then 0 else NumeralValue(t[..|t| - 1]) * 10 + (t[|t| - 1] - 48)
  }
}
