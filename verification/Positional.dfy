/** Positional number systems: most significant digit first, any base.
    Every byte string, hex string, decimal key and base-58 address in the
    project is read and printed through the functions of this module. */
module Positional {

  type byte = x: int | 0 <= x < 256

  lemma MulMono(a: int, b: int, c: nat)
    requires a <= b
    ensures a * c <= b * c
  {
  }

  lemma MulAssoc(a: int, b: int, c: int)
    ensures a * b * c == a * (b * c)
  {
  }

  lemma MulSum(a: int, b: int, c: int)
    ensures (a + b) * c == a * c + b * c
  {
  }

  lemma MulNext(a: int, b: int, c: nat)
    requires a < b
    ensures a * c + c <= b * c
  {
    MulMono(a + 1, b, c);
  }

  lemma Split(base: nat, n: nat)
    requires base >= 1
    ensures n == (n / base) * base + n % base
    ensures n % base < base
  {
  }

  lemma SplitUnique(base: nat, q: int, r: nat, q': int, r': nat)
    requires r < base && r' < base
    requires q * base + r == q' * base + r'
    ensures q == q' && r == r'
  {
    if q < q' {
      MulNext(q, q', base);
    } else if q' < q {
      MulNext(q', q, base);
    }
  }

  lemma DivMod(base: nat, q: nat, r: nat)
    requires base >= 2 && r < base
    ensures (q * base + r) / base == q
    ensures (q * base + r) % base == r
  {
    var n := q * base + r;
    Split(base, n);
    SplitUnique(base, q, r, n / base, n % base);
  }

  lemma LessDiv(base: nat, n: nat, m: nat)
    requires base >= 2 && n < m * base
    ensures n / base < m
  {
    Split(base, n);
    if n / base >= m {
      MulMono(m, n / base, base);
    }
  }

  lemma Quotient(base: nat, n: nat)
    requires base >= 2 && n > 0
    ensures n / base < n
  {
    MulMono(2, base, n);
    LessDiv(base, n, n);
  }

  function Pow(base: nat, e: nat): nat {
    if e == 0 then 1 else Pow(base, e - 1) * base
  }

  ghost predicate Digits(base: nat, d: seq<nat>) {
    forall i :: 0 <= i < |d| ==> d[i] < base
  }

  /** The number a digit sequence stands for. */
  function Value(base: nat, d: seq<nat>): nat {
    if |d| == 0 then 0 else Value(base, d[..|d| - 1]) * base + d[|d| - 1]
  }

  /** Exactly `width` digits of `n` (the low ones, when `n` has more). */
  function Fixed(base: nat, width: nat, n: nat): (d: seq<nat>)
    requires base >= 2
    ensures |d| == width
    ensures Digits(base, d)
  {
    if width == 0 then [] else Fixed(base, width - 1, n / base) + [n % base]
  }

  /** The digits of `n` with no leading zero; none at all for zero. */
  function Minimal(base: nat, n: nat): (d: seq<nat>)
    requires base >= 2
    ensures Digits(base, d)
    ensures d != [] ==> d[0] != 0
    ensures d == [] <==> n == 0
    decreases n
  {
    if n == 0 then []
    else
      Quotient(base, n);
      Minimal(base, n / base) + [n % base]
  }

  lemma {:induction false} ValueBound(base: nat, d: seq<nat>)
    requires base >= 2 && Digits(base, d)
    ensures Value(base, d) < Pow(base, |d|)
  {
    if |d| != 0 {
      var p := d[..|d| - 1];
      ValueBound(base, p);
      MulNext(Value(base, p), Pow(base, |p|), base);
    }
  }

  lemma PowPositive(base: nat, e: nat)
    requires base >= 1
    ensures Pow(base, e) >= 1
  {
    if e > 0 {
      PowPositive(base, e - 1);
      assert Pow(base, e - 1) * base >= 1 * 1;
    }
  }

  lemma {:induction false} PowAdd(base: nat, a: nat, b: nat)
    ensures Pow(base, a + b) == Pow(base, a) * Pow(base, b)
  {
    if b > 0 {
      PowAdd(base, a, b - 1);
      assert a + b - 1 == a + (b - 1);
      MulAssoc(Pow(base, a), Pow(base, b - 1), base);
    }
  }

  /** Appending digits shifts the value of what stands before them. */
  lemma {:induction false} ValueAppend(base: nat, a: seq<nat>, b: seq<nat>)
    ensures Value(base, a + b) == Value(base, a) * Pow(base, |b|) + Value(base, b)
  {
    if b == [] {
      assert a + b == a;
    } else {
      var b' := b[..|b| - 1];
      assert (a + b)[..|a + b| - 1] == a + b';
      ValueAppend(base, a, b');
      MulSum(Value(base, a) * Pow(base, |b'|), Value(base, b'), base);
      MulAssoc(Value(base, a), Pow(base, |b'|), base);
    }
  }

  /** Printing in a fixed width and reading back. */
  lemma {:induction false} FixedValue(base: nat, width: nat, n: nat)
    requires base >= 2 && n < Pow(base, width)
    ensures Value(base, Fixed(base, width, n)) == n
  {
    if width != 0 {
      LessDiv(base, n, Pow(base, width - 1));
      FixedValue(base, width - 1, n / base);
      var d := Fixed(base, width, n);
      assert d[..|d| - 1] == Fixed(base, width - 1, n / base);
      Split(base, n);
    }
  }

  /** Reading digits and printing them back in the same width. */
  lemma {:induction false} ValueFixed(base: nat, d: seq<nat>)
    requires base >= 2 && Digits(base, d)
    ensures Fixed(base, |d|, Value(base, d)) == d
  {
    if |d| != 0 {
      var p := d[..|d| - 1];
      ValueFixed(base, p);
      DivMod(base, Value(base, p), d[|d| - 1]);
      assert d == p + [d[|d| - 1]];
    }
  }

  lemma {:induction false} MinimalValue(base: nat, n: nat)
    requires base >= 2
    ensures Value(base, Minimal(base, n)) == n
    decreases n
  {
    if n != 0 {
      Quotient(base, n);
      MinimalValue(base, n / base);
      var d := Minimal(base, n);
      assert d[..|d| - 1] == Minimal(base, n / base);
      Split(base, n);
    }
  }

  lemma LeadingDigit(base: nat, d: seq<nat>)
    requires base >= 2 && d != [] && d[0] != 0
    ensures Value(base, d) > 0
  {
    if |d| > 1 {
      LeadingDigit(base, d[..|d| - 1]);
      assert Value(base, d[..|d| - 1]) * base >= 1 * 1;
    }
  }

  lemma {:induction false} ValueMinimal(base: nat, d: seq<nat>)
    requires base >= 2 && Digits(base, d) && (d != [] ==> d[0] != 0)
    ensures Minimal(base, Value(base, d)) == d
  {
    if d != [] {
      var p := d[..|d| - 1];
      LeadingDigit(base, d);
      ValueMinimal(base, p);
      DivMod(base, Value(base, p), d[|d| - 1]);
      assert d == p + [d[|d| - 1]];
    }
  }

  /** The zeros in front carry no value. */
  lemma {:induction false} ValueZeros(base: nat, z: nat, d: seq<nat>)
    ensures Value(base, Zeros(z) + d) == Value(base, d)
  {
    ValueAppend(base, Zeros(z), d);
    ZerosWorthless(base, z);
  }

  function Zeros(n: nat): (z: seq<nat>)
    ensures |z| == n && forall i :: 0 <= i < n ==> z[i] == 0
  {
    if n == 0 then [] else Zeros(n - 1) + [0]
  }

  lemma ZerosWorthless(base: nat, z: nat)
    ensures Value(base, Zeros(z)) == 0
  {
    if z > 0 {
      ZerosWorthless(base, z - 1);
      assert Zeros(z)[..z - 1] == Zeros(z - 1);
    }
  }

  /** How many zeros stand in front. */
  function Leading(d: seq<nat>): (z: nat)
    ensures z <= |d|
    ensures forall i :: 0 <= i < z ==> d[i] == 0
    ensures z < |d| ==> d[z] != 0
  {
    if d == [] || d[0] != 0 then 0 else 1 + Leading(d[1..])
  }

  /** Equal length and equal value means equal digits. */
  lemma ValueInjective(base: nat, a: seq<nat>, b: seq<nat>)
    requires base >= 2 && Digits(base, a) && Digits(base, b) && |a| == |b|
    requires Value(base, a) == Value(base, b)
    ensures a == b
  {
    ValueFixed(base, a);
    ValueFixed(base, b);
  }

  /** Dictionary order of two sequences, the order strings are compared in. */
  ghost predicate Before(a: seq<nat>, b: seq<nat>) {
    exists k :: 0 <= k < |a| && k < |b| && a[..k] == b[..k] && a[k] < b[k]
  }

  /** At equal length dictionary order is numeric order. */
  lemma {:induction false} BeforeIsLess(base: nat, a: seq<nat>, b: seq<nat>)
    requires base >= 2 && Digits(base, a) && Digits(base, b) && |a| == |b|
    ensures Before(a, b) <==> Value(base, a) < Value(base, b)
  {
    if Before(a, b) {
      var k :| 0 <= k < |a| && a[..k] == b[..k] && a[k] < b[k];
      SmallerDigit(base, a, b, k);
    }
    if Value(base, a) < Value(base, b) {
      var k := FirstDifference(a, b);
      if b[k] < a[k] {
        SmallerDigit(base, b, a, k);
      }
      assert Before(a, b);
    }
  }

  lemma SmallerDigit(base: nat, a: seq<nat>, b: seq<nat>, k: nat)
    requires base >= 2 && Digits(base, a) && Digits(base, b)
    requires k < |a| == |b| && a[..k] == b[..k] && a[k] < b[k]
    ensures Value(base, a) < Value(base, b)
  {
    var c, x, y := a[..k], a[k + 1..], b[k + 1..];
    assert a == c + [a[k]] + x;
    assert b == c + [b[k]] + y;
    LessLast(base, c, a[k], b[k]);
    LessPrefix(base, c + [a[k]], x, c + [b[k]], y);
  }

  lemma LessLast(base: nat, p: seq<nat>, x: nat, y: nat)
    requires x < y
    ensures Value(base, p + [x]) < Value(base, p + [y])
  {
    assert (p + [x])[..|p|] == p && (p + [y])[..|p|] == p;
  }

  lemma LessPrefix(base: nat, p: seq<nat>, x: seq<nat>, q: seq<nat>, y: seq<nat>)
    requires base >= 2 && Digits(base, x) && |x| == |y|
    requires Value(base, p) < Value(base, q)
    ensures Value(base, p + x) < Value(base, q + y)
  {
    ValueAppend(base, p, x);
    ValueAppend(base, q, y);
    ValueBound(base, x);
    MulNext(Value(base, p), Value(base, q), Pow(base, |x|));
  }

  lemma FirstDifference(a: seq<nat>, b: seq<nat>) returns (k: nat)
    requires |a| == |b| && a != b
    ensures k < |a| && a[..k] == b[..k] && a[k] != b[k]
  {
    k := 0;
    while k < |a| && a[k] == b[k]
      invariant k <= |a| && a[..k] == b[..k]
    {
      k := k + 1;
    }
    assert a[..|a|] == a && b[..|b|] == b;
  }
}
