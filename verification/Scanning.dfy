/** Going through a range block by block. `see` says what one look at one block
    shows; a sequence of looks covers a range with neither gap nor repetition. */
module Scanning {

  /** Everything shown by looking at `lo`, `lo + 1`, ..., in that order. */
  function Scan<L, S>(see: (nat, L) -> seq<S>, lo: nat, looks: seq<L>): seq<S> {
    if looks == [] then []
    else
      var n := |looks| - 1;
      Scan(see, lo, looks[..n]) + see(lo + n, looks[n])
  }

  /** Every block looked at the same way. */
  function Steady<L>(look: L, n: nat): (r: seq<L>)
    ensures |r| == n && forall i :: 0 <= i < n ==> r[i] == look
  {
    seq(n, _ => look)
  }

  lemma Unsnoc<T>(s: seq<T>)
    requires s != []
    ensures s == s[..|s| - 1] + [s[|s| - 1]]
  {
  }

  lemma Assoc<T>(x: seq<T>, y: seq<T>, z: seq<T>)
    ensures (x + y) + z == x + (y + z)
  {
  }

  lemma {:induction false} ScanAppend<L, S>(see: (nat, L) -> seq<S>, lo: nat, a: seq<L>, b: seq<L>)
    ensures Scan(see, lo, a + b) == Scan(see, lo, a) + Scan(see, lo + |a|, b)
  {
    if b == [] {
      assert a + b == a;
    } else {
      var n := |b| - 1;
      assert (a + b)[..|a| + n] == a + b[..n];
      ScanAppend(see, lo, a, b[..n]);
      Assoc(Scan(see, lo, a), Scan(see, lo + |a|, b[..n]), see(lo + |a| + n, b[n]));
    }
  }

  /** The same, with the block the second part starts at given by name. */
  lemma ScanJoin<L, S>(see: (nat, L) -> seq<S>, lo: nat, a: seq<L>, mid: nat, b: seq<L>)
    requires mid == lo + |a|
    ensures Scan(see, lo, a + b) == Scan(see, lo, a) + Scan(see, mid, b)
  {
    ScanAppend(see, lo, a, b);
  }

  lemma ScanNext<L, S>(see: (nat, L) -> seq<S>, lo: nat, looks: seq<L>, block: nat, look: L)
    requires block == lo + |looks|
    ensures Scan(see, lo, looks + [look]) == Scan(see, lo, looks) + see(block, look)
  {
    assert (looks + [look])[..|looks|] == looks;
  }

  /** Looks that show the same in every block scan to the same. */
  lemma {:induction false} ScanSame<L, S>(see: (nat, L) -> seq<S>, lo: nat, a: seq<L>, b: seq<L>)
    requires |a| == |b|
    requires forall i :: 0 <= i < |a| ==> see(lo + i, a[i]) == see(lo + i, b[i])
    ensures Scan(see, lo, a) == Scan(see, lo, b)
  {
    if a != [] {
      var n := |a| - 1;
      forall i | 0 <= i < n ensures see(lo + i, a[..n][i]) == see(lo + i, b[..n][i]) {
        assert a[..n][i] == a[i] && b[..n][i] == b[i];
      }
      ScanSame(see, lo, a[..n], b[..n]);
    }
  }

  lemma {:induction false} ScanQuiet<L, S>(see: (nat, L) -> seq<S>, lo: nat, look: L, n: nat)
    requires forall b :: lo <= b < lo + n ==> see(b, look) == []
    ensures Scan(see, lo, Steady(look, n)) == []
  {
    if n > 0 {
      assert Steady(look, n)[..n - 1] == Steady(look, n - 1);
      ScanQuiet(see, lo, look, n - 1);
    }
  }

  /** A quiet stretch of `n` blocks after what was seen `before`, then one block. */
  lemma ScanSkip<L, S>(see: (nat, L) -> seq<S>, lo: nat, before: seq<L>, look: L, n: nat)
    requires forall c :: lo + |before| <= c < lo + |before| + n ==> see(c, look) == []
    ensures Scan(see, lo, before + Steady(look, n) + [look])
      == Scan(see, lo, before) + see(lo + |before| + n, look)
  {
    ScanQuiet(see, lo + |before|, look, n);
    ScanAppend(see, lo, before, Steady(look, n));
    ScanNext(see, lo, before + Steady(look, n), lo + |before| + n, look);
  }

  lemma SteadyJoin<L>(look: L, m: nat, n: nat, k: nat)
    requires k == m + n + 1
    ensures Steady(look, k) == Steady(look, m) + Steady(look, n) + [look]
  {
  }

  /** The same, with the bounds of the stretch given as block numbers. */
  lemma ScanGap<L, S>(see: (nat, L) -> seq<S>, lo: nat, look: L, first: nat, b: nat)
    requires lo <= first <= b
    requires forall c :: first <= c < b ==> see(c, look) == []
    ensures Scan(see, lo, Steady(look, b + 1 - lo)) == Scan(see, lo, Steady(look, first - lo)) + see(b, look)
  {
    var m, n := first - lo, b - first;
    ScanSkip(see, lo, Steady(look, m), look, n);
    SteadyJoin(look, m, n, b + 1 - lo);
  }
}
