/** The browser's deposit ledger: a capped history and one scan cursor a receiver,
    kept in storage that may refuse a write. */
module Ledger {
  import opened Wrappers

  const MAX_HISTORY: nat := 500
  const MAX_WINDOWS_PER_RECEIVER: nat := 8
  const EVM_LOG_WINDOW: nat := 2000
  const STARKNET_EVENT_WINDOW: nat := 500

  // ---- the chain as the scan sees it ---------------------------------------------

  datatype Transfer = Transfer(tx: string, amount: string)

  datatype Deposit = Deposit(tx: string, amount: string, block: nat)

  /** One receiver's incoming transfers, block by block. */
  datatype Chain = Chain(blocks: imap<nat, seq<Transfer>>) {
    function At(b: nat): seq<Transfer> {
      if b in blocks then blocks[b] else []
    }
  }

  predicate NoColon(s: string) {
    forall i :: 0 <= i < |s| ==> s[i] != ':'
  }

  /** A transaction is in one block only; hashes and amounts hold no colon. */
  ghost predicate Regular(c: Chain) {
    && (forall b: nat, i :: 0 <= i < |c.At(b)| ==> NoColon(c.At(b)[i].tx) && NoColon(c.At(b)[i].amount))
    && (forall b: nat, i, b': nat, j ::
          0 <= i < |c.At(b)| && 0 <= j < |c.At(b')| && c.At(b)[i].tx == c.At(b')[j].tx ==> b == b')
  }

  function Stamped(ts: seq<Transfer>, block: nat): (ds: seq<Deposit>)
    ensures |ds| == |ts|
    ensures forall i :: 0 <= i < |ts| ==> ds[i] == Deposit(ts[i].tx, ts[i].amount, block)
  {
    seq(|ts|, i requires 0 <= i < |ts| => Deposit(ts[i].tx, ts[i].amount, block))
  }

  /** Everything in blocks `from` up to, not including, `to`. */
  function Between(c: Chain, from: nat, to: nat): seq<Deposit> {
    if to <= from then [] else Between(c, from, to - 1) + Stamped(c.At(to - 1), to - 1)
  }

  /** How often a transfer is in a list. */
  function Times(ds: seq<Deposit>, tx: string, amount: string): nat {
    if ds == [] then 0
    else
      var last := ds[|ds| - 1];
      Times(ds[..|ds| - 1], tx, amount) + if last.tx == tx && last.amount == amount then 1 else 0
  }

  function OnChain(c: Chain, tx: string, amount: string, from: nat, to: nat): nat {
    Times(Between(c, from, to), tx, amount)
  }

  lemma {:induction false} TimesAppend(a: seq<Deposit>, b: seq<Deposit>, tx: string, amount: string)
    ensures Times(a + b, tx, amount) == Times(a, tx, amount) + Times(b, tx, amount)
  {
    if b == [] {
      assert a + b == a;
    } else {
      assert (a + b)[..|a + b| - 1] == a + b[..|b| - 1];
      TimesAppend(a, b[..|b| - 1], tx, amount);
    }
  }

  lemma {:induction false} BetweenSplit(c: Chain, from: nat, mid: nat, to: nat)
    requires from <= mid <= to
    ensures Between(c, from, to) == Between(c, from, mid) + Between(c, mid, to)
  {
    if mid < to {
      BetweenSplit(c, from, mid, to - 1);
    }
  }

  lemma OnChainSplit(c: Chain, tx: string, amount: string, from: nat, mid: nat, to: nat)
    requires from <= mid <= to
    ensures OnChain(c, tx, amount, from, to) == OnChain(c, tx, amount, from, mid) + OnChain(c, tx, amount, mid, to)
  {
    BetweenSplit(c, from, mid, to);
    TimesAppend(Between(c, from, mid), Between(c, mid, to), tx, amount);
  }

  lemma {:induction false} TimesWitness(ds: seq<Deposit>, tx: string, amount: string) returns (i: nat)
    requires Times(ds, tx, amount) > 0
    ensures i < |ds| && ds[i].tx == tx && ds[i].amount == amount
  {
    i := |ds| - 1;
    if ds[i].tx != tx || ds[i].amount != amount {
      i := TimesWitness(ds[..i], tx, amount);
    }
  }

  /** The block a transfer of a range is in. */
  lemma {:induction false} BlockOf(c: Chain, from: nat, to: nat, k: nat) returns (b: nat, i: nat)
    requires k < |Between(c, from, to)|
    ensures from <= b < to && i < |c.At(b)|
    ensures Between(c, from, to)[k] == Deposit(c.At(b)[i].tx, c.At(b)[i].amount, b)
  {
    var n := |Between(c, from, to - 1)|;
    if k < n {
      b, i := BlockOf(c, from, to - 1, k);
    } else {
      b, i := to - 1, k - n;
    }
  }

  /** A transfer found in one range is not in a later one. */
  lemma OnlyOnce(c: Chain, tx: string, amount: string, a: nat, b: nat, a': nat, b': nat)
    requires Regular(c) && b <= a'
    ensures OnChain(c, tx, amount, a, b) == 0 || OnChain(c, tx, amount, a', b') == 0
  {
    if OnChain(c, tx, amount, a, b) > 0 && OnChain(c, tx, amount, a', b') > 0 {
      var k := TimesWitness(Between(c, a, b), tx, amount);
      var x, i := BlockOf(c, a, b, k);
      var k' := TimesWitness(Between(c, a', b'), tx, amount);
      var y, j := BlockOf(c, a', b', k');
    }
  }

  /** What has been recorded of `start..top` and what a scan of `from..next` finds
      make up `start..` the further of the two ends, if there is no gap. */
  lemma Overlapping(c: Chain, tx: string, amount: string, start: nat, from: nat, top: nat, next: nat, n: nat)
    requires Regular(c) && start <= from <= top && from <= next
    ensures n < OnChain(c, tx, amount, start, if top < next then next else top) <==>
      n < OnChain(c, tx, amount, start, top) || n < OnChain(c, tx, amount, from, next)
  {
    if next <= top {
      OnChainSplit(c, tx, amount, start, from, top);
      OnChainSplit(c, tx, amount, from, next, top);
    } else {
      OnChainSplit(c, tx, amount, start, from, next);
      OnChainSplit(c, tx, amount, start, from, top);
      OnChainSplit(c, tx, amount, from, top, next);
      OnlyOnce(c, tx, amount, start, from, from, next);
      OnlyOnce(c, tx, amount, start, from, from, top);
      OnlyOnce(c, tx, amount, from, top, top, next);
    }
  }

  // ---- ids -------------------------------------------------------------------------

  function Decimal(n: nat): (s: string)
    ensures s != "" && NoColon(s)
  {
    if n < 10 then ['0' + n as char] else Decimal(n / 10) + ['0' + (n % 10) as char]
  }

  lemma {:induction false} DecimalInjective(m: nat, n: nat)
    requires Decimal(m) == Decimal(n)
    ensures m == n
  {
    var s := Decimal(m);
    assert s[|s| - 1] == '0' + (m % 10) as char && s[|s| - 1] == '0' + (n % 10) as char;
    if m >= 10 && n >= 10 {
      assert s[..|s| - 1] == Decimal(m / 10) && s[..|s| - 1] == Decimal(n / 10);
      DecimalInjective(m / 10, n / 10);
    }
  }

  function Id(key: string, tx: string, amount: string, n: nat): string {
    key + ":" + tx + ":" + amount + ":" + Decimal(n)
  }

  lemma LastField(a: string, x: string, b: string, y: string)
    requires NoColon(x) && NoColon(y) && a + ":" + x == b + ":" + y
    ensures a == b && x == y
  {
    var s := a + ":" + x;
    assert s[|a|] == ':' && s[|b|] == ':';
    assert forall i :: |a| < i < |s| ==> s[i] == x[i - |a| - 1];
    assert forall i :: |b| < i < |s| ==> s[i] == y[i - |b| - 1];
    assert |a| == |b|;
    assert s[..|a|] == a && s[..|b|] == b;
    assert s[|a| + 1..] == x && s[|b| + 1..] == y;
  }

  /** Receiver, transaction, amount and ordinal can be read off an id. */
  lemma IdInjective(key: string, tx: string, amount: string, n: nat, key': string, tx': string, amount': string,
                    n': nat)
    requires NoColon(tx) && NoColon(amount) && NoColon(tx') && NoColon(amount')
    requires Id(key, tx, amount, n) == Id(key', tx', amount', n')
    ensures key == key' && tx == tx' && amount == amount' && n == n'
  {
    LastField(key + ":" + tx + ":" + amount, Decimal(n), key' + ":" + tx' + ":" + amount', Decimal(n'));
    LastField(key + ":" + tx, amount, key' + ":" + tx', amount');
    LastField(key, tx, key', tx');
    DecimalInjective(n, n');
  }

  // ---- recording one scan -------------------------------------------------------------

  datatype Entry = Entry(id: string, key: string, tx: string, amount: string, block: nat)

  /** How many transfers of one kind stand before position `i`. */
  function Ordinal(ds: seq<Deposit>, i: nat): nat
    requires i < |ds|
  {
    Times(ds[..i], ds[i].tx, ds[i].amount)
  }

  function EntryAt(key: string, ds: seq<Deposit>, i: nat): Entry
    requires i < |ds|
  {
    var d := ds[i];
    Entry(Id(key, d.tx, d.amount, Ordinal(ds, i)), key, d.tx, d.amount, d.block)
  }

  predicate HasId(h: seq<Entry>, id: string) {
    exists i :: 0 <= i < |h| && h[i].id == id
  }

  ghost predicate Unique(h: seq<Entry>) {
    forall i, j :: 0 <= i < j < |h| ==> h[i].id != h[j].id
  }

  /** The first `n` deposits that the history does not hold yet. */
  function Fresh(key: string, ds: seq<Deposit>, h: seq<Entry>, n: nat): seq<Entry>
    requires n <= |ds|
  {
    if n == 0 then []
    else
      var e := EntryAt(key, ds, n - 1);
      Fresh(key, ds, h, n - 1) + if HasId(h, e.id) then [] else [e]
  }

  function Reversed(s: seq<Entry>): (r: seq<Entry>)
    ensures |r| == |s| && forall i :: 0 <= i < |s| ==> r[i] == s[|s| - 1 - i]
  {
    seq(|s|, i requires 0 <= i < |s| => s[|s| - 1 - i])
  }

  function Capped(h: seq<Entry>): seq<Entry> {
    if |h| > MAX_HISTORY then h[..MAX_HISTORY] else h
  }

  /** Newest first, the rest behind, and no more than the cap. */
  function Merged(key: string, ds: seq<Deposit>, h: seq<Entry>): seq<Entry> {
    Capped(Reversed(Fresh(key, ds, h, |ds|)) + h)
  }

  ghost predicate Regulars(ds: seq<Deposit>) {
    forall i :: 0 <= i < |ds| ==> NoColon(ds[i].tx) && NoColon(ds[i].amount)
  }

  lemma {:induction false} TimesGrow(ds: seq<Deposit>, i: nat, j: nat, tx: string, amount: string)
    requires i <= j <= |ds|
    ensures Times(ds[..i], tx, amount) <= Times(ds[..j], tx, amount)
  {
    assert ds[..j] == ds[..i] + ds[i..j];
    TimesAppend(ds[..i], ds[i..j], tx, amount);
  }

  lemma OrdinalGrows(ds: seq<Deposit>, i: nat, j: nat)
    requires i < j < |ds| && ds[i].tx == ds[j].tx && ds[i].amount == ds[j].amount
    ensures Ordinal(ds, i) < Ordinal(ds, j)
  {
    assert ds[..i + 1][..i] == ds[..i];
    TimesGrow(ds, i + 1, j, ds[i].tx, ds[i].amount);
  }

  lemma IdsDiffer(key: string, ds: seq<Deposit>, i: nat, j: nat)
    requires Regulars(ds) && i < j < |ds|
    ensures EntryAt(key, ds, i).id != EntryAt(key, ds, j).id
  {
    if EntryAt(key, ds, i).id == EntryAt(key, ds, j).id {
      IdInjective(key, ds[i].tx, ds[i].amount, Ordinal(ds, i), key, ds[j].tx, ds[j].amount, Ordinal(ds, j));
      OrdinalGrows(ds, i, j);
    }
  }

  /** What `Fresh` collects: entries of this scan, none of them in the history,
      none twice. */
  lemma {:induction false} FreshUnique(key: string, ds: seq<Deposit>, h: seq<Entry>, n: nat)
    requires Regulars(ds) && n <= |ds|
    ensures
      var f := Fresh(key, ds, h, n);
      && Unique(f)
      && forall k :: 0 <= k < |f| ==>
           !HasId(h, f[k].id) && exists i :: 0 <= i < n && f[k] == EntryAt(key, ds, i)
  {
    if n > 0 {
      FreshUnique(key, ds, h, n - 1);
      var f := Fresh(key, ds, h, n - 1);
      forall k | 0 <= k < |f| ensures f[k].id != EntryAt(key, ds, n - 1).id {
        var i :| 0 <= i < n - 1 && f[k] == EntryAt(key, ds, i);
        IdsDiffer(key, ds, i, n - 1);
      }
    }
  }

  /** No id is ever in the history twice, whatever the cap cut off. */
  lemma MergedUnique(key: string, ds: seq<Deposit>, h: seq<Entry>)
    requires Regulars(ds) && Unique(h)
    ensures Unique(Merged(key, ds, h))
  {
    FreshUnique(key, ds, h, |ds|);
    var f := Fresh(key, ds, h, |ds|);
    var all := Reversed(f) + h;
    forall i, j | 0 <= i < j < |all| ensures all[i].id != all[j].id {
      if i < |f| && j >= |f| {
        assert all[i] == f[|f| - 1 - i] && all[j] == h[j - |f|];
      }
    }
  }

  ghost predicate InBlockOrder(ds: seq<Deposit>) {
    forall i, j :: 0 <= i < j < |ds| ==> ds[i].block <= ds[j].block
  }

  /** None of these is of a later block than `top`. */
  ghost predicate NoLater(f: seq<Entry>, top: nat) {
    forall i :: 0 <= i < |f| ==> f[i].block <= top
  }

  ghost predicate OldestFirst(f: seq<Entry>) {
    forall i, j :: 0 <= i < j < |f| ==> f[i].block <= f[j].block
  }

  /** What is new stands in the order of the scan. */
  lemma {:induction false} FreshOrdered(key: string, ds: seq<Deposit>, h: seq<Entry>, n: nat)
    requires InBlockOrder(ds) && n <= |ds|
    ensures OldestFirst(Fresh(key, ds, h, n)) && (n > 0 ==> NoLater(Fresh(key, ds, h, n), ds[n - 1].block))
  {
    if n > 1 {
      FreshOrdered(key, ds, h, n - 1);
      var f := Fresh(key, ds, h, n - 1);
      assert ds[n - 2].block <= ds[n - 1].block;
      assert forall i :: 0 <= i < |f| ==> f[i].block <= ds[n - 1].block;
    } else if n == 1 {
      assert Fresh(key, ds, h, 0) == [];
    }
  }

  /** An entry of a scan: it names the deposit it was made for, and its id. */
  ghost predicate MadeFor(e: Entry, key: string, ds: seq<Deposit>, i: nat)
    requires i < |ds|
  {
    && e.key == key && e.tx == ds[i].tx && e.amount == ds[i].amount && e.block == ds[i].block
    && e.id == Id(key, ds[i].tx, ds[i].amount, Times(ds[..i], ds[i].tx, ds[i].amount))
  }

  /** An entry that was not there before, made for some deposit of the scan. */
  ghost predicate IsNew(e: Entry, key: string, ds: seq<Deposit>, h: seq<Entry>) {
    !HasId(h, e.id) && exists k :: 0 <= k < |ds| && MadeFor(e, key, ds, k)
  }

  lemma {:induction false} FreshIsNew(key: string, ds: seq<Deposit>, h: seq<Entry>, n: nat)
    requires n <= |ds|
    ensures forall i :: 0 <= i < |Fresh(key, ds, h, n)| ==> IsNew(Fresh(key, ds, h, n)[i], key, ds, h)
  {
    if n > 0 {
      FreshIsNew(key, ds, h, n - 1);
      assert MadeFor(EntryAt(key, ds, n - 1), key, ds, n - 1);
    }
  }

  /** The first of `a` and then of `b`, as many as there is room for. */
  lemma CapKeepsFirst(a: seq<Entry>, b: seq<Entry>)
    ensures
      var m := Capped(a + b);
      && |m| == (if |a| + |b| < 500 then |a| + |b| else 500)
      && forall i :: 0 <= i < |m| ==> m[i] == if i < |a| then a[i] else b[i - |a|]
  {
  }

  /** The last of `f` in front, and where entry `i` of the result comes from. */
  lemma CapReverses(f: seq<Entry>, h: seq<Entry>)
    ensures
      var m := Capped(Reversed(f) + h);
      && |m| == (if |f| + |h| < 500 then |f| + |h| else 500)
      && (forall i :: 0 <= i < |m| && i < |f| ==> m[i] == f[|f| - 1 - i])
      && (forall i :: |f| <= i < |m| ==> m[i] == h[i - |f|])
  {
    CapKeepsFirst(Reversed(f), h);
  }

  lemma CapDescends(f: seq<Entry>, h: seq<Entry>)
    requires OldestFirst(f)
    ensures
      var m := Capped(Reversed(f) + h);
      forall i, j :: 0 <= i < j < |m| && j < |f| ==> m[i].block >= m[j].block
  {
    var m := Capped(Reversed(f) + h);
    CapReverses(f, h);
    forall i, j | 0 <= i < j < |m| && j < |f| ensures m[i].block >= m[j].block {
      assert m[i] == f[|f| - 1 - i] && m[j] == f[|f| - 1 - j];
    }
  }

  /** A recording past the cap drops the oldest entries and nothing else: the list
      holds as many of the newest as there is room for, those of the scan first, the
      latest of them in front, then what it held, in its order. */
  lemma NewestStay(key: string, ds: seq<Deposit>, h: seq<Entry>)
    ensures
      var m, f := Merged(key, ds, h), |Fresh(key, ds, h, |ds|)|;
      && |m| == (if f + |h| < 500 then f + |h| else 500)
      && (forall i :: f <= i < |m| ==> m[i] == h[i - f])
      && (forall i :: 0 <= i < |m| && i < f ==> IsNew(m[i], key, ds, h))
      && (InBlockOrder(ds) ==> forall i, j :: 0 <= i < j < |m| && j < f ==> m[i].block >= m[j].block)
  {
    var f := Fresh(key, ds, h, |ds|);
    var m := Merged(key, ds, h);
    FreshIsNew(key, ds, h, |ds|);
    CapReverses(f, h);
    forall i | 0 <= i < |m| && i < |f| ensures IsNew(m[i], key, ds, h) {
      assert m[i] == f[|f| - 1 - i];
    }
    if InBlockOrder(ds) {
      FreshOrdered(key, ds, h, |ds|);
      CapDescends(f, h);
    }
  }

  /** A transfer's `n`-th id is among those of a scan exactly when it is there that
      often. */
  lemma {:induction false} ScanHas(key: string, ds: seq<Deposit>, m: nat, tx: string, amount: string, n: nat)
    returns (i: nat)
    requires m <= |ds|
    ensures n < Times(ds[..m], tx, amount) ==>
      i < m && ds[i].tx == tx && ds[i].amount == amount && Ordinal(ds, i) == n
  {
    i := 0;
    if m > 0 {
      assert ds[..m][..m - 1] == ds[..m - 1];
      if n < Times(ds[..m - 1], tx, amount) {
        i := ScanHas(key, ds, m - 1, tx, amount, n);
      } else {
        i := m - 1;
      }
    }
  }

  lemma {:induction false} FreshHas(key: string, ds: seq<Deposit>, h: seq<Entry>, n: nat, i: nat)
    requires i < n <= |ds|
    ensures HasId(h, EntryAt(key, ds, i).id) || HasId(Fresh(key, ds, h, n), EntryAt(key, ds, i).id)
  {
    var id := EntryAt(key, ds, i).id;
    if i < n - 1 {
      FreshHas(key, ds, h, n - 1, i);
      if HasId(Fresh(key, ds, h, n - 1), id) {
        var k :| 0 <= k < |Fresh(key, ds, h, n - 1)| && Fresh(key, ds, h, n - 1)[k].id == id;
        assert Fresh(key, ds, h, n)[k].id == id;
      }
    } else if !HasId(h, id) {
      assert Fresh(key, ds, h, n)[|Fresh(key, ds, h, n - 1)|].id == id;
    }
  }

  lemma HasAppend(a: seq<Entry>, b: seq<Entry>, id: string)
    ensures HasId(Reversed(a) + b, id) <==> HasId(a, id) || HasId(b, id)
  {
    var all := Reversed(a) + b;
    if i :| 0 <= i < |a| && a[i].id == id {
      assert all[|a| - 1 - i].id == id;
    }
    if i :| 0 <= i < |b| && b[i].id == id {
      assert all[|a| + i].id == id;
    }
    if i :| 0 <= i < |all| && all[i].id == id {
      if i < |a| {
        assert a[|a| - 1 - i].id == id;
      } else {
        assert b[i - |a|].id == id;
      }
    }
  }

  lemma Uncapped(f: seq<Entry>, h: seq<Entry>)
    ensures |f| + |h| <= MAX_HISTORY ==> Capped(Reversed(f) + h) == Reversed(f) + h
    ensures |Capped(Reversed(f) + h)| <= |f| + |h|
  {
    assert |Reversed(f) + h| == |f| + |h|;
  }

  /** Only what the scan found is new, ... */
  lemma FreshOnly(key: string, ds: seq<Deposit>, h: seq<Entry>, tx: string, amount: string, n: nat)
    requires Regulars(ds) && NoColon(tx) && NoColon(amount)
    ensures HasId(Fresh(key, ds, h, |ds|), Id(key, tx, amount, n)) ==> n < Times(ds, tx, amount)
  {
    var f := Fresh(key, ds, h, |ds|);
    FreshUnique(key, ds, h, |ds|);
    if k :| 0 <= k < |f| && f[k].id == Id(key, tx, amount, n) {
      var i :| 0 <= i < |ds| && f[k] == EntryAt(key, ds, i);
      IdInjective(key, tx, amount, n, key, ds[i].tx, ds[i].amount, Ordinal(ds, i));
      OrdinalBelow(ds, i);
    }
  }

  lemma OrdinalBelow(ds: seq<Deposit>, i: nat)
    requires i < |ds|
    ensures Ordinal(ds, i) < Times(ds, ds[i].tx, ds[i].amount)
  {
    assert ds[..i + 1][..i] == ds[..i] && ds[..|ds|] == ds;
    TimesGrow(ds, i + 1, |ds|, ds[i].tx, ds[i].amount);
  }

  /** ... and all of it is there afterwards. */
  lemma FreshAll(key: string, ds: seq<Deposit>, h: seq<Entry>, tx: string, amount: string, n: nat)
    requires n < Times(ds, tx, amount)
    ensures HasId(h, Id(key, tx, amount, n)) || HasId(Fresh(key, ds, h, |ds|), Id(key, tx, amount, n))
  {
    assert ds[..|ds|] == ds;
    var i := ScanHas(key, ds, |ds|, tx, amount, n);
    FreshHas(key, ds, h, |ds|, i);
  }

  /** Below the cap the history afterwards holds what it held and what the scan
      found. */
  lemma MergedHas(key: string, ds: seq<Deposit>, h: seq<Entry>, tx: string, amount: string, n: nat)
    requires Regulars(ds) && NoColon(tx) && NoColon(amount)
    requires |Fresh(key, ds, h, |ds|)| + |h| <= MAX_HISTORY
    ensures HasId(Merged(key, ds, h), Id(key, tx, amount, n)) <==>
      HasId(h, Id(key, tx, amount, n)) || n < Times(ds, tx, amount)
  {
    var f := Fresh(key, ds, h, |ds|);
    Uncapped(f, h);
    HasAppend(f, h, Id(key, tx, amount, n));
    FreshOnly(key, ds, h, tx, amount, n);
    if n < Times(ds, tx, amount) {
      FreshAll(key, ds, h, tx, amount, n);
    }
  }

  /** Another receiver's entries are not touched. */
  lemma MergedOthers(key: string, ds: seq<Deposit>, h: seq<Entry>, key': string, tx: string, amount: string, n: nat)
    requires Regulars(ds) && NoColon(tx) && NoColon(amount) && key' != key
    requires |Fresh(key, ds, h, |ds|)| + |h| <= MAX_HISTORY
    ensures HasId(Merged(key, ds, h), Id(key', tx, amount, n)) <==> HasId(h, Id(key', tx, amount, n))
  {
    var id := Id(key', tx, amount, n);
    var f := Fresh(key, ds, h, |ds|);
    HasAppend(f, h, id);
    FreshUnique(key, ds, h, |ds|);
    if k :| 0 <= k < |f| && f[k].id == id {
      var i :| 0 <= i < |ds| && f[k] == EntryAt(key, ds, i);
      IdInjective(key', tx, amount, n, key, ds[i].tx, ds[i].amount, Ordinal(ds, i));
    }
  }

  // ---- counting --------------------------------------------------------------------------

  /** The history's entries for one transfer. */
  function Entries(h: seq<Entry>, key: string, tx: string, amount: string): nat {
    if h == [] then 0
    else
      var e := h[|h| - 1];
      Entries(h[..|h| - 1], key, tx, amount) + if e.key == key && e.tx == tx && e.amount == amount then 1 else 0
  }

  /** Every id spells out its entry. */
  ghost predicate Formed(h: seq<Entry>) {
    forall i :: 0 <= i < |h| ==> FormedEntry(h[i])
  }

  ghost predicate FormedEntry(e: Entry) {
    NoColon(e.tx) && NoColon(e.amount) && exists n: nat :: e.id == Id(e.key, e.tx, e.amount, n)
  }

  lemma {:induction false} FreshFormed(key: string, ds: seq<Deposit>, h: seq<Entry>, n: nat)
    requires Regulars(ds) && n <= |ds|
    ensures Formed(Fresh(key, ds, h, n))
  {
    if n > 0 {
      FreshFormed(key, ds, h, n - 1);
      assert FormedEntry(EntryAt(key, ds, n - 1));
    }
  }

  /** How many of the first `m` ids of a transfer are in the history. */
  function Held(h: seq<Entry>, key: string, tx: string, amount: string, m: nat): nat {
    if m == 0 then 0 else Held(h, key, tx, amount, m - 1) + if HasId(h, Id(key, tx, amount, m - 1)) then 1 else 0
  }

  /** Adding an entry with an id of its own adds it to exactly one transfer. */
  lemma {:induction false} HeldNext(h: seq<Entry>, e: Entry, key: string, tx: string, amount: string, n: nat, m: nat)
    requires NoColon(tx) && NoColon(amount) && FormedEntry(e) && e.id == Id(e.key, e.tx, e.amount, n) && !HasId(h, e.id)
    ensures Held(h + [e], key, tx, amount, m) == Held(h, key, tx, amount, m)
      + if e.key == key && e.tx == tx && e.amount == amount && n < m then 1 else 0
  {
    if m > 0 {
      HeldNext(h, e, key, tx, amount, n, m - 1);
      var id := Id(key, tx, amount, m - 1);
      HasNext(h, e, id);
      if e.id == id {
        IdInjective(e.key, e.tx, e.amount, n, key, tx, amount, m - 1);
      }
    }
  }

  lemma HasNext(h: seq<Entry>, e: Entry, id: string)
    ensures HasId(h + [e], id) <==> HasId(h, id) || e.id == id
  {
    if i :| 0 <= i < |h| && h[i].id == id {
      assert (h + [e])[i].id == id;
    }
    if e.id == id {
      assert (h + [e])[|h|].id == id;
    }
  }

  lemma {:induction false} EntriesHeld(h: seq<Entry>, key: string, tx: string, amount: string, m: nat)
    requires Unique(h) && Formed(h) && NoColon(tx) && NoColon(amount)
    requires forall n: nat :: m <= n ==> !HasId(h, Id(key, tx, amount, n))
    ensures Entries(h, key, tx, amount) == Held(h, key, tx, amount, m)
  {
    if h == [] {
      NoneHeld(key, tx, amount, m);
    } else {
      var before, e := h[..|h| - 1], h[|h| - 1];
      assert h == before + [e];
      assert FormedEntry(e);
      var n: nat :| e.id == Id(e.key, e.tx, e.amount, n);
      forall k: nat | m <= k ensures !HasId(before, Id(key, tx, amount, k)) {
        HasNext(before, e, Id(key, tx, amount, k));
      }
      EntriesHeld(before, key, tx, amount, m);
      HeldNext(before, e, key, tx, amount, n, m);
      HasNext(before, e, Id(key, tx, amount, n));
    }
  }

  lemma {:induction false} NoneHeld(key: string, tx: string, amount: string, m: nat)
    ensures Held([], key, tx, amount, m) == 0
  {
    if m > 0 {
      NoneHeld(key, tx, amount, m - 1);
    }
  }

  lemma {:induction false} AllHeld(h: seq<Entry>, key: string, tx: string, amount: string, m: nat)
    requires forall n: nat :: n < m ==> HasId(h, Id(key, tx, amount, n))
    ensures Held(h, key, tx, amount, m) == m
  {
    if m > 0 {
      AllHeld(h, key, tx, amount, m - 1);
    }
  }

  /** The history holds exactly the deposits of blocks `start` up to `top`. */
  ghost predicate Covered(h: seq<Entry>, c: Chain, key: string, start: nat, top: nat) {
    forall tx, amount, n: nat :: NoColon(tx) && NoColon(amount) ==>
      (HasId(h, Id(key, tx, amount, n)) <==> n < OnChain(c, tx, amount, start, top))
  }

  /** Then each transfer is listed as often as it is on chain. */
  lemma CountedOnce(h: seq<Entry>, c: Chain, key: string, start: nat, top: nat, tx: string, amount: string)
    requires Unique(h) && Formed(h) && Covered(h, c, key, start, top) && NoColon(tx) && NoColon(amount)
    ensures Entries(h, key, tx, amount) == OnChain(c, tx, amount, start, top)
  {
    var m := OnChain(c, tx, amount, start, top);
    EntriesHeld(h, key, tx, amount, m);
    AllHeld(h, key, tx, amount, m);
  }

  // ---- scans -------------------------------------------------------------------------------

  datatype Kind = Evm | Starknet | Solana

  /** The deposits of one window and the block to go on from. */
  function ScanDeposits(kind: Kind, c: Chain, from: nat, head: nat): (seq<Deposit>, nat) {
    if from > head then ([], from)
    else
      var to := match kind
        case Evm => if head < from + EVM_LOG_WINDOW - 1 then head else from + EVM_LOG_WINDOW - 1
        case Starknet => if head < from + STARKNET_EVENT_WINDOW - 1 then head else from + STARKNET_EVENT_WINDOW - 1
        case Solana => head;
      (Between(c, from, to + 1), to + 1)
  }

  lemma StampedRegular(c: Chain, block: nat)
    requires Regular(c)
    ensures Regulars(Stamped(c.At(block), block))
  {
  }

  lemma RegularsJoin(a: seq<Deposit>, b: seq<Deposit>)
    requires Regulars(a) && Regulars(b)
    ensures Regulars(a + b)
  {
  }

  lemma {:induction false} BetweenRegular(c: Chain, from: nat, to: nat)
    requires Regular(c)
    ensures Regulars(Between(c, from, to))
  {
    if from < to {
      BetweenRegular(c, from, to - 1);
      StampedRegular(c, to - 1);
      RegularsJoin(Between(c, from, to - 1), Stamped(c.At(to - 1), to - 1));
    }
  }

  lemma ScanRegular(kind: Kind, c: Chain, from: nat, head: nat)
    requires Regular(c)
    ensures Regulars(ScanDeposits(kind, c, from, head).0)
  {
    if from <= head {
      BetweenRegular(c, from, ScanDeposits(kind, c, from, head).1);
    }
  }

  /** A recorded window leaves the history exact up to the further end. */
  lemma MergedCovers(c: Chain, key: string, h: seq<Entry>, start: nat, from: nat, top: nat, next: nat)
    requires Regular(c) && Covered(h, c, key, start, top) && start <= from <= top && from <= next
    requires |Fresh(key, Between(c, from, next), h, |Between(c, from, next)|)| + |h| <= MAX_HISTORY
    ensures Covered(Merged(key, Between(c, from, next), h), c, key, start, if top < next then next else top)
  {
    var ds := Between(c, from, next);
    BetweenRegular(c, from, next);
    forall tx, amount, n: nat | NoColon(tx) && NoColon(amount)
      ensures HasId(Merged(key, ds, h), Id(key, tx, amount, n)) <==>
        n < OnChain(c, tx, amount, start, if top < next then next else top)
    {
      MergedHas(key, ds, h, tx, amount, n);
      Overlapping(c, tx, amount, start, from, top, next, n);
    }
  }

  lemma MergedKeepsOthers(c: Chain, key: string, ds: seq<Deposit>, h: seq<Entry>, key': string, start: nat, top: nat)
    requires Regulars(ds) && Covered(h, c, key', start, top) && key' != key
    requires |Fresh(key, ds, h, |ds|)| + |h| <= MAX_HISTORY
    ensures Covered(Merged(key, ds, h), c, key', start, top)
  {
    forall tx, amount, n: nat | NoColon(tx) && NoColon(amount)
      ensures HasId(Merged(key, ds, h), Id(key', tx, amount, n)) <==> n < OnChain(c, tx, amount, start, top)
    {
      MergedOthers(key, ds, h, key', tx, amount, n);
    }
  }

  lemma MergedFormed(key: string, ds: seq<Deposit>, h: seq<Entry>)
    requires Regulars(ds) && Formed(h)
    ensures Formed(Merged(key, ds, h))
  {
    FreshFormed(key, ds, h, |ds|);
  }

  // ---- the store and the watcher ----------------------------------------------------------

  /** One turn of the catch-up loop: the head it sees (none: the request failed),
      and whether its two writes are accepted. */
  datatype Turn = Turn(head: Option<nat>, historyOk: bool, cursorOk: bool)

  function Base(key: string, d: Deposit): string {
    key + ":" + d.tx + ":" + d.amount
  }

  lemma BaseInjective(key: string, d: Deposit, e: Deposit)
    requires NoColon(d.tx) && NoColon(d.amount) && NoColon(e.tx) && NoColon(e.amount)
    ensures Base(key, d) == Base(key, e) <==> d.tx == e.tx && d.amount == e.amount
  {
    if Base(key, d) == Base(key, e) {
      LastField(key + ":" + d.tx, d.amount, key + ":" + e.tx, e.amount);
      LastField(key, d.tx, key, e.tx);
    }
  }

  function Counted(ordinals: map<string, nat>, base: string): nat {
    if base in ordinals then ordinals[base] else 0
  }

  lemma CountOne(key: string, ds: seq<Deposit>, i: nat, j: nat)
    requires Regulars(ds) && i < |ds| && j < |ds|
    ensures Times(ds[..i + 1], ds[j].tx, ds[j].amount) ==
      Times(ds[..i], ds[j].tx, ds[j].amount) + if Base(key, ds[i]) == Base(key, ds[j]) then 1 else 0
  {
    assert ds[..i + 1][..i] == ds[..i];
    BaseInjective(key, ds[i], ds[j]);
  }

  /** What a scan may rely on: history and cursor of one receiver agree. */
  ghost predicate Tracks(h: seq<Entry>, cursors: map<string, nat>, c: Chain, key: string, startBlock: Option<nat>,
                         start: nat, top: nat) {
    && start <= top && Covered(h, c, key, start, top)
    && (key in cursors ==> start <= cursors[key] <= top)
    && (key !in cursors && startBlock.Some? ==> startBlock.value == start)
  }

  /** The next scan goes on where the history ends, or nothing is recorded yet. */
  ghost predicate Resumable(cursors: map<string, nat>, key: string, startBlock: Option<nat>, start: nat, top: nat) {
    key in cursors || startBlock.Some? || start == top
  }

  /** History and cursors after one recording, and what was new. */
  function Recorded(h: seq<Entry>, cursors: map<string, nat>, key: string, ds: seq<Deposit>, next: nat,
                    historyOk: bool, cursorOk: bool): (seq<Entry>, map<string, nat>, Option<seq<Entry>>) {
    var found: seq<Entry> := Fresh(key, ds, h, |ds|);
    if found != [] && !historyOk then (h, cursors, None)
    else
      var h' := if found == [] then h else Merged(key, ds, h);
      if cursorOk then (h', cursors[key := next], Some(found)) else (h', cursors, None)
  }

  /** Room for everything a scan found. */
  predicate FitsIn(h: seq<Entry>, key: string, ds: seq<Deposit>) {
    |Fresh(key, ds, h, |ds|)| + |h| <= MAX_HISTORY
  }

  function Further(a: nat, b: nat): nat {
    if a < b then b else a
  }

  /** How far the history reaches after a recording: a refused history write leaves
      it where it was. */
  function Reach(h: seq<Entry>, key: string, ds: seq<Deposit>, top: nat, next: nat, historyOk: bool): nat {
    if Fresh(key, ds, h, |ds|) != [] && !historyOk then top else Further(top, next)
  }

  lemma NothingMerged(key: string, ds: seq<Deposit>, h: seq<Entry>)
    requires |h| <= MAX_HISTORY
    ensures Fresh(key, ds, h, |ds|) == [] ==> Merged(key, ds, h) == h
  {
    if Fresh(key, ds, h, |ds|) == [] {
      assert Reversed([]) + h == h;
    }
  }

  /** Whatever storage refuses, and wherever the process stops between the two
      writes: history and cursor still agree. */
  lemma RecordedTracks(h: seq<Entry>, cursors: map<string, nat>, c: Chain, key: string, startBlock: Option<nat>,
                       start: nat, top: nat, from: nat, next: nat, historyOk: bool, cursorOk: bool)
    requires Regular(c) && Tracks(h, cursors, c, key, startBlock, start, top)
    requires start <= from <= top && from <= next && FitsIn(h, key, Between(c, from, next))
    ensures
      var (h', cursors', _) := Recorded(h, cursors, key, Between(c, from, next), next, historyOk, cursorOk);
      Tracks(h', cursors', c, key, startBlock, start, Reach(h, key, Between(c, from, next), top, next, historyOk))
  {
    MergedCovers(c, key, h, start, from, top, next);
    NothingMerged(key, Between(c, from, next), h);
  }

  lemma RecordedFormed(h: seq<Entry>, cursors: map<string, nat>, key: string, ds: seq<Deposit>, next: nat,
                       historyOk: bool, cursorOk: bool)
    requires Regulars(ds) && Unique(h) && Formed(h)
    ensures
      var h' := Recorded(h, cursors, key, ds, next, historyOk, cursorOk).0;
      Unique(h') && Formed(h')
  {
    MergedUnique(key, ds, h);
    MergedFormed(key, ds, h);
  }

  /** One receiver's recording leaves all others as they were. */
  ghost predicate OthersKept(h: seq<Entry>, h': seq<Entry>, key: string) {
    forall c, key', start, top :: key' != key && Covered(h, c, key', start, top) ==> Covered(h', c, key', start, top)
  }

  lemma RecordedKeepsOthers(h: seq<Entry>, cursors: map<string, nat>, key: string, ds: seq<Deposit>, next: nat,
                            historyOk: bool, cursorOk: bool)
    requires Regulars(ds) && FitsIn(h, key, ds)
    ensures OthersKept(h, Recorded(h, cursors, key, ds, next, historyOk, cursorOk).0, key)
  {
    forall c, key', start, top | key' != key && Covered(h, c, key', start, top)
      ensures Covered(Recorded(h, cursors, key, ds, next, historyOk, cursorOk).0, c, key', start, top)
    {
      MergedKeepsOthers(c, key, ds, h, key', start, top);
    }
  }

  lemma OthersTransitive(a: seq<Entry>, b: seq<Entry>, c: seq<Entry>, key: string)
    requires OthersKept(a, b, key) && OthersKept(b, c, key)
    ensures OthersKept(a, c, key)
  {
    forall ch, key', start, top | key' != key && Covered(a, ch, key', start, top) ensures Covered(c, ch, key', start, top) {
      assert Covered(b, ch, key', start, top);
    }
  }

  // ---- windows, visits, runs ---------------------------------------------------------------

  /** What is stored. */
  datatype Disk = Disk(history: seq<Entry>, cursors: map<string, nat>)

  /** How a window ended: by an error, with nothing left to scan, or scanned. */
  datatype Ending = Threw | CaughtUp | Moved

  datatype Window = Window(disk: Disk, cursor: nat, ending: Ending)

  /** One window: scanned, recorded, and the cursor of the loop moved on. */
  function ScanOne(kind: Kind, key: string, c: Chain, turn: Turn, cursor: nat, d: Disk): Window {
    if turn.head.None? then Window(d, cursor, Threw)
    else
      var (ds, next) := ScanDeposits(kind, c, cursor, turn.head.value);
      if next == cursor then Window(d, cursor, CaughtUp)
      else
        var (h, cursors, added) := Recorded(d.history, d.cursors, key, ds, next, turn.historyOk, turn.cursorOk);
        if added.None? then Window(Disk(h, cursors), cursor, Threw) else Window(Disk(h, cursors), next, Moved)
  }

  /** Window after window, until one throws or there is nothing left. */
  function ScanAll(kind: Kind, key: string, c: Chain, turns: seq<Turn>, cursor: nat, d: Disk): (Disk, bool) {
    if turns == [] then (d, true)
    else
      var w := ScanOne(kind, key, c, turns[0], cursor, d);
      if w.ending.Moved? then ScanAll(kind, key, c, turns[1..], w.cursor, w.disk) else (w.disk, w.ending.CaughtUp?)
  }

  /** One visit to a receiver: what it knows, what it meets, what storage takes. */
  datatype Visit = Visit(
    kind: Kind, key: string, startBlock: Option<nat>, c: Chain, firstHead: Option<nat>, setOk: bool, turns: seq<Turn>)

  /** Where a visit begins: at the cursor, else where the lane was created, else
      from now; nowhere when it cannot learn what now is. */
  function Begins(v: Visit, d: Disk): Option<nat> {
    if v.key in d.cursors then Some(d.cursors[v.key]) else if v.startBlock.Some? then v.startBlock else v.firstHead
  }

  /** The disk once the first cursor was set, or refused. */
  function Opened(v: Visit, d: Disk): Disk {
    if v.key in d.cursors || Begins(v, d).None? || !v.setOk then d
    else Disk(d.history, d.cursors[v.key := Begins(v, d).value])
  }

  function Visited(v: Visit, d: Disk): (Disk, bool) {
    if Begins(v, d).None? then (d, false)
    else ScanAll(v.kind, v.key, v.c, v.turns, Begins(v, d).value, Opened(v, d))
  }

  function AfterAll(visits: seq<Visit>): Disk {
    if visits == [] then Disk([], map[]) else Visited(visits[|visits| - 1], AfterAll(visits[..|visits| - 1])).0
  }

  /** Room for all that each recording finds: the cap cuts nothing off. */
  predicate OneFits(kind: Kind, key: string, c: Chain, turn: Turn, cursor: nat, d: Disk) {
    turn.head.Some? ==> FitsIn(d.history, key, ScanDeposits(kind, c, cursor, turn.head.value).0)
  }

  predicate AllFit(kind: Kind, key: string, c: Chain, turns: seq<Turn>, cursor: nat, d: Disk) {
    turns != [] ==>
      && OneFits(kind, key, c, turns[0], cursor, d)
      && var w := ScanOne(kind, key, c, turns[0], cursor, d);
         w.ending.Moved? ==> AllFit(kind, key, c, turns[1..], w.cursor, w.disk)
  }

  predicate VisitFits(v: Visit, d: Disk) {
    Begins(v, d).Some? ==> AllFit(v.kind, v.key, v.c, v.turns, Begins(v, d).value, Opened(v, d))
  }

  /** The cap never bites: no recording of the run finds more than there is room for. */
  predicate RunFits(visits: seq<Visit>) {
    visits != [] ==>
      RunFits(visits[..|visits| - 1]) && VisitFits(visits[|visits| - 1], AfterAll(visits[..|visits| - 1]))
  }

  /** How far the history reaches after a window, windows, a run. */
  function TopOne(kind: Kind, key: string, c: Chain, turn: Turn, cursor: nat, d: Disk, top: nat): nat {
    if turn.head.None? then top
    else
      var (ds, next) := ScanDeposits(kind, c, cursor, turn.head.value);
      if next == cursor then top else Reach(d.history, key, ds, top, next, turn.historyOk)
  }

  function TopAll(kind: Kind, key: string, c: Chain, turns: seq<Turn>, cursor: nat, d: Disk, top: nat): nat {
    if turns == [] then top
    else
      var w := ScanOne(kind, key, c, turns[0], cursor, d);
      var top' := TopOne(kind, key, c, turns[0], cursor, d, top);
      if w.ending.Moved? then TopAll(kind, key, c, turns[1..], w.cursor, w.disk, top') else top'
  }

  function TopAfter(visits: seq<Visit>, key: string, startBlock: Option<nat>): nat {
    if visits == [] then if startBlock.Some? then startBlock.value else 0
    else
      var n := |visits| - 1;
      var v, d, top := visits[n], AfterAll(visits[..n]), TopAfter(visits[..n], key, startBlock);
      if v.key != key || Begins(v, d).None? then top
      else
        TopAll(v.kind, key, v.c, v.turns, Begins(v, d).value, Opened(v, d),
               if key in d.cursors || startBlock.Some? then top else Begins(v, d).value)
  }

  /** The head the first visit to a receiver found. */
  function FirstHead(visits: seq<Visit>, key: string): Option<nat> {
    if visits == [] then None
    else
      var before, last := FirstHead(visits[..|visits| - 1], key), visits[|visits| - 1];
      if before.None? && last.key == key then last.firstHead else before
  }

  /** Where a receiver's history begins: at its start block, else at that head. */
  function StartOf(visits: seq<Visit>, key: string, startBlock: Option<nat>): nat {
    if startBlock.Some? then startBlock.value
    else if FirstHead(visits, key).Some? then FirstHead(visits, key).value
    else 0
  }

  // ---- what one window keeps ---------------------------------------------------------------

  lemma OneTracks(kind: Kind, key: string, startBlock: Option<nat>, c: Chain, turn: Turn, cursor: nat, d: Disk,
                  start: nat, top: nat)
    requires Regular(c) && Tracks(d.history, d.cursors, c, key, startBlock, start, top) && start <= cursor <= top
    requires OneFits(kind, key, c, turn, cursor, d)
    ensures
      var w, top' := ScanOne(kind, key, c, turn, cursor, d), TopOne(kind, key, c, turn, cursor, d, top);
      && Tracks(w.disk.history, w.disk.cursors, c, key, startBlock, start, top')
      && start <= w.cursor <= top' && top <= top'
  {
    if turn.head.Some? {
      var (ds, next) := ScanDeposits(kind, c, cursor, turn.head.value);
      if next != cursor {
        assert ds == Between(c, cursor, next);
        RecordedTracks(d.history, d.cursors, c, key, startBlock, start, top, cursor, next, turn.historyOk, turn.cursorOk);
      }
    }
  }

  /** Ids stay unique and spelt out, cap or no cap. */
  ghost predicate Sound(d: Disk) {
    Unique(d.history) && Formed(d.history)
  }

  lemma OneSound(kind: Kind, key: string, c: Chain, turn: Turn, cursor: nat, d: Disk)
    requires Regular(c) && Sound(d)
    ensures Sound(ScanOne(kind, key, c, turn, cursor, d).disk)
  {
    if turn.head.Some? {
      var (ds, next) := ScanDeposits(kind, c, cursor, turn.head.value);
      ScanRegular(kind, c, cursor, turn.head.value);
      RecordedFormed(d.history, d.cursors, key, ds, next, turn.historyOk, turn.cursorOk);
    }
  }

  /** What a visit to one receiver leaves of the others' cursors, and of its own. */
  ghost predicate OnlyCursor(d: Disk, d': Disk, key: string) {
    && (key in d.cursors ==> key in d'.cursors)
    && forall k :: k != key ==> (k in d'.cursors <==> k in d.cursors) && (k in d.cursors ==> d'.cursors[k] == d.cursors[k])
  }

  lemma OneOthers(kind: Kind, key: string, c: Chain, turn: Turn, cursor: nat, d: Disk)
    requires Regular(c)
    ensures OnlyCursor(d, ScanOne(kind, key, c, turn, cursor, d).disk, key)
    ensures OneFits(kind, key, c, turn, cursor, d) ==>
      OthersKept(d.history, ScanOne(kind, key, c, turn, cursor, d).disk.history, key)
  {
    if turn.head.Some? && OneFits(kind, key, c, turn, cursor, d) {
      var (ds, next) := ScanDeposits(kind, c, cursor, turn.head.value);
      ScanRegular(kind, c, cursor, turn.head.value);
      RecordedKeepsOthers(d.history, d.cursors, key, ds, next, turn.historyOk, turn.cursorOk);
    }
  }

  // ---- ... and all windows of a visit --------------------------------------------------------

  lemma {:induction false} AllTrack(kind: Kind, key: string, startBlock: Option<nat>, c: Chain, turns: seq<Turn>,
                                    cursor: nat, d: Disk, start: nat, top: nat)
    requires Regular(c) && Tracks(d.history, d.cursors, c, key, startBlock, start, top) && start <= cursor <= top
    requires AllFit(kind, key, c, turns, cursor, d)
    ensures
      var d' := ScanAll(kind, key, c, turns, cursor, d).0;
      Tracks(d'.history, d'.cursors, c, key, startBlock, start, TopAll(kind, key, c, turns, cursor, d, top))
    decreases |turns|
  {
    if turns != [] {
      OneTracks(kind, key, startBlock, c, turns[0], cursor, d, start, top);
      var w := ScanOne(kind, key, c, turns[0], cursor, d);
      if w.ending.Moved? {
        AllTrack(kind, key, startBlock, c, turns[1..], w.cursor, w.disk, start, TopOne(kind, key, c, turns[0], cursor, d, top));
      }
    }
  }

  lemma {:induction false} AllSound(kind: Kind, key: string, c: Chain, turns: seq<Turn>, cursor: nat, d: Disk)
    requires Regular(c) && Sound(d)
    ensures Sound(ScanAll(kind, key, c, turns, cursor, d).0)
    decreases |turns|
  {
    if turns != [] {
      OneSound(kind, key, c, turns[0], cursor, d);
      var w := ScanOne(kind, key, c, turns[0], cursor, d);
      if w.ending.Moved? {
        AllSound(kind, key, c, turns[1..], w.cursor, w.disk);
      }
    }
  }

  lemma {:induction false} AllOthers(kind: Kind, key: string, c: Chain, turns: seq<Turn>, cursor: nat, d: Disk)
    requires Regular(c)
    ensures OnlyCursor(d, ScanAll(kind, key, c, turns, cursor, d).0, key)
    ensures AllFit(kind, key, c, turns, cursor, d) ==> OthersKept(d.history, ScanAll(kind, key, c, turns, cursor, d).0.history, key)
    decreases |turns|
  {
    if turns != [] {
      OneOthers(kind, key, c, turns[0], cursor, d);
      var w := ScanOne(kind, key, c, turns[0], cursor, d);
      if w.ending.Moved? {
        AllOthers(kind, key, c, turns[1..], w.cursor, w.disk);
        if AllFit(kind, key, c, turns, cursor, d) {
          OthersTransitive(d.history, w.disk.history, ScanAll(kind, key, c, turns[1..], w.cursor, w.disk).0.history, key);
        }
      }
    }
  }

  // ---- a visit gets somewhere ------------------------------------------------------------------

  /** The block a visit of `n` windows can get to. */
  function Goal(kind: Kind, from: nat, head: nat, n: nat): nat {
    match kind
    case Evm => if head + 1 < from + n * 2000 then head + 1 else from + n * 2000
    case Starknet => if head + 1 < from + n * 500 then head + 1 else from + n * 500
    case Solana => head + 1
  }

  /** A window in which nothing goes wrong. */
  lemma OneReaches(kind: Kind, key: string, c: Chain, cursor: nat, d: Disk, head: nat)
    requires cursor <= head
    ensures
      var w := ScanOne(kind, key, c, Turn(Some(head), true, true), cursor, d);
      w.ending.Moved? && w.cursor == Goal(kind, cursor, head, 1) && key in w.disk.cursors && w.disk.cursors[key] == w.cursor
  {
  }

  /** Windows in which nothing goes wrong get as far as they can. */
  lemma {:induction false} AllReach(kind: Kind, key: string, c: Chain, turns: seq<Turn>, cursor: nat, d: Disk, head: nat)
    requires turns != [] && cursor <= head && forall t :: t in turns ==> t == Turn(Some(head), true, true)
    ensures
      var (d', ok) := ScanAll(kind, key, c, turns, cursor, d);
      ok && key in d'.cursors && d'.cursors[key] == Goal(kind, cursor, head, |turns|)
    decreases |turns|
  {
    OneReaches(kind, key, c, cursor, d, head);
    assert turns[0] in turns && forall t :: t in turns[1..] ==> t in turns;
    var w, rest := ScanOne(kind, key, c, turns[0], cursor, d), turns[1..];
    if rest != [] {
      if w.cursor <= head {
        AllReach(kind, key, c, rest, w.cursor, w.disk, head);
      } else {
        assert rest[0] in turns;
      }
    }
  }

  /** A visit in which nothing goes wrong succeeds and takes the cursor to the head,
      or as far as its windows reach. */
  lemma VisitReaches(v: Visit, d: Disk, head: nat)
    requires v.turns != [] && v.setOk && Begins(v, d).Some? && forall t :: t in v.turns ==> t == Turn(Some(head), true, true)
    ensures
      var (d', ok), b := Visited(v, d), Begins(v, d).value;
      ok && v.key in d'.cursors && d'.cursors[v.key] == if b > head then b else Goal(v.kind, b, head, |v.turns|)
  {
    var b := Begins(v, d).value;
    if b > head {
      assert v.turns[0] in v.turns;
    } else {
      AllReach(v.kind, v.key, v.c, v.turns, b, Opened(v, d), head);
    }
  }

  /** Visits of one receiver in which nothing goes wrong. */
  ghost predicate AllGood(visits: seq<Visit>, kind: Kind, key: string, start: nat, head: nat) {
    forall v :: v in visits ==>
      && v.kind == kind && v.key == key && v.startBlock == Some(start) && v.setOk
      && |v.turns| == MAX_WINDOWS_PER_RECEIVER && forall t :: t in v.turns ==> t == Turn(Some(head), true, true)
  }

  /** Each goes on where the one before it stopped, until the head is reached. */
  lemma {:induction false} RunReaches(visits: seq<Visit>, kind: Kind, key: string, start: nat, head: nat)
    requires visits != [] && start <= head && AllGood(visits, kind, key, start, head)
    ensures
      var d := AfterAll(visits);
      key in d.cursors && d.cursors[key] == Goal(kind, start, head, 8 * |visits|)
  {
    var n := |visits| - 1;
    var before, v := visits[..n], visits[n];
    assert v in visits;
    if n > 0 {
      assert forall u :: u in before ==> u in visits;
      RunReaches(before, kind, key, start, head);
    } else {
      assert AfterAll(before) == Disk([], map[]);
    }
    VisitReaches(v, AfterAll(before), head);
  }

  // ---- ... and every visit of a run ------------------------------------------------------------

  lemma VisitOthers(v: Visit, d: Disk)
    requires Regular(v.c)
    ensures OnlyCursor(d, Visited(v, d).0, v.key)
    ensures VisitFits(v, d) ==> OthersKept(d.history, Visited(v, d).0.history, v.key)
  {
    if Begins(v, d).Some? {
      AllOthers(v.kind, v.key, v.c, v.turns, Begins(v, d).value, Opened(v, d));
    }
  }

  lemma {:induction false} RunSound(visits: seq<Visit>)
    requires forall v :: v in visits ==> Regular(v.c)
    ensures Sound(AfterAll(visits))
  {
    if visits != [] {
      var n := |visits| - 1;
      var v, d := visits[n], AfterAll(visits[..n]);
      RunSound(visits[..n]);
      if Begins(v, d).Some? {
        AllSound(v.kind, v.key, v.c, v.turns, Begins(v, d).value, Opened(v, d));
      }
    }
  }

  /** A visit to the receiver itself. */
  lemma VisitTracks(v: Visit, d: Disk, start: nat, top: nat)
    requires Regular(v.c) && Tracks(d.history, d.cursors, v.c, v.key, v.startBlock, start, top)
    requires Resumable(d.cursors, v.key, v.startBlock, start, top) && Begins(v, d).Some? && VisitFits(v, d)
    ensures
      var d', b, known := Visited(v, d).0, Begins(v, d).value, v.key in d.cursors || v.startBlock.Some?;
      Tracks(d'.history, d'.cursors, v.c, v.key, v.startBlock, if known then start else b,
             TopAll(v.kind, v.key, v.c, v.turns, b, Opened(v, d), if known then top else b))
  {
    var b, o := Begins(v, d).value, Opened(v, d);
    if v.key in d.cursors || v.startBlock.Some? {
      AllTrack(v.kind, v.key, v.startBlock, v.c, v.turns, b, o, start, top);
    } else {
      EmptyCovers(d.history, v.c, v.key, start, b);
      AllTrack(v.kind, v.key, v.startBlock, v.c, v.turns, b, o, b, b);
    }
  }

  lemma EmptyCovers(h: seq<Entry>, c: Chain, key: string, start: nat, other: nat)
    requires Covered(h, c, key, start, start)
    ensures Covered(h, c, key, other, other)
  {
  }

  /** The visits to one receiver see its chain and its start block; without a start
      block, the cursor they set is stored. */
  ghost predicate VisitsOf(visits: seq<Visit>, key: string, c: Chain, startBlock: Option<nat>) {
    && (forall v :: v in visits ==> Regular(v.c))
    && forall v :: v in visits && v.key == key ==> v.c == c && v.startBlock == startBlock
  }

  ghost predicate CursorsStored(visits: seq<Visit>, key: string) {
    forall v :: v in visits && v.key == key ==> v.setOk
  }

  lemma {:induction false} CursorThere(visits: seq<Visit>, key: string, c: Chain)
    requires VisitsOf(visits, key, c, None) && CursorsStored(visits, key)
    ensures key in AfterAll(visits).cursors <==> FirstHead(visits, key).Some?
  {
    if visits != [] {
      var n := |visits| - 1;
      var v, d := visits[n], AfterAll(visits[..n]);
      assert forall x :: x in visits[..n] ==> x in visits;
      CursorThere(visits[..n], key, c);
      assert v in visits;
      if Begins(v, d).Some? {
        AllOthers(v.kind, v.key, v.c, v.turns, Begins(v, d).value, Opened(v, d));
      }
    }
  }

  ghost predicate TracksRun(visits: seq<Visit>, key: string, c: Chain, startBlock: Option<nat>) {
    var d, start, top := AfterAll(visits), StartOf(visits, key, startBlock), TopAfter(visits, key, startBlock);
    Tracks(d.history, d.cursors, c, key, startBlock, start, top) && Resumable(d.cursors, key, startBlock, start, top)
  }

  /** While the cap does not bite, history and cursor of a receiver agree after
      every run: with its start block known, or its first cursor stored. */
  lemma {:induction false} RunTracks(visits: seq<Visit>, key: string, c: Chain, startBlock: Option<nat>)
    requires VisitsOf(visits, key, c, startBlock) && (startBlock.Some? || CursorsStored(visits, key)) && RunFits(visits)
    ensures TracksRun(visits, key, c, startBlock)
  {
    if visits != [] {
      var n := |visits| - 1;
      var before, v := visits[..n], visits[n];
      assert v in visits && forall x :: x in before ==> x in visits;
      RunTracks(before, key, c, startBlock);
      if startBlock.None? {
        CursorThere(before, key, c);
        CursorThere(visits, key, c);
      }
      if v.key != key {
        OtherVisit(before, v, key, c, startBlock);
      } else {
        OwnVisit(before, v, key, c, startBlock);
      }
      assert visits == before + [v];
    }
  }

  lemma AfterNext(before: seq<Visit>, v: Visit, key: string, startBlock: Option<nat>)
    ensures AfterAll(before + [v]) == Visited(v, AfterAll(before)).0
    ensures FirstHead(before + [v], key) ==
      if FirstHead(before, key).None? && v.key == key then v.firstHead else FirstHead(before, key)
    ensures
      var d, top := AfterAll(before), TopAfter(before, key, startBlock);
      TopAfter(before + [v], key, startBlock) ==
        if v.key != key || Begins(v, d).None? then top
        else TopAll(v.kind, key, v.c, v.turns, Begins(v, d).value, Opened(v, d),
                    if key in d.cursors || startBlock.Some? then top else Begins(v, d).value)
  {
    assert (before + [v])[..|before|] == before;
  }

  lemma OtherVisit(before: seq<Visit>, v: Visit, key: string, c: Chain, startBlock: Option<nat>)
    requires TracksRun(before, key, c, startBlock) && v.key != key && Regular(v.c) && VisitFits(v, AfterAll(before))
    ensures TracksRun(before + [v], key, c, startBlock)
  {
    AfterNext(before, v, key, startBlock);
    VisitOthers(v, AfterAll(before));
  }

  lemma OwnVisit(before: seq<Visit>, v: Visit, key: string, c: Chain, startBlock: Option<nat>)
    requires TracksRun(before, key, c, startBlock) && v.key == key && v.c == c && v.startBlock == startBlock
    requires Regular(c) && VisitFits(v, AfterAll(before))
    requires startBlock.None? ==>
      v.setOk && (key in AfterAll(before).cursors <==> FirstHead(before, key).Some?)
    ensures TracksRun(before + [v], key, c, startBlock)
  {
    var d := AfterAll(before);
    AfterNext(before, v, key, startBlock);
    if Begins(v, d).Some? {
      VisitTracks(v, d, StartOf(before, key, startBlock), TopAfter(before, key, startBlock));
      AllOthers(v.kind, v.key, v.c, v.turns, Begins(v, d).value, Opened(v, d));
    }
  }

  /** What a block below the cursor holds is listed as often as it is on chain. */
  ghost predicate Listed(d: Disk, c: Chain, key: string, start: nat) {
    forall b: nat, i {:trigger c.At(b)[i]} :: key in d.cursors && start <= b < d.cursors[key] && 0 <= i < |c.At(b)| ==>
      var t := c.At(b)[i];
      Entries(d.history, key, t.tx, t.amount) == Times(Stamped(c.At(b), b), t.tx, t.amount)
  }

  /** A transfer of one block is nowhere else. */
  lemma OnlyThere(c: Chain, start: nat, top: nat, b: nat, i: nat)
    requires Regular(c) && start <= b < top && i < |c.At(b)|
    ensures
      var t := c.At(b)[i];
      OnChain(c, t.tx, t.amount, start, top) == Times(Stamped(c.At(b), b), t.tx, t.amount)
  {
    var t := c.At(b)[i];
    OnChainSplit(c, t.tx, t.amount, start, b, top);
    OnChainSplit(c, t.tx, t.amount, b, b + 1, top);
    assert Between(c, b, b) == [] && Between(c, b, b + 1) == [] + Stamped(c.At(b), b);
    assert [] + Stamped(c.At(b), b) == Stamped(c.At(b), b);
    var here := Stamped(c.At(b), b);
    TimesPositive(here, i);
    OnlyOnce(c, t.tx, t.amount, start, b, b, b + 1);
    OnlyOnce(c, t.tx, t.amount, b, b + 1, b + 1, top);
  }

  lemma {:induction false} TimesPositive(ds: seq<Deposit>, i: nat)
    requires i < |ds|
    ensures Times(ds, ds[i].tx, ds[i].amount) > 0
  {
    if i < |ds| - 1 {
      TimesPositive(ds[..|ds| - 1], i);
    }
  }

  lemma TracksLists(d: Disk, c: Chain, key: string, startBlock: Option<nat>, start: nat, top: nat)
    requires Regular(c) && Sound(d) && Tracks(d.history, d.cursors, c, key, startBlock, start, top)
    ensures Listed(d, c, key, start)
  {
    if key in d.cursors {
      forall b: nat, i | start <= b < d.cursors[key] && 0 <= i < |c.At(b)|
        ensures Entries(d.history, key, c.At(b)[i].tx, c.At(b)[i].amount)
          == Times(Stamped(c.At(b), b), c.At(b)[i].tx, c.At(b)[i].amount)
      {
        CountedOnce(d.history, c, key, start, top, c.At(b)[i].tx, c.At(b)[i].amount);
        OnlyThere(c, start, top, b, i);
      }
    }
  }

  // ---- a gap -----------------------------------------------------------------------------------

  /** A next visit can leave a gap exactly when no cursor is stored and the
      receiver came without its start block. */
  lemma GapFreeIff(d: Disk, v: Visit, c: Chain, start: nat, top: nat)
    requires Tracks(d.history, d.cursors, c, v.key, v.startBlock, start, top)
    ensures (forall head: nat :: Begins(v.(firstHead := Some(head)), d).value <= top) <==>
      v.key in d.cursors || v.startBlock.Some?
  {
    if v.key !in d.cursors && v.startBlock.None? {
      assert Begins(v.(firstHead := Some(top + 1)), d).value == top + 1;
    }
  }

  /** The two visits of a run that does: no start block; the first finds the chain
      at `first`, its cursors are refused, its history is not; the second finds it
      at `second`, and everything goes well. */
  ghost predicate GapVisits(v: Visit, v': Visit, c: Chain, first: nat, second: nat) {
    && v.key == v'.key && v.c == v'.c == c && v.kind == v'.kind && v.startBlock == v'.startBlock == None
    && v.firstHead == Some(first) && !v.setOk && |v.turns| > 0 && v.turns[0] == Turn(Some(first), true, false)
    && v'.firstHead == Some(second) && v'.setOk && |v'.turns| > 1
    && v'.turns[0] == Turn(Some(second), true, true) && v'.turns[1] == Turn(Some(second), true, true)
  }

  lemma WindowAtHead(kind: Kind, c: Chain, head: nat)
    ensures ScanDeposits(kind, c, head, head) == (Between(c, head, head + 1), head + 1)
    ensures ScanDeposits(kind, c, head + 1, head) == ([], head + 1)
  {
  }

  /** The history after one block was recorded on top of another history. */
  function Adding(h: seq<Entry>, key: string, c: Chain, b: nat): seq<Entry> {
    var ds := Between(c, b, b + 1);
    if Fresh(key, ds, h, |ds|) == [] then h else Merged(key, ds, h)
  }

  lemma GapFirst(v: Visit, v': Visit, c: Chain, first: nat, second: nat)
    requires GapVisits(v, v', c, first, second)
    ensures Visited(v, Disk([], map[])) == (Disk(Adding([], v.key, c, first), map[]), false)
  {
    WindowAtHead(v.kind, c, first);
    assert Opened(v, Disk([], map[])) == Disk([], map[]);
  }

  lemma GapSecond(v: Visit, v': Visit, c: Chain, first: nat, second: nat, h: seq<Entry>)
    requires GapVisits(v, v', c, first, second)
    ensures Visited(v', Disk(h, map[])) == (Disk(Adding(h, v.key, c, second), map[v.key := second + 1]), true)
  {
    WindowAtHead(v.kind, c, second);
    var d := Opened(v', Disk(h, map[]));
    assert d == Disk(h, map[v.key := second]);
    var w := ScanOne(v.kind, v.key, c, v'.turns[0], second, d);
    assert w == Window(Disk(Adding(h, v.key, c, second), map[v.key := second + 1]), second + 1, Moved);
    assert v'.turns[1..][0] == v'.turns[1];
    assert ScanAll(v.kind, v.key, c, v'.turns[1..], second + 1, w.disk) == (w.disk, true);
  }

  lemma AfterTwo(v: Visit, v': Visit)
    ensures AfterAll([v, v']) == Visited(v', Visited(v, Disk([], map[])).0).0
  {
    assert [v, v'][..1] == [v] && [v][..0] == [];
    assert AfterAll([]) == Disk([], map[]);
    assert AfterAll([v]) == Visited(v, AfterAll([])).0;
    assert AfterAll([v, v']) == Visited(v', AfterAll([v])).0;
  }

  lemma GapDisk(v: Visit, v': Visit, c: Chain, first: nat, second: nat)
    requires GapVisits(v, v', c, first, second)
    ensures AfterAll([v, v']) ==
      Disk(Adding(Adding([], v.key, c, first), v.key, c, second), map[v.key := second + 1])
  {
    AfterTwo(v, v');
    GapFirst(v, v', c, first, second);
    GapSecond(v, v', c, first, second, Adding([], v.key, c, first));
  }

  lemma AddingHas(h: seq<Entry>, key: string, c: Chain, b: nat, tx: string, amount: string, n: nat)
    requires Regular(c) && NoColon(tx) && NoColon(amount) && |c.At(b)| + |h| <= MAX_HISTORY
    ensures HasId(Adding(h, key, c, b), Id(key, tx, amount, n)) <==>
      HasId(h, Id(key, tx, amount, n)) || n < Times(Stamped(c.At(b), b), tx, amount)
  {
    var ds := Between(c, b, b + 1);
    OneBlock(c, b);
    BetweenRegular(c, b, b + 1);
    FreshSize(key, ds, h, |ds|);
    MergedHas(key, ds, h, tx, amount, n);
    NothingMerged(key, ds, h);
  }

  lemma AddingSize(h: seq<Entry>, key: string, c: Chain, b: nat)
    ensures |Adding(h, key, c, b)| <= |h| + |c.At(b)|
  {
    var ds := Between(c, b, b + 1);
    OneBlock(c, b);
    FreshSize(key, ds, h, |ds|);
    Uncapped(Fresh(key, ds, h, |ds|), h);
  }

  lemma ElsewhereNone(c: Chain, b: nat, i: nat, other: nat)
    requires Regular(c) && i < |c.At(b)|
    ensures Times(Stamped(c.At(other), other), c.At(b)[i].tx, c.At(b)[i].amount) > 0 ==> other == b
  {
    var t, there := c.At(b)[i], Stamped(c.At(other), other);
    if Times(there, t.tx, t.amount) > 0 {
      var k := TimesWitness(there, t.tx, t.amount);
      assert c.At(other)[k].tx == c.At(b)[i].tx;
    }
  }

  /** What comes in between is never listed, although the cursor has passed it,
      while what came before is. */
  lemma GapRun(v: Visit, v': Visit, c: Chain, first: nat, second: nat, b: nat, i: nat)
    requires GapVisits(v, v', c, first, second) && Regular(c) && first < b < second && i < |c.At(b)|
    requires |c.At(first)| + |c.At(second)| <= MAX_HISTORY
    ensures
      var d, t := AfterAll([v, v']), c.At(b)[i];
      && v.key in d.cursors && b < d.cursors[v.key]
      && Entries(d.history, v.key, t.tx, t.amount) == 0
      && forall j :: 0 <= j < |c.At(first)| ==> HasId(d.history, Id(v.key, c.At(first)[j].tx, c.At(first)[j].amount, 0))
  {
    var d, t, key := AfterAll([v, v']), c.At(b)[i], v.key;
    var h := Adding([], key, c, first);
    GapDisk(v, v', c, first, second);
    AddingSize([], key, c, first);
    forall n: nat ensures !HasId(d.history, Id(key, t.tx, t.amount, n)) {
      AddingHas([], key, c, first, t.tx, t.amount, n);
      AddingHas(h, key, c, second, t.tx, t.amount, n);
      ElsewhereNone(c, b, i, first);
      ElsewhereNone(c, b, i, second);
    }
    RunSound([v, v']);
    EntriesHeld(d.history, key, t.tx, t.amount, 0);
    forall j | 0 <= j < |c.At(first)| ensures HasId(d.history, Id(key, c.At(first)[j].tx, c.At(first)[j].amount, 0)) {
      var u := c.At(first)[j];
      TimesPositive(Stamped(c.At(first), first), j);
      AddingHas([], key, c, first, u.tx, u.amount, 0);
      AddingHas(h, key, c, second, u.tx, u.amount, 0);
    }
  }

  lemma OneBlock(c: Chain, b: nat)
    ensures Between(c, b, b + 1) == Stamped(c.At(b), b)
  {
    assert Between(c, b, b) == [] && [] + Stamped(c.At(b), b) == Stamped(c.At(b), b);
  }

  lemma {:induction false} FreshSize(key: string, ds: seq<Deposit>, h: seq<Entry>, n: nat)
    requires n <= |ds|
    ensures |Fresh(key, ds, h, n)| <= n
  {
    if n > 0 {
      FreshSize(key, ds, h, n - 1);
    }
  }

  class Store {
    var history: seq<Entry>
    var cursors: map<string, nat>

    constructor ()
      ensures history == [] && cursors == map[]
    {
      history, cursors := [], map[];
    }

    method NewEntries(key: string, deposits: seq<Deposit>) returns (added: seq<Entry>)
      requires Regulars(deposits)
      ensures added == Fresh(key, deposits, history, |deposits|)
    {
      var seen := set e | e in history :: e.id;
      var ordinals: map<string, nat> := map[];
      added := [];
      for i := 0 to |deposits|
        invariant added == Fresh(key, deposits, history, i)
        invariant forall j :: 0 <= j < |deposits| ==>
          Counted(ordinals, Base(key, deposits[j])) == Times(deposits[..i], deposits[j].tx, deposits[j].amount)
      {
        var d := deposits[i];
        var base := Base(key, d);
        var n := Counted(ordinals, base);
        forall j | 0 <= j < |deposits|
          ensures Counted(ordinals[base := n + 1], Base(key, deposits[j])) ==
            Times(deposits[..i + 1], deposits[j].tx, deposits[j].amount)
        {
          CountOne(key, deposits, i, j);
        }
        ordinals := ordinals[base := n + 1];
        var id := base + ":" + Decimal(n);
        assert id == EntryAt(key, deposits, i).id;
        if id !in seen {
          added := added + [Entry(id, key, d.tx, d.amount, d.block)];
        }
      }
    }

    /** History first, then the cursor; `None` when storage refused one of them. */
    method RecordScan(key: string, deposits: seq<Deposit>, nextBlock: nat, historyOk: bool, cursorOk: bool)
      returns (added: Option<seq<Entry>>)
      requires Regulars(deposits)
      modifies this
      ensures (history, cursors, added) ==
        Recorded(old(history), old(cursors), key, deposits, nextBlock, historyOk, cursorOk)
    {
      var found := NewEntries(key, deposits);
      if |found| > 0 {
        if !historyOk {
          return None;
        }
        history := Capped(Reversed(found) + history);
      }
      if !cursorOk {
        return None;
      }
      cursors := cursors[key := nextBlock];
      added := Some(found);
    }

    /** The refused write of `setCursor` goes unnoticed. */
    method SetCursor(key: string, block: nat, ok: bool)
      modifies this`cursors
      ensures cursors == if ok then old(cursors)[key := block] else old(cursors)
    {
      if ok {
        cursors := cursors[key := block];
      }
    }

    function Stored(): Disk
      reads this
    {
      Disk(history, cursors)
    }

    method ScanWindow(kind: Kind, key: string, c: Chain, turn: Turn, cursor: nat) returns (ending: Ending, next: nat)
      requires Regular(c)
      modifies this
      ensures Window(Stored(), next, ending) == ScanOne(kind, key, c, turn, cursor, old(Stored()))
    {
      if turn.head.None? {
        return Threw, cursor;
      }
      var (deposits, nextBlock) := ScanDeposits(kind, c, cursor, turn.head.value);
      if nextBlock == cursor {
        return CaughtUp, cursor;
      }
      ScanRegular(kind, c, cursor, turn.head.value);
      var added := RecordScan(key, deposits, nextBlock, turn.historyOk, turn.cursorOk);
      if added.None? {
        return Threw, cursor;
      }
      ending, next := Moved, nextBlock;
    }

    /** One visit to a receiver: at most eight windows from where the last one
        stopped. */
    method ScanReceiver(v: Visit) returns (ok: bool)
      requires |v.turns| == MAX_WINDOWS_PER_RECEIVER && Regular(v.c)
      modifies this
      ensures (Stored(), ok) == Visited(v, old(Stored()))
    {
      var cursor: nat;
      if v.key in cursors {
        cursor := cursors[v.key];
      } else {
        if v.startBlock.Some? {
          cursor := v.startBlock.value;
        } else if v.firstHead.Some? {
          cursor := v.firstHead.value;
        } else {
          return false;
        }
        SetCursor(v.key, cursor, v.setOk);
      }
      var i := 0;
      while i < MAX_WINDOWS_PER_RECEIVER
        invariant 0 <= i <= MAX_WINDOWS_PER_RECEIVER
        invariant ScanAll(v.kind, v.key, v.c, v.turns[i..], cursor, Stored()) == Visited(v, old(Stored()))
      {
        assert v.turns[i..][0] == v.turns[i] && v.turns[i..][1..] == v.turns[i + 1..];
        var ending;
        ending, cursor := ScanWindow(v.kind, v.key, v.c, v.turns[i], cursor);
        if !ending.Moved? {
          return ending.CaughtUp?;
        }
        i := i + 1;
      }
      ok := true;
    }

    /** Over every run of visits to any receivers, with crashes and refused writes
        anywhere, no id is held twice. While the cap does not bite, each transfer
        below a receiver's cursor is listed exactly as often as it is on chain,
        from its start block on, or from the first head it was visited at. */
    method Run(visits: seq<Visit>)
      requires history == [] && cursors == map[]
      requires forall v :: v in visits ==> |v.turns| == MAX_WINDOWS_PER_RECEIVER && Regular(v.c)
      modifies this
      ensures Stored() == AfterAll(visits) && Unique(history)
      ensures RunFits(visits) ==> forall key, c, startBlock {:trigger VisitsOf(visits, key, c, startBlock)} ::
        Regular(c) && VisitsOf(visits, key, c, startBlock) && (startBlock.Some? || CursorsStored(visits, key)) ==>
          && TracksRun(visits, key, c, startBlock)
          && Listed(Stored(), c, key, StartOf(visits, key, startBlock))
    {
      var i := 0;
      while i < |visits|
        invariant 0 <= i <= |visits| && Stored() == AfterAll(visits[..i])
      {
        assert visits[..i + 1][..i] == visits[..i];
        var _ := ScanReceiver(visits[i]);
        i := i + 1;
      }
      assert visits[..|visits|] == visits;
      RunSound(visits);
      if RunFits(visits) {
        forall key, c, startBlock
          | Regular(c) && VisitsOf(visits, key, c, startBlock) && (startBlock.Some? || CursorsStored(visits, key))
          ensures TracksRun(visits, key, c, startBlock) && Listed(Stored(), c, key, StartOf(visits, key, startBlock))
        {
          RunTracks(visits, key, c, startBlock);
          TracksLists(Stored(), c, key, startBlock, StartOf(visits, key, startBlock), TopAfter(visits, key, startBlock));
        }
      }
    }
  }
}
