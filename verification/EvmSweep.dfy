/** The sweep: which calls a batch of receivers compiles to, and what those
    calls do to the chain. */
module EvmSweep {
  import opened Wrappers
  import opened Positional
  import opened Hex
  import opened EvmRegistry
  import opened EvmChain
  import opened Scanning

  // ---- candidates -----------------------------------------------------------

  ghost predicate StrictlyAscending(s: seq<Address>) {
    forall i, j :: 0 <= i < j < |s| ==> Value(256, s[i]) < Value(256, s[j])
  }

  lemma DistinctValues(a: Address, b: Address)
    requires a != b
    ensures Value(256, a) != Value(256, b)
  {
    if Value(256, a) == Value(256, b) {
      ValueInjective(256, a, b);
    }
  }

  function Insert(x: Address, s: seq<Address>): (r: seq<Address>)
    ensures forall a :: a in r <==> a == x || a in s
  {
    if s == [] then [x]
    else if x == s[0] then s
    else if Value(256, x) < Value(256, s[0]) then [x] + s
    else
      assert s == [s[0]] + s[1..];
      [s[0]] + Insert(x, s[1..])
  }

  lemma ConsAscends(x: Address, s: seq<Address>)
    requires StrictlyAscending(s) && forall a :: a in s ==> Value(256, x) < Value(256, a)
    ensures StrictlyAscending([x] + s)
  {
  }

  lemma SnocAscends(s: seq<Address>, x: Address)
    requires StrictlyAscending(s) && forall a :: a in s ==> Value(256, a) < Value(256, x)
    ensures StrictlyAscending(s + [x])
  {
  }

  lemma {:induction false} InsertAscends(x: Address, s: seq<Address>)
    requires StrictlyAscending(s)
    ensures StrictlyAscending(Insert(x, s))
  {
    if s != [] && x != s[0] {
      if Value(256, x) < Value(256, s[0]) {
        assert forall a :: a in s ==> Value(256, s[0]) <= Value(256, a);
        ConsAscends(x, s);
      } else {
        DistinctValues(x, s[0]);
        InsertAscends(x, s[1..]);
        ConsAscends(s[0], Insert(x, s[1..]));
      }
    }
  }

  /** `sort` then `dedup`. */
  function SortDedup(s: seq<Address>): (r: seq<Address>)
    ensures StrictlyAscending(r)
    ensures forall a :: a in r <==> a in s
  {
    if s == [] then []
    else
      var rest := SortDedup(s[..|s| - 1]);
      InsertAscends(s[|s| - 1], rest);
      Insert(s[|s| - 1], rest)
  }

  function Keep(s: seq<Address>, wanted: set<Address>): (r: seq<Address>)
    ensures forall a :: a in r <==> a in s && a in wanted
  {
    if s == [] then []
    else
      var rest := Keep(s[..|s| - 1], wanted);
      if s[|s| - 1] in wanted then rest + [s[|s| - 1]] else rest
  }

  lemma {:induction false} KeepAscends(s: seq<Address>, wanted: set<Address>)
    requires StrictlyAscending(s)
    ensures StrictlyAscending(Keep(s, wanted))
  {
    if s != [] {
      var before, last := s[..|s| - 1], s[|s| - 1];
      KeepAscends(before, wanted);
      forall a | a in Keep(before, wanted) ensures Value(256, a) < Value(256, last) {
        var i :| 0 <= i < |before| && before[i] == a;
        assert s[i] == a;
      }
      SnocAscends(Keep(before, wanted), last);
    }
  }

  function Without(s: seq<Address>, known: set<Address>): (r: seq<Address>)
    ensures forall a :: a in r <==> a in s && a !in known
  {
    if s == [] then []
    else
      var rest := Without(s[..|s| - 1], known);
      if s[|s| - 1] in known then rest else rest + [s[|s| - 1]]
  }

  ghost predicate NoRepeats(s: seq<Address>) {
    forall i, j :: 0 <= i < j < |s| ==> s[i] != s[j]
  }

  lemma AscendingDistinct(s: seq<Address>)
    requires StrictlyAscending(s)
    ensures NoRepeats(s)
  {
    forall i, j | 0 <= i < j < |s| ensures s[i] != s[j] {
      assert Value(256, s[i]) < Value(256, s[j]);
    }
  }

  // ---- the plan --------------------------------------------------------------

  /** What the worker knows when it builds a batch. */
  datatype Known = Known(
    merchants: map<Address, Info>, hooks: map<string, string>, deployed: set<Address>, indeterminate: set<Address>)

  /** The calls, the receivers they deploy and the ones they sweep, in order, and
      the merchants whose webhook they set. */
  datatype Plan = Plan(calls: seq<Call3>, pending: seq<Address>, taken: seq<Address>, hooked: set<Address>)

  /** A receiver the batch can do something for. */
  predicate Included(k: Known, r: Address) {
    r !in k.indeterminate && r in k.merchants && (r in k.deployed || k.merchants[r].route.Some?)
  }

  function HookCalls(c: Contracts, k: Known, hooked: set<Address>, m: Address): seq<Call3> {
    if AddressText(m) in k.hooks && m !in hooked
    then [Call3(c.webhookRegistry, true, SetWebhookUrl(m, k.hooks[AddressText(m)]))]
    else []
  }

  /** The calls one receiver adds, behind those already planned. */
  function Piece(c: Contracts, k: Known, hooked: set<Address>, r: Address): seq<Call3> {
    if !Included(k, r) then []
    else if r in k.deployed then [SweepCall(r)]
    else
      var info := k.merchants[r];
      HookCalls(c, k, hooked, info.merchant) + [RegisterCall(c, info.merchant, info.route.value), SweepCall(r)]
  }

  predicate Deploys(k: Known, r: Address) {
    Included(k, r) && r !in k.deployed
  }

  function Extend(c: Contracts, k: Known, p: Plan, r: Address): Plan {
    Plan(
      p.calls + Piece(c, k, p.hooked, r),
      if Deploys(k, r) then p.pending + [r] else p.pending,
      if Included(k, r) then p.taken + [r] else p.taken,
      if Deploys(k, r) && AddressText(k.merchants[r].merchant) in k.hooks then p.hooked + {k.merchants[r].merchant}
      else p.hooked)
  }

  function PlanFor(c: Contracts, k: Known, unique: seq<Address>): Plan {
    if unique == [] then Plan([], [], [], {})
    else Extend(c, k, PlanFor(c, k, unique[..|unique| - 1]), unique[|unique| - 1])
  }

  lemma PlanNext(c: Contracts, k: Known, unique: seq<Address>, i: nat)
    requires i < |unique|
    ensures PlanFor(c, k, unique[..i + 1]) == Extend(c, k, PlanFor(c, k, unique[..i]), unique[i])
  {
    assert unique[..i + 1][..i] == unique[..i];
  }

  lemma ExtendSkips(c: Contracts, k: Known, p: Plan, r: Address)
    requires !Included(k, r)
    ensures Extend(c, k, p, r) == p
  {
    assert p.calls + [] == p.calls;
  }

  lemma ExtendDeploys(c: Contracts, k: Known, p: Plan, r: Address, calls: seq<Call3>, hooked: set<Address>)
    requires Deploys(k, r)
    requires
      var m := k.merchants[r].merchant;
      && calls == p.calls + HookCalls(c, k, p.hooked, m)
      && hooked == if AddressText(m) in k.hooks && m !in p.hooked then p.hooked + {m} else p.hooked
    ensures
      var info := k.merchants[r];
      var all := (calls + [RegisterCall(c, info.merchant, info.route.value)]) + [SweepCall(r)];
      Extend(c, k, p, r) == Plan(all, p.pending + [r], p.taken + [r], hooked)
  {
    var info := k.merchants[r];
    var hooks, reg := HookCalls(c, k, p.hooked, info.merchant), RegisterCall(c, info.merchant, info.route.value);
    TwoMore(p.calls, hooks, reg, SweepCall(r));
  }

  lemma TwoMore(a: seq<Call3>, b: seq<Call3>, x: Call3, y: Call3)
    ensures ((a + b) + [x]) + [y] == a + (b + [x, y])
  {
  }

  // ---- running the plan -------------------------------------------------------

  /** Announced routes lead to their receivers. */
  ghost predicate Announced(c: Contracts, merchants: map<Address, Info>) {
    forall r :: r in merchants && merchants[r].route.Some? ==>
      var key := (merchants[r].merchant, merchants[r].route.value);
      key in c.predict && c.predict[key] == r
  }

  /** What is known about deployment agrees with the chain. */
  ghost predicate Agrees(k: Known, w: World, r: Address) {
    && (r in k.deployed ==> r in w.clones)
    && (r !in k.deployed && r !in k.indeterminate ==> r !in w.clones)
  }

  /** How many of the pending receivers are `m`'s. */
  function PendingOf(merchants: map<Address, Info>, pending: seq<Address>, m: Address): nat {
    if pending == [] then 0
    else
      var last := pending[|pending| - 1];
      PendingOf(merchants, pending[..|pending| - 1], m) + if last in merchants && merchants[last].merchant == m then 1 else 0
  }

  lemma PendingOfNext(merchants: map<Address, Info>, pending: seq<Address>, r: Address, m: Address)
    ensures PendingOf(merchants, pending + [r], m)
      == PendingOf(merchants, pending, m) + if r in merchants && merchants[r].merchant == m then 1 else 0
  {
    assert (pending + [r])[..|pending|] == pending;
  }

  /** A pending receiver the factory would refuse: somebody deployed it already,
      or its merchant may not have that many. */
  ghost predicate Hindered(c: Contracts, merchants: map<Address, Info>, pending: seq<Address>, w: World, r: Address) {
    r in merchants &&
    var m := merchants[r].merchant;
    || r in w.clones || m == ZeroAddress() || !c.ready
    || Get(w.count, m) + PendingOf(merchants, pending, m) > MAX_RECEIVERS_PER_MERCHANT
  }

  /** What a receiver is set up with: what it was deployed with, or would be. */
  function CloneOf(merchants: map<Address, Info>, w: World, r: Address): Option<Clone> {
    if r in w.clones then Some(w.clones[r])
    else if r in merchants && merchants[r].route.Some? then Some(Clone(merchants[r].merchant, merchants[r].route.value))
    else None
  }

  /** What sweeping `amount` off a receiver pays to `a`. */
  function Pays(c: Contracts, merchants: map<Address, Info>, w: World, r: Address, amount: nat, a: Address): nat {
    match CloneOf(merchants, w, r)
    case Some(clone) => Credit(c, clone, c.keeper, amount, a)
    case None => 0
  }

  /** What `a` holds once the receivers `taken` were swept in this order: each
      loses all it has at its turn, and that is paid out. */
  function BalanceAt(c: Contracts, merchants: map<Address, Info>, w: World, taken: seq<Address>, a: Address): nat {
    if taken == [] then Get(w.balance, a)
    else
      var before, r := taken[..|taken| - 1], taken[|taken| - 1];
      (if a == r then 0 else BalanceAt(c, merchants, w, before, a))
      + Pays(c, merchants, w, r, BalanceAt(c, merchants, w, before, r), a)
  }

  /** What receiver `i` holds at its turn. */
  function AtTurn(c: Contracts, merchants: map<Address, Info>, w: World, taken: seq<Address>, i: nat): nat
    requires i < |taken|
  {
    BalanceAt(c, merchants, w, taken[..i], taken[i])
  }

  /** The sweeps on record by then. */
  function LogAt(c: Contracts, merchants: map<Address, Info>, w: World, taken: seq<Address>): seq<Sweep> {
    if taken == [] then w.log
    else
      var n := |taken| - 1;
      var log, amount := LogAt(c, merchants, w, taken[..n]), AtTurn(c, merchants, w, taken, n);
      match CloneOf(merchants, w, taken[n])
      case Some(clone) => if amount == 0 then log else log + [Sweep(taken[n], clone, c.keeper, amount)]
      case None => log
  }

  lemma BalanceNext(c: Contracts, merchants: map<Address, Info>, w: World, taken: seq<Address>, r: Address, a: Address)
    ensures BalanceAt(c, merchants, w, taken + [r], a) ==
      (if a == r then 0 else BalanceAt(c, merchants, w, taken, a))
      + Pays(c, merchants, w, r, BalanceAt(c, merchants, w, taken, r), a)
  {
    assert (taken + [r])[..|taken|] == taken;
  }

  lemma LogNext(c: Contracts, merchants: map<Address, Info>, w: World, taken: seq<Address>, r: Address)
    ensures
      var log, amount := LogAt(c, merchants, w, taken), BalanceAt(c, merchants, w, taken, r);
      LogAt(c, merchants, w, taken + [r]) ==
        match CloneOf(merchants, w, r)
        case Some(clone) => if amount == 0 then log else log + [Sweep(r, clone, c.keeper, amount)]
        case None => log
  {
    assert (taken + [r])[..|taken|] == taken;
  }

  /** A receiver that cannot move what it holds at its turn. */
  ghost predicate Stuck(c: Contracts, merchants: map<Address, Info>, taken: seq<Address>, w: World) {
    exists i :: 0 <= i < |taken| && Jammed(c, taken[i], AtTurn(c, merchants, w, taken, i))
  }

  lemma StuckNext(c: Contracts, merchants: map<Address, Info>, taken: seq<Address>, w: World, r: Address)
    ensures Stuck(c, merchants, taken + [r], w) <==>
      Stuck(c, merchants, taken, w) || Jammed(c, r, BalanceAt(c, merchants, w, taken, r))
  {
    var taken' := taken + [r];
    forall i | 0 <= i < |taken|
      ensures AtTurn(c, merchants, w, taken', i) == AtTurn(c, merchants, w, taken, i)
    {
      assert taken'[..i] == taken[..i];
    }
    assert taken'[..|taken|] == taken;
    assert AtTurn(c, merchants, w, taken', |taken|) == BalanceAt(c, merchants, w, taken, r);
    if Stuck(c, merchants, taken, w) {
      var i :| 0 <= i < |taken| && Jammed(c, taken[i], AtTurn(c, merchants, w, taken, i));
      assert Jammed(c, taken'[i], AtTurn(c, merchants, w, taken', i));
    }
    if Jammed(c, r, BalanceAt(c, merchants, w, taken, r)) {
      assert Jammed(c, taken'[|taken|], AtTurn(c, merchants, w, taken', |taken|));
    }
  }

  /** What takes a batch down: one hindered registration or one stuck sweep. */
  ghost predicate Blocked(c: Contracts, merchants: map<Address, Info>, taken: seq<Address>, pending: seq<Address>, w: World) {
    (exists r :: r in pending && Hindered(c, merchants, pending, w, r)) || Stuck(c, merchants, taken, w)
  }

  /** The state a batch leaves: pending receivers deployed and counted, the taken
      ones swept in order and everyone paid, everything else as it was. */
  ghost predicate Settles(c: Contracts, merchants: map<Address, Info>, taken: seq<Address>, pending: seq<Address>,
                          w: World, w': World)
  {
    && w'.deposited == w.deposited
    && Deployed(merchants, pending, w, w')
    && Swept(c, merchants, taken, w, w')
  }

  ghost predicate Deployed(merchants: map<Address, Info>, pending: seq<Address>, w: World, w': World) {
    && (forall a :: a in w'.clones <==> a in w.clones || a in pending)
    && (forall a :: a in w'.clones ==> CloneOf(merchants, w, a) == Some(w'.clones[a]))
    && (forall m :: Get(w'.count, m) == Get(w.count, m) + PendingOf(merchants, pending, m))
  }

  ghost predicate Swept(c: Contracts, merchants: map<Address, Info>, taken: seq<Address>, w: World, w': World) {
    && (forall a :: Get(w'.balance, a) == BalanceAt(c, merchants, w, taken, a))
    && w'.log == LogAt(c, merchants, w, taken)
  }

  lemma HookHarmless(c: Contracts, k: Known, hooked: set<Address>, m: Address, w: World)
    ensures
      var r := Aggregate(c, w, HookCalls(c, k, hooked, m));
      r.Some? && r.value == w.(hooks := r.value.hooks)
  {
    if HookCalls(c, k, hooked, m) != [] {
      OneCall(c, w, HookCalls(c, k, hooked, m)[0]);
    }
  }

  /** What one receiver's calls do where they go through. */
  ghost predicate PieceDone(c: Contracts, k: Known, r: Address, w: World, w': World) {
    && w'.deposited == w.deposited
    && (if Deploys(k, r) then
          var info := k.merchants[r];
          w'.clones == w.clones[r := Clone(info.merchant, info.route.value)] && w'.count == Plus(w.count, info.merchant, 1)
        else w'.clones == w.clones && w'.count == w.count)
    && (if Included(k, r) then SweptOff(c, r, w, w') else w'.balance == w.balance && w'.log == w.log)
  }

  /** A receiver's sweep, seen from outside. */
  ghost predicate SweptOff(c: Contracts, r: Address, w: World, w': World) {
    var amount := Get(w.balance, r);
    && r in w'.clones
    && (forall a :: Get(w'.balance, a) ==
          (if a == r then 0 else Get(w.balance, a)) + Credit(c, w'.clones[r], c.keeper, amount, a))
    && w'.log == if amount == 0 then w.log else w.log + [Sweep(r, w'.clones[r], c.keeper, amount)]
  }

  /** Whether one receiver's calls go through. */
  ghost predicate PieceGoes(c: Contracts, k: Known, w: World, r: Address) {
    && (Deploys(k, r) ==> !Refused(c, w, k.merchants[r].merchant, k.merchants[r].route.value))
    && (Included(k, r) ==> !Jammed(c, r, Get(w.balance, r)))
  }

  lemma SweepRuns(c: Contracts, w: World, r: Address)
    requires r in w.clones
    ensures
      var o := Aggregate(c, w, [SweepCall(r)]);
      && (o.Some? <==> !Jammed(c, r, Get(w.balance, r)))
      && (o.Some? ==> SweptOff(c, r, w, o.value) && o.value == w.(balance := o.value.balance, log := o.value.log))
  {
    OneCall(c, w, SweepCall(r));
    var o := SweepBy(c, w, c.keeper, r);
    if o.Some? {
      var s := Sweep(r, w.clones[r], c.keeper, Get(w.balance, r));
      forall a
        ensures Get(o.value.balance, a) ==
          (if a == r then 0 else Get(w.balance, a)) + Credit(c, w.clones[r], c.keeper, s.amount, a)
      {
        PaidOutAt(c, w.balance, s, a);
      }
    }
  }

  lemma RegisterSweepRuns(c: Contracts, w: World, m: Address, route: Route, r: Address)
    requires (m, route) in c.predict ==> c.predict[(m, route)] == r
    ensures
      var o := Aggregate(c, w, [RegisterCall(c, m, route), SweepCall(r)]);
      && (o.Some? <==> !Refused(c, w, m, route) && !Jammed(c, r, Get(w.balance, r)))
      && (o.Some? ==>
            && o.value.deposited == w.deposited
            && o.value.clones == w.clones[r := Clone(m, route)] && o.value.count == Plus(w.count, m, 1)
            && SweptOff(c, r, w, o.value))
  {
    var a, b := RegisterCall(c, m, route), SweepCall(r);
    assert [a, b] == [a] + [b];
    AggregateAppend(c, w, [a], [b]);
    OneCall(c, w, a);
    if !Refused(c, w, m, route) {
      SweepRuns(c, Execute(c, w, a).value, r);
    }
  }

  /** One receiver's calls go through unless the factory refuses it or its funds
      are stuck, and then do what they are for. */
  lemma PieceRuns(c: Contracts, k: Known, hooked: set<Address>, w: World, r: Address)
    requires Announced(c, k.merchants) && (r in k.deployed ==> r in w.clones)
    ensures
      var o := Aggregate(c, w, Piece(c, k, hooked, r));
      (o.Some? <==> PieceGoes(c, k, w, r)) && (o.Some? ==> PieceDone(c, k, r, w, o.value))
  {
    if Included(k, r) {
      if r in k.deployed {
        SweepRuns(c, w, r);
      } else {
        var info := k.merchants[r];
        var hooks := HookCalls(c, k, hooked, info.merchant);
        HookHarmless(c, k, hooked, info.merchant, w);
        AggregateAppend(c, w, hooks, [RegisterCall(c, info.merchant, info.route.value), SweepCall(r)]);
        RegisterSweepRuns(c, Aggregate(c, w, hooks).value, info.merchant, info.route.value, r);
      }
    }
  }

  lemma {:induction false} PendingAmong(c: Contracts, k: Known, unique: seq<Address>)
    ensures forall r :: r in PlanFor(c, k, unique).pending <==> r in unique && Deploys(k, r)
  {
    if unique != [] {
      PendingAmong(c, k, unique[..|unique| - 1]);
    }
  }

  lemma {:induction false} TakenAmong(c: Contracts, k: Known, unique: seq<Address>)
    ensures forall r :: r in PlanFor(c, k, unique).taken <==> r in unique && Included(k, r)
  {
    if unique != [] {
      TakenAmong(c, k, unique[..|unique| - 1]);
    }
  }

  lemma {:induction false} TakenAscends(c: Contracts, k: Known, unique: seq<Address>)
    requires StrictlyAscending(unique)
    ensures StrictlyAscending(PlanFor(c, k, unique).taken)
  {
    if unique != [] {
      var n := |unique| - 1;
      TakenAscends(c, k, unique[..n]);
      TakenAmong(c, k, unique[..n]);
      var taken := PlanFor(c, k, unique[..n]).taken;
      forall i | 0 <= i < |taken| ensures Value(256, taken[i]) < Value(256, unique[n]) {
        assert taken[i] in unique[..n];
      }
    }
  }

  /** Whether a receiver's calls go through at its turn, told from the chain as the
      batch found it. */
  ghost predicate GoesAfter(c: Contracts, k: Known, p: Plan, w: World, r: Address) {
    && (Deploys(k, r) ==>
          var m := k.merchants[r].merchant;
          && r !in w.clones && m != ZeroAddress() && c.ready
          && Get(w.count, m) + PendingOf(k.merchants, p.pending, m) < MAX_RECEIVERS_PER_MERCHANT)
    && (Included(k, r) ==> !Jammed(c, r, BalanceAt(c, k.merchants, w, p.taken, r)))
  }

  lemma PieceAtItsTurn(c: Contracts, k: Known, p: Plan, w: World, w1: World, r: Address)
    requires Announced(c, k.merchants) && Settles(c, k.merchants, p.taken, p.pending, w, w1) && r !in p.pending
    ensures PieceGoes(c, k, w1, r) <==> GoesAfter(c, k, p, w, r)
  {
    assert r in w1.clones <==> r in w.clones;
    if Deploys(k, r) {
      assert Get(w1.count, k.merchants[r].merchant)
        == Get(w.count, k.merchants[r].merchant) + PendingOf(k.merchants, p.pending, k.merchants[r].merchant);
    }
    assert Get(w1.balance, r) == BalanceAt(c, k.merchants, w, p.taken, r);
  }

  ghost predicate SomeHindered(c: Contracts, merchants: map<Address, Info>, pending: seq<Address>, w: World) {
    exists r :: r in pending && Hindered(c, merchants, pending, w, r)
  }

  lemma HinderedStep(c: Contracts, k: Known, p: Plan, w: World, r: Address)
    requires !SomeHindered(c, k.merchants, p.pending, w) && Deploys(k, r)
    ensures SomeHindered(c, k.merchants, p.pending + [r], w) <==>
      var m := k.merchants[r].merchant;
      || r in w.clones || m == ZeroAddress() || !c.ready
      || Get(w.count, m) + PendingOf(k.merchants, p.pending, m) >= MAX_RECEIVERS_PER_MERCHANT
  {
    var m, pending := k.merchants[r].merchant, p.pending + [r];
    PendingOfNext(k.merchants, p.pending, r, m);
    assert r in pending;
    forall a | a in p.pending && Hindered(c, k.merchants, pending, w, a)
      ensures Get(w.count, m) + PendingOf(k.merchants, p.pending, m) >= MAX_RECEIVERS_PER_MERCHANT
    {
      assert !Hindered(c, k.merchants, p.pending, w, a);
      PendingOfNext(k.merchants, p.pending, r, k.merchants[a].merchant);
    }
    if SomeHindered(c, k.merchants, pending, w) {
      var a :| a in pending && Hindered(c, k.merchants, pending, w, a);
      assert a in p.pending || a == r;
    }
  }

  /** One receiver more blocks a batch exactly when its own calls would not go
      through at its turn. */
  lemma BlockedStep(c: Contracts, k: Known, p: Plan, w: World, r: Address)
    requires !Blocked(c, k.merchants, p.taken, p.pending, w)
    ensures
      var p' := Extend(c, k, p, r);
      Blocked(c, k.merchants, p'.taken, p'.pending, w) <==> !GoesAfter(c, k, p, w, r)
  {
    StuckNext(c, k.merchants, p.taken, w, r);
    if Deploys(k, r) {
      HinderedStep(c, k, p, w, r);
    }
  }

  lemma {:induction false} PendingGrows(merchants: map<Address, Info>, pending: seq<Address>, more: seq<Address>,
                                        m: Address)
    ensures PendingOf(merchants, pending, m) <= PendingOf(merchants, pending + more, m)
  {
    if more == [] {
      assert pending + more == pending;
    } else {
      PendingGrows(merchants, pending, more[..|more| - 1], m);
      assert pending + more == (pending + more[..|more| - 1]) + [more[|more| - 1]];
      PendingOfNext(merchants, pending + more[..|more| - 1], more[|more| - 1], m);
    }
  }

  /** What blocks the first part of a batch blocks the batch. */
  lemma BlockedStays(c: Contracts, k: Known, p: Plan, w: World, r: Address)
    requires Blocked(c, k.merchants, p.taken, p.pending, w)
    ensures
      var p' := Extend(c, k, p, r);
      Blocked(c, k.merchants, p'.taken, p'.pending, w)
  {
    var p' := Extend(c, k, p, r);
    StuckNext(c, k.merchants, p.taken, w, r);
    if a :| a in p.pending && Hindered(c, k.merchants, p.pending, w, a) {
      PendingGrows(k.merchants, p.pending, p'.pending[|p.pending|..], k.merchants[a].merchant);
      assert p'.pending == p.pending + p'.pending[|p.pending|..];
      assert a in p'.pending && Hindered(c, k.merchants, p'.pending, w, a);
    }
  }

  /** The whole batch goes through exactly when nothing blocks it, and then
      settles every receiver it takes. */
  lemma {:induction false} PlanRuns(c: Contracts, k: Known, unique: seq<Address>, w: World)
    requires Announced(c, k.merchants) && NoRepeats(unique)
    requires forall r :: r in unique && r in k.deployed ==> r in w.clones
    ensures
      var p := PlanFor(c, k, unique);
      var o := Aggregate(c, w, p.calls);
      && (o.Some? <==> !Blocked(c, k.merchants, p.taken, p.pending, w))
      && (o.Some? ==> Settles(c, k.merchants, p.taken, p.pending, w, o.value))
  {
    if unique == [] {
      NothingRuns(c, k, w);
    } else {
      var n := |unique| - 1;
      var before, r := unique[..n], unique[n];
      PlanRuns(c, k, before, w);
      assert r !in before && unique == before + [r];
      PlanStep(c, k, before, w, r);
    }
  }

  lemma NothingRuns(c: Contracts, k: Known, w: World)
    ensures !Blocked(c, k.merchants, [], [], w) && Settles(c, k.merchants, [], [], w, w)
  {
  }

  lemma PlanStep(c: Contracts, k: Known, before: seq<Address>, w: World, r: Address)
    requires Announced(c, k.merchants) && r !in before && (r in k.deployed ==> r in w.clones)
    requires
      var p := PlanFor(c, k, before);
      var o := Aggregate(c, w, p.calls);
      && (o.Some? <==> !Blocked(c, k.merchants, p.taken, p.pending, w))
      && (o.Some? ==> Settles(c, k.merchants, p.taken, p.pending, w, o.value))
    ensures
      var p := Extend(c, k, PlanFor(c, k, before), r);
      var o := Aggregate(c, w, p.calls);
      && (o.Some? <==> !Blocked(c, k.merchants, p.taken, p.pending, w))
      && (o.Some? ==> Settles(c, k.merchants, p.taken, p.pending, w, o.value))
  {
    var p := PlanFor(c, k, before);
    var o := Aggregate(c, w, p.calls);
    AggregateAppend(c, w, p.calls, Piece(c, k, p.hooked, r));
    if o.None? {
      BlockedStays(c, k, p, w, r);
    } else {
      PendingAmong(c, k, before);
      BlockedStep(c, k, p, w, r);
      PieceAtItsTurn(c, k, p, w, o.value, r);
      assert r in k.deployed ==> r in o.value.clones;
      PieceRuns(c, k, p.hooked, o.value, r);
      if PieceGoes(c, k, o.value, r) {
        SettlesStep(c, k, p, w, o.value, r, Aggregate(c, o.value, Piece(c, k, p.hooked, r)).value);
      }
    }
  }

  lemma SettlesStep(c: Contracts, k: Known, p: Plan, w: World, w1: World, r: Address, w2: World)
    requires Settles(c, k.merchants, p.taken, p.pending, w, w1) && PieceDone(c, k, r, w1, w2)
    requires r !in p.pending && (Deploys(k, r) ==> r !in w.clones)
    ensures
      var p' := Extend(c, k, p, r);
      Settles(c, k.merchants, p'.taken, p'.pending, w, w2)
  {
    DeployedStep(c, k, p.pending, w, w1, r, w2);
    if Included(k, r) {
      assert CloneOf(k.merchants, w, r) == Some(w2.clones[r]);
      SweptStep(c, k.merchants, p.taken, w, w1, r, w2);
    }
  }

  lemma DeployedStep(c: Contracts, k: Known, pending: seq<Address>, w: World, w1: World, r: Address, w2: World)
    requires Deployed(k.merchants, pending, w, w1) && PieceDone(c, k, r, w1, w2) && (Deploys(k, r) ==> r !in w.clones)
    ensures Deployed(k.merchants, if Deploys(k, r) then pending + [r] else pending, w, w2)
  {
    if Deploys(k, r) {
      forall m ensures Get(w2.count, m) == Get(w.count, m) + PendingOf(k.merchants, pending + [r], m) {
        PendingOfNext(k.merchants, pending, r, m);
      }
    }
  }

  lemma SweptStep(c: Contracts, merchants: map<Address, Info>, taken: seq<Address>, w: World, w1: World, r: Address, w2: World)
    requires Swept(c, merchants, taken, w, w1) && SweptOff(c, r, w1, w2) && CloneOf(merchants, w, r) == Some(w2.clones[r])
    ensures Swept(c, merchants, taken + [r], w, w2)
  {
    LogNext(c, merchants, w, taken, r);
    forall a ensures Get(w2.balance, a) == BalanceAt(c, merchants, w, taken + [r], a) {
      BalanceNext(c, merchants, w, taken, r, a);
      assert Get(w1.balance, a) == BalanceAt(c, merchants, w, taken, a);
    }
  }

  // ---- who ends up with nothing -------------------------------------------------

  /** A sweep of the batch pays `a` after its own turn: its own counts. */
  ghost predicate PaidLate(c: Contracts, merchants: map<Address, Info>, w: World, taken: seq<Address>, a: Address) {
    exists j :: 0 <= j < |taken| && a !in taken[j + 1..] && PaysAt(c, merchants, w, taken, j, a)
  }

  ghost predicate PaysAt(c: Contracts, merchants: map<Address, Info>, w: World, taken: seq<Address>, j: nat, a: Address)
    requires j < |taken|
  {
    Pays(c, merchants, w, taken[j], AtTurn(c, merchants, w, taken, j), a) > 0
  }

  lemma PaidLateNext(c: Contracts, merchants: map<Address, Info>, w: World, taken: seq<Address>, r: Address, a: Address)
    ensures PaidLate(c, merchants, w, taken + [r], a) <==>
      || Pays(c, merchants, w, r, BalanceAt(c, merchants, w, taken, r), a) > 0
      || (a != r && PaidLate(c, merchants, w, taken, a))
  {
    var taken', n := taken + [r], |taken|;
    assert taken'[..n] == taken && taken'[n + 1..] == [];
    assert PaysAt(c, merchants, w, taken', n, a) <==> Pays(c, merchants, w, r, BalanceAt(c, merchants, w, taken, r), a) > 0;
    forall j | 0 <= j < n
      ensures PaysAt(c, merchants, w, taken', j, a) <==> PaysAt(c, merchants, w, taken, j, a)
      ensures a !in taken'[j + 1..] <==> a != r && a !in taken[j + 1..]
    {
      assert taken'[..j] == taken[..j];
      assert taken'[j + 1..] == taken[j + 1..] + [r];
    }
    if PaidLate(c, merchants, w, taken, a) && a != r {
      var j :| 0 <= j < n && a !in taken[j + 1..] && PaysAt(c, merchants, w, taken, j, a);
      assert PaysAt(c, merchants, w, taken', j, a) && a !in taken'[j + 1..];
    }
    if PaidLate(c, merchants, w, taken', a) {
      var j :| 0 <= j < |taken'| && a !in taken'[j + 1..] && PaysAt(c, merchants, w, taken', j, a);
      if j < n {
        assert PaysAt(c, merchants, w, taken, j, a) && a !in taken[j + 1..];
      }
    }
  }

  /** Whoever was swept, or had nothing, ends with nothing exactly when no sweep
      after its own turn pays it. */
  lemma {:induction false} EmptyIff(c: Contracts, merchants: map<Address, Info>, w: World, taken: seq<Address>, a: Address)
    requires a in taken || Get(w.balance, a) == 0
    ensures BalanceAt(c, merchants, w, taken, a) == 0 <==> !PaidLate(c, merchants, w, taken, a)
  {
    if taken != [] {
      var before, r := taken[..|taken| - 1], taken[|taken| - 1];
      assert taken == before + [r];
      BalanceNext(c, merchants, w, before, r, a);
      PaidLateNext(c, merchants, w, before, r, a);
      if a != r {
        assert a in taken ==> a in before;
        EmptyIff(c, merchants, w, before, a);
      }
    }
  }

  /** What `a` receives is settled on this chain, to `b`. */
  ghost predicate SettlesOn(merchants: map<Address, Info>, w: World, a: Address, b: Address) {
    match CloneOf(merchants, w, a)
    case Some(clone) => SameChain(clone.route) && clone.merchant == b
    case None => false
  }

  /** Nobody who is paid by no receiver at all is paid late: not the worker's own
      account, not the treasury, not the merchant of a receiver settled here. */
  lemma NeverPaidLate(c: Contracts, merchants: map<Address, Info>, w: World, taken: seq<Address>, a: Address)
    requires a != c.keeper && a != c.treasury
    requires forall r :: r in taken ==> !SettlesOn(merchants, w, r, a)
    ensures !PaidLate(c, merchants, w, taken, a)
  {
    forall j | 0 <= j < |taken| ensures !PaysAt(c, merchants, w, taken, j, a) {
      assert taken[j] in taken;
    }
  }

  // ---- what is in the plan ------------------------------------------------------

  function Count(calls: seq<Call3>, call: Call3): nat {
    if calls == [] then 0
    else Count(calls[..|calls| - 1], call) + if calls[|calls| - 1] == call then 1 else 0
  }

  lemma {:induction false} CountAppend(a: seq<Call3>, b: seq<Call3>, call: Call3)
    ensures Count(a + b, call) == Count(a, call) + Count(b, call)
  {
    if b == [] {
      assert a + b == a;
    } else {
      assert (a + b)[..|a + b| - 1] == a + b[..|b| - 1];
      CountAppend(a, b[..|b| - 1], call);
    }
  }

  /** How often a merchant's webhook is set. */
  function HookCount(calls: seq<Call3>, m: Address): nat {
    if calls == [] then 0
    else
      HookCount(calls[..|calls| - 1], m)
      + match calls[|calls| - 1].call case SetWebhookUrl(m', _) => (if m' == m then 1 else 0) case _ => 0
  }

  lemma {:induction false} HookCountAppend(a: seq<Call3>, b: seq<Call3>, m: Address)
    ensures HookCount(a + b, m) == HookCount(a, m) + HookCount(b, m)
  {
    if b == [] {
      assert a + b == a;
    } else {
      assert (a + b)[..|a + b| - 1] == a + b[..|b| - 1];
      HookCountAppend(a, b[..|b| - 1], m);
    }
  }

  lemma PieceCounts(c: Contracts, k: Known, hooked: set<Address>, r: Address, call: Call3, m: Address)
    ensures
      var piece := Piece(c, k, hooked, r);
      && (call.call.SweepReceiver? ==> Count(piece, call) == if call == SweepCall(r) && Included(k, r) then 1 else 0)
      && (call.call.RegisterMerchant? ==>
            Count(piece, call) ==
              if Deploys(k, r) && call == RegisterCall(c, k.merchants[r].merchant, k.merchants[r].route.value) then 1
              else 0)
      && HookCount(piece, m) ==
           if Deploys(k, r) && k.merchants[r].merchant == m && AddressText(m) in k.hooks && m !in hooked then 1 else 0
  {
    if Included(k, r) {
      var s := SweepCall(r);
      assert [s][..0] == [];
      if r !in k.deployed {
        var info := k.merchants[r];
        var reg := RegisterCall(c, info.merchant, info.route.value);
        var hooks := HookCalls(c, k, hooked, info.merchant);
        assert [reg, s][..1] == [reg] && [reg][..0] == [];
        if hooks != [] {
          assert hooks[..0] == [];
        }
        CountAppend(hooks, [reg, s], call);
        HookCountAppend(hooks, [reg, s], m);
      }
    }
  }

  /** Each included receiver is swept exactly once, no other ever. */
  lemma {:induction false} SweptOnce(c: Contracts, k: Known, unique: seq<Address>, r: Address)
    requires NoRepeats(unique)
    ensures Count(PlanFor(c, k, unique).calls, SweepCall(r)) == if r in unique && Included(k, r) then 1 else 0
  {
    if unique != [] {
      var before, last := unique[..|unique| - 1], unique[|unique| - 1];
      SweptOnce(c, k, before, r);
      var p := PlanFor(c, k, before);
      CountAppend(p.calls, Piece(c, k, p.hooked, last), SweepCall(r));
      PieceCounts(c, k, p.hooked, last, SweepCall(r), last);
      Unsnoc(unique);
    }
  }

  /** A receiver's announced route is registered exactly once when the receiver
      is included and not deployed, and never when it already is. */
  lemma {:induction false} RegisteredOnce(c: Contracts, k: Known, unique: seq<Address>, r: Address)
    requires Announced(c, k.merchants) && NoRepeats(unique)
    requires r in k.merchants && k.merchants[r].route.Some?
    ensures Count(PlanFor(c, k, unique).calls, RegisterCall(c, k.merchants[r].merchant, k.merchants[r].route.value))
      == if r in unique && Deploys(k, r) then 1 else 0
  {
    if unique != [] {
      var before, last := unique[..|unique| - 1], unique[|unique| - 1];
      RegisteredOnce(c, k, before, r);
      var p := PlanFor(c, k, before);
      var reg := RegisterCall(c, k.merchants[r].merchant, k.merchants[r].route.value);
      CountAppend(p.calls, Piece(c, k, p.hooked, last), reg);
      PieceCounts(c, k, p.hooked, last, reg, last);
      Unsnoc(unique);
    }
  }

  /** The batch deploys a receiver of `m`. */
  ghost predicate DeploysFor(k: Known, unique: seq<Address>, m: Address) {
    exists r :: r in unique && Deploys(k, r) && k.merchants[r].merchant == m
  }

  lemma DeploysForNext(k: Known, unique: seq<Address>, r: Address, m: Address)
    ensures DeploysFor(k, unique + [r], m) <==>
      DeploysFor(k, unique, m) || (Deploys(k, r) && k.merchants[r].merchant == m)
  {
    if DeploysFor(k, unique, m) {
      var x :| x in unique && Deploys(k, x) && k.merchants[x].merchant == m;
      assert x in unique + [r];
    }
    assert r in unique + [r];
  }

  /** A merchant's webhook is set at most once: once when the plan says so. */
  lemma {:induction false} HookedOnce(c: Contracts, k: Known, unique: seq<Address>, m: Address)
    ensures HookCount(PlanFor(c, k, unique).calls, m) == if m in PlanFor(c, k, unique).hooked then 1 else 0
    ensures m in PlanFor(c, k, unique).hooked <==>
      AddressText(m) in k.hooks && DeploysFor(k, unique, m)
  {
    if unique != [] {
      var before, last := unique[..|unique| - 1], unique[|unique| - 1];
      HookedOnce(c, k, before, m);
      var p := PlanFor(c, k, before);
      HookCountAppend(p.calls, Piece(c, k, p.hooked, last), m);
      PieceCounts(c, k, p.hooked, last, SweepCall(last), m);
      Unsnoc(unique);
      DeploysForNext(k, before, last, m);
    }
  }

  /** A registration stands right before the sweep of the receiver it deploys. */
  lemma {:induction false} RegisterThenSweep(c: Contracts, k: Known, unique: seq<Address>, r: Address) returns (i: nat)
    requires r in unique && Deploys(k, r)
    ensures
      var calls := PlanFor(c, k, unique).calls;
      i + 1 < |calls|
      && calls[i] == RegisterCall(c, k.merchants[r].merchant, k.merchants[r].route.value)
      && calls[i + 1] == SweepCall(r)
  {
    var n := |unique| - 1;
    var before, p := unique[..n], PlanFor(c, k, unique[..n]);
    if r in before {
      i := RegisterThenSweep(c, k, before, r);
    } else {
      assert r == unique[n];
      i := |p.calls| + |HookCalls(c, k, p.hooked, k.merchants[r].merchant)|;
    }
  }

  // ---- where routes come from -----------------------------------------------------

  /** Registry events as the factory emits them: an announced route leads to its
      receiver, and a registered receiver belongs to some route of its merchant. */
  ghost predicate Genuine(c: Contracts, recs: seq<Receiver>) {
    forall i :: 0 <= i < |recs| ==>
      match recs[i].route
      case Some(route) => (recs[i].merchant, route) in c.predict && c.predict[(recs[i].merchant, route)] == recs[i].receiver
      case None => exists route :: (recs[i].merchant, route) in c.predict && c.predict[(recs[i].merchant, route)] == recs[i].receiver
  }

  /** Folding genuine events keeps every remembered route leading to its
      receiver: merchant and route may come from different events, but the
      receiver's address pins both. */
  lemma {:induction false} GenuineFold(c: Contracts, recs: seq<Receiver>)
    requires CollisionFree(c) && Genuine(c, recs)
    ensures Announced(c, RememberAll(map[], recs))
  {
    if recs != [] {
      var n := |recs| - 1;
      var rec := recs[n];
      assert Genuine(c, recs[..n]) by {
        forall i | 0 <= i < n ensures recs[..n][i] == recs[i] {
        }
      }
      GenuineFold(c, recs[..n]);
      var m := RememberAll(map[], recs[..n]);
      if rec.route.None? && rec.receiver in m && m[rec.receiver].route.Some? {
        var route :| (rec.merchant, route) in c.predict && c.predict[(rec.merchant, route)] == rec.receiver;
        var known := m[rec.receiver];
        assert c.predict[(known.merchant, known.route.value)] == rec.receiver;
      }
    }
  }

  // ---- one pass ----------------------------------------------------------------------

  /** Answers to one pass: the balance view, the batched and the single code
      lookups (a missing single answer is an error), what happens on chain before
      the send lands, whether it lands, and whether a receipt comes back for a
      batch that went through and for one that reverted. */
  datatype Answers = Answers(
    nonzero: Option<set<Address>>, batch: Option<set<Address>>, single: map<Address, bool>,
    meanwhile: seq<Outside>, mined: bool, receipt: bool, revertReceipt: bool)

  /** Views may report a zero balance as unknown, never a held one as zero. */
  ghost predicate Truthful(w: World, ans: Answers) {
    && (ans.nonzero.Some? ==> forall a :: Get(w.balance, a) > 0 ==> a in ans.nonzero.value)
    && (ans.batch.Some? ==> ans.batch.value == w.clones.Keys)
    && (forall a :: a in ans.single ==> (ans.single[a] <==> a in w.clones))
  }

  /** No lookup failed, nothing interfered, the batch landed and was seen. */
  ghost predicate Smooth(ans: Answers) {
    ans.nonzero.Some? && ans.batch.Some? && ans.meanwhile == [] && ans.mined && ans.receipt
  }

  function Exists(ans: Answers, a: Address): bool {
    if ans.batch.Some? then a in ans.batch.value else a in ans.single && ans.single[a]
  }

  /** The chain the batch meets. */
  function Arrival(c: Contracts, w: World, ans: Answers): World {
    HappenAll(c, w, ans.meanwhile)
  }

  /** The chain after a batch was sent: a batch that reverts changes nothing. */
  function Sent(c: Contracts, w: World, ans: Answers, calls: seq<Call3>): World {
    var o := Aggregate(c, Arrival(c, w, ans), calls);
    if calls != [] && ans.mined && o.Some? then o.value else Arrival(c, w, ans)
  }

  predicate Reverted(c: Contracts, w: World, ans: Answers, calls: seq<Call3>) {
    calls != [] && ans.mined && Aggregate(c, Arrival(c, w, ans), calls).None?
  }

  /** A receipt comes back: all the worker looks at. */
  predicate Receipt(c: Contracts, w: World, ans: Answers, calls: seq<Call3>) {
    calls != [] && ans.mined && if Reverted(c, w, ans, calls) then ans.revertReceipt else ans.receipt
  }

  /** A known receiver that can be swept: it is deployed, or its route is known. */
  ghost predicate Sweepable(w: World, merchants: map<Address, Info>, r: Address) {
    r in merchants && (r in w.clones || merchants[r].route.Some?)
  }

  /** A sent batch keeps the worker's picture true. It reverts exactly when
      something blocks it on the chain it meets, and otherwise settles what it
      set out to settle. */
  lemma BatchSafe(c: Contracts, k: Known, unique: seq<Address>, w: World, ans: Answers)
    requires Announced(c, k.merchants) && NoRepeats(unique) && forall r :: r in unique ==> Agrees(k, w, r)
    requires k.deployed <= w.clones.Keys
    ensures
      var p := PlanFor(c, k, unique);
      var w', arrived := Sent(c, w, ans, p.calls), Arrival(c, w, ans);
      && k.deployed <= w'.clones.Keys
      && (forall r :: r in p.pending ==> r !in w.clones)
      && (Reverted(c, w, ans, p.calls) <==>
            p.calls != [] && ans.mined && Blocked(c, k.merchants, p.taken, p.pending, arrived))
      && (if ans.mined && !Reverted(c, w, ans, p.calls) then Settles(c, k.merchants, p.taken, p.pending, arrived, w')
          else w' == arrived)
  {
    HappenKeeps(c, w, ans.meanwhile);
    PendingAmong(c, k, unique);
    PlanRuns(c, k, unique, Arrival(c, w, ans));
    if PlanFor(c, k, unique).calls == [] {
      NothingPlanned(c, k, unique);
    }
  }

  lemma {:induction false} NothingPlanned(c: Contracts, k: Known, unique: seq<Address>)
    requires PlanFor(c, k, unique).calls == []
    ensures PlanFor(c, k, unique).taken == [] && PlanFor(c, k, unique).pending == []
  {
    if unique != [] {
      NothingPlanned(c, k, unique[..|unique| - 1]);
    }
  }

  lemma SmoothSettles(c: Contracts, k: Known, unique: seq<Address>, w: World, ans: Answers)
    requires Announced(c, k.merchants) && NoRepeats(unique) && forall r :: r in unique ==> Agrees(k, w, r)
    requires k.deployed <= w.clones.Keys && Smooth(ans)
    requires
      var p := PlanFor(c, k, unique);
      !Blocked(c, k.merchants, p.taken, p.pending, w)
    ensures
      var p := PlanFor(c, k, unique);
      Settles(c, k.merchants, p.taken, p.pending, w, Sent(c, w, ans, p.calls))
  {
    BatchSafe(c, k, unique, w, ans);
    assert Arrival(c, w, ans) == w;
  }

  function Listed(s: seq<Address>): set<Address> {
    set a | a in s
  }

  /** The balance view did not rule a receiver out; one that fails rules out nobody. */
  predicate NotRuledOut(ans: Answers, r: Address) {
    ans.nonzero.Some? ==> r in ans.nonzero.value
  }

  /** Whether a receiver is deployed is known: the worker believed it already, the
      batched lookup answered, or the single one did. */
  predicate Decided(deployed: set<Address>, ans: Answers, r: Address) {
    r in deployed || ans.batch.Some? || r in ans.single
  }

  /** What a pass takes on, whatever lookups fail, in the order of the addresses:
      every candidate not ruled out whose deployment was decided and that can be
      swept, registering those that are not deployed. */
  ghost predicate Taken(w: World, merchants: map<Address, Info>, deployed: set<Address>, ans: Answers,
                        candidates: set<Address>, taken: seq<Address>, pending: seq<Address>)
  {
    && StrictlyAscending(taken)
    && (forall r :: r in taken <==>
          r in candidates && NotRuledOut(ans, r) && Decided(deployed, ans, r) && Sweepable(w, merchants, r))
    && (forall r :: r in pending <==> r in taken && r !in w.clones)
  }

  lemma BatchTakes(c: Contracts, k: Known, unique: seq<Address>, w: World, deployed: set<Address>, ans: Answers,
                   candidates: set<Address>)
    requires StrictlyAscending(unique) && deployed <= w.clones.Keys && forall r :: r in unique ==> Agrees(k, w, r)
    requires forall r :: r in unique <==> r in candidates && NotRuledOut(ans, r)
    requires forall r :: r in unique ==> (r in k.indeterminate <==> !Decided(deployed, ans, r))
    ensures
      Taken(w, k.merchants, deployed, ans, candidates, PlanFor(c, k, unique).taken, PlanFor(c, k, unique).pending)
  {
    TakenAmong(c, k, unique);
    TakenAscends(c, k, unique);
    PendingAmong(c, k, unique);
    forall r | r in unique && r !in k.indeterminate ensures r in k.deployed <==> r in w.clones {
      assert Agrees(k, w, r);
    }
  }

  /** A call a batch may hold: a sweep of a taken receiver, the registration of a
      pending one, or the stored URL of a pending one's merchant. */
  ghost predicate Belongs(c: Contracts, merchants: map<Address, Info>, hooks: map<string, string>, taken: seq<Address>,
                          pending: seq<Address>, call: Call3)
  {
    match call.call
    case SweepReceiver => call == SweepCall(call.target) && call.target in taken
    case RegisterMerchant(m, route) =>
      && call == RegisterCall(c, m, route)
      && exists r :: r in pending && r in merchants && merchants[r] == Info(m, Some(route))
    case SetWebhookUrl(m, url) =>
      && call == Call3(c.webhookRegistry, true, SetWebhookUrl(m, url))
      && AddressText(m) in hooks && hooks[AddressText(m)] == url && PendingFor(merchants, pending, m)
  }

  /** Some pending receiver is this merchant's. */
  ghost predicate PendingFor(merchants: map<Address, Info>, pending: seq<Address>, m: Address) {
    exists r :: r in pending && r in merchants && merchants[r].merchant == m
  }

  /** The calls of a pass: each taken receiver is swept once, each pending one
      registered once with its announced route, each of their merchants gets a known
      URL once; nothing else. */
  ghost predicate Compiled(c: Contracts, merchants: map<Address, Info>, hooks: map<string, string>, taken: seq<Address>,
                           pending: seq<Address>, calls: seq<Call3>)
  {
    && (forall call :: call in calls ==> Belongs(c, merchants, hooks, taken, pending, call))
    && (forall r :: Count(calls, SweepCall(r)) == if r in taken then 1 else 0)
    && (forall r :: r in merchants && merchants[r].route.Some? ==>
          Count(calls, RegisterCall(c, merchants[r].merchant, merchants[r].route.value)) == if r in pending then 1 else 0)
    && (forall m :: HookCount(calls, m) == if AddressText(m) in hooks && PendingFor(merchants, pending, m) then 1 else 0)
  }

  /** Every call of a plan belongs, given what the plan takes and deploys. */
  lemma {:induction false} PlanBelongs(c: Contracts, k: Known, unique: seq<Address>, taken: seq<Address>,
                                       pending: seq<Address>)
    requires forall r :: r in PlanFor(c, k, unique).taken ==> r in taken
    requires forall r :: r in PlanFor(c, k, unique).pending ==> r in pending
    ensures forall call :: call in PlanFor(c, k, unique).calls ==> Belongs(c, k.merchants, k.hooks, taken, pending, call)
  {
    if unique != [] {
      var before, last := unique[..|unique| - 1], unique[|unique| - 1];
      var p := PlanFor(c, k, before);
      PlanBelongs(c, k, before, taken, pending);
      forall call | call in Piece(c, k, p.hooked, last) ensures Belongs(c, k.merchants, k.hooks, taken, pending, call) {
        if Deploys(k, last) {
          var info := k.merchants[last];
          assert last in pending && info == Info(info.merchant, Some(info.route.value));
        }
      }
    }
  }

  lemma PlanCompiles(c: Contracts, k: Known, unique: seq<Address>)
    requires Announced(c, k.merchants) && NoRepeats(unique)
    ensures
      var p := PlanFor(c, k, unique);
      Compiled(c, k.merchants, k.hooks, p.taken, p.pending, p.calls)
  {
    var p := PlanFor(c, k, unique);
    PlanBelongs(c, k, unique, p.taken, p.pending);
    TakenAmong(c, k, unique);
    PendingAmong(c, k, unique);
    forall r ensures Count(p.calls, SweepCall(r)) == if r in p.taken then 1 else 0 {
      SweptOnce(c, k, unique, r);
    }
    forall r | r in k.merchants && k.merchants[r].route.Some?
      ensures Count(p.calls, RegisterCall(c, k.merchants[r].merchant, k.merchants[r].route.value))
        == if r in p.pending then 1 else 0
    {
      RegisteredOnce(c, k, unique, r);
    }
    forall m ensures HookCount(p.calls, m) == if AddressText(m) in k.hooks && PendingFor(k.merchants, p.pending, m) then 1 else 0 {
      HookedOnce(c, k, unique, m);
      PendingForPlan(c, k, unique, m);
    }
  }

  lemma PendingForPlan(c: Contracts, k: Known, unique: seq<Address>, m: Address)
    ensures PendingFor(k.merchants, PlanFor(c, k, unique).pending, m) <==> DeploysFor(k, unique, m)
  {
    PendingAmong(c, k, unique);
    if DeploysFor(k, unique, m) {
      var r :| r in unique && Deploys(k, r) && k.merchants[r].merchant == m;
      assert r in PlanFor(c, k, unique).pending;
    }
  }

  /** A moment between passes: the chain, and what the worker remembers. */
  datatype Moment = Moment(
    w: World, merchants: map<Address, Info>, hooks: map<string, string>, deployed: set<Address>)

  /** What a pass did: the calls it sent, the receivers they sweep and deploy, and
      whether a receipt came. */
  datatype Pass = Pass(calls: seq<Call3>, taken: seq<Address>, pending: seq<Address>, sent: bool)

  /** The deployments a pass finds out about. */
  function Found(candidates: set<Address>, ans: Answers): set<Address> {
    set a | a in candidates && NotRuledOut(ans, a) && Exists(ans, a)
  }

  /** How a batch lands: it reverts exactly when something blocks it, and otherwise
      settles every receiver it takes. */
  ghost predicate Lands(c: Contracts, m: Moment, ans: Answers, p: Pass, w': World) {
    var arrived := Arrival(c, m.w, ans);
    && (Reverted(c, m.w, ans, p.calls) <==>
          p.calls != [] && ans.mined && Blocked(c, m.merchants, p.taken, p.pending, arrived))
    && (if ans.mined && !Reverted(c, m.w, ans, p.calls) then Settles(c, m.merchants, p.taken, p.pending, arrived, w')
        else w' == arrived)
  }

  /** One pass over some candidates, from one moment to the next. */
  ghost predicate Passes(c: Contracts, m: Moment, candidates: set<Address>, ans: Answers, p: Pass, m': Moment) {
    && Taken(m.w, m.merchants, m.deployed, ans, candidates, p.taken, p.pending)
    && Compiled(c, m.merchants, m.hooks, p.taken, p.pending, p.calls)
    && (p.sent <==> Receipt(c, m.w, ans, p.calls))
    && m'.w == Sent(c, m.w, ans, p.calls) && Lands(c, m, ans, p, m'.w)
    && m'.merchants == m.merchants && m'.hooks == m.hooks
    && m'.deployed == m.deployed + Found(candidates, ans) + if p.sent then set r | r in p.pending else {}
  }

  /** A smooth pass that nothing blocks empties every candidate that can be swept,
      but for those that a later sweep of the batch pays; over a blocked batch it
      leaves everything as it is. */
  lemma BatchEmpties(c: Contracts, m: Moment, candidates: set<Address>, ans: Answers, p: Pass, m': Moment)
    requires Truthful(m.w, ans) && Smooth(ans) && Passes(c, m, candidates, ans, p, m')
    ensures Blocked(c, m.merchants, p.taken, p.pending, m.w) ==> m'.w == m.w
    ensures !Blocked(c, m.merchants, p.taken, p.pending, m.w) ==>
      forall r :: r in candidates && Sweepable(m.w, m.merchants, r) ==>
        (Get(m'.w.balance, r) == 0 <==> !PaidLate(c, m.merchants, m.w, p.taken, r))
  {
    assert Arrival(c, m.w, ans) == m.w;
    if !Blocked(c, m.merchants, p.taken, p.pending, m.w) {
      forall r | r in candidates && Sweepable(m.w, m.merchants, r)
        ensures Get(m'.w.balance, r) == 0 <==> !PaidLate(c, m.merchants, m.w, p.taken, r)
      {
        EmptyIff(c, m.merchants, m.w, p.taken, r);
      }
    }
  }

  /** The worker believes in a receiver that is not there: the batch was blocked,
      a receipt came all the same, and some pending receiver is not deployed. */
  ghost predicate Misread(c: Contracts, merchants: map<Address, Info>, calls: seq<Call3>, taken: seq<Address>,
                          pending: seq<Address>, arrived: World, ans: Answers)
  {
    && calls != [] && ans.mined && ans.revertReceipt && Blocked(c, merchants, taken, pending, arrived)
    && exists r :: r in pending && r !in arrived.clones
  }

  // ---- what can go wrong -------------------------------------------------------------

  /** A receiver whose merchant is another known receiver, which holds nothing: a
      smooth pass that nothing blocks sweeps the first and leaves the second with
      what it was paid. */
  lemma PaidReceiver(c: Contracts, k: Known, unique: seq<Address>, w: World, ans: Answers, a: Address, b: Address)
    requires Announced(c, k.merchants) && NoRepeats(unique) && forall r :: r in unique ==> Agrees(k, w, r)
    requires k.deployed <= w.clones.Keys && Smooth(ans) && Sweepable(w, k.merchants, b)
    requires a != b && b != c.treasury && b != c.keeper && Get(w.balance, a) == 1000 && Get(w.balance, b) == 0
    requires SettlesOn(k.merchants, w, a, b)
    requires
      var p := PlanFor(c, k, unique);
      p.taken == [a] && !Blocked(c, k.merchants, p.taken, p.pending, w)
    ensures Get(Sent(c, w, ans, PlanFor(c, k, unique).calls).balance, b) == 995
    ensures PaidLate(c, k.merchants, w, [a], b)
  {
    SmoothSettles(c, k, unique, w, ans);
    PaidOn(c, k.merchants, w, a, b);
  }

  function Account(v: byte): Address {
    seq(20, _ => v)
  }

  function Nowhere(): Bytes32 {
    seq(32, _ => 0)
  }

  const HERE: Route := Route(Nowhere(), Nowhere())
  const FIRST: Address := Account(1)
  const SECOND: Address := Account(2)

  ghost function PlainContracts(): Contracts {
    Contracts(Account(6), Account(7), Account(8), Account(4), Account(5),
              imap[(SECOND, HERE) := FIRST, (Account(3), HERE) := SECOND], true, iset{})
  }

  function KnownTwo(): Known {
    Known(map[FIRST := Info(SECOND, Some(HERE)), SECOND := Info(Account(3), Some(HERE))], map[], {FIRST, SECOND}, {})
  }

  function HeldByFirst(): World {
    World(map[FIRST := Clone(SECOND, HERE), SECOND := Clone(Account(3), HERE)], map[], map[], map[FIRST := 1000], [], map[])
  }

  function AllWell(): Answers {
    Answers(Some({FIRST}), Some({FIRST, SECOND}), map[], [], true, true, false)
  }

  lemma TwoKnown()
    ensures
      var c, k, w, ans := PlainContracts(), KnownTwo(), HeldByFirst(), AllWell();
      && FIRST != SECOND && SECOND != c.treasury && SECOND != c.keeper
      && Announced(c, k.merchants) && Truthful(w, ans) && Smooth(ans) && SettlesOn(k.merchants, w, FIRST, SECOND)
      && Agrees(k, w, FIRST) && Sweepable(w, k.merchants, SECOND)
  {
    assert FIRST[0] == 1 && SECOND[0] == 2 && Account(3)[0] == 3 && Account(4)[0] == 4 && Account(5)[0] == 5;
  }

  /** Such an input: two deployed receivers, the second the merchant of the first,
      every lookup right and nothing in the way. */
  lemma PaidReceiverInput()
    ensures
      var c, k, w, ans := PlainContracts(), KnownTwo(), HeldByFirst(), AllWell();
      var p := PlanFor(c, k, [FIRST]);
      && Announced(c, k.merchants) && Truthful(w, ans) && Smooth(ans) && !Blocked(c, k.merchants, p.taken, p.pending, w)
      && Sweepable(w, k.merchants, SECOND) && Get(Sent(c, w, ans, p.calls).balance, SECOND) == 995
  {
    var c, k, w, ans := PlainContracts(), KnownTwo(), HeldByFirst(), AllWell();
    TwoKnown();
    FirstPlan(c, k, FIRST);
    PaidReceiver(c, k, [FIRST], w, ans, FIRST, SECOND);
  }

  lemma FirstPlan(c: Contracts, k: Known, r: Address)
    requires Included(k, r) && r in k.deployed
    ensures PlanFor(c, k, [r]).taken == [r] && PlanFor(c, k, [r]).pending == []
  {
    assert [r][..0] == [];
  }

  lemma PaidOn(c: Contracts, merchants: map<Address, Info>, w: World, a: Address, b: Address)
    requires a != b && b != c.treasury && b != c.keeper && Get(w.balance, a) == 1000 && Get(w.balance, b) == 0
    requires SettlesOn(merchants, w, a, b)
    ensures BalanceAt(c, merchants, w, [a], b) == 995 && PaidLate(c, merchants, w, [a], b)
  {
    BalanceNext(c, merchants, w, [], a, b);
    assert [] + [a] == [a];
    EmptyIff(c, merchants, w, [a], b);
  }

  lemma {:induction false} PendingAtLeast(merchants: map<Address, Info>, pending: seq<Address>, rs: seq<Address>,
                                          m: Address)
    requires NoRepeats(rs) && forall r :: r in rs ==> r in pending && r in merchants && merchants[r].merchant == m
    ensures |rs| <= PendingOf(merchants, pending, m)
    decreases |pending|
  {
    if rs != [] {
      assert rs[0] in pending;
      var n := |pending| - 1;
      var rest, last := pending[..n], pending[n];
      assert forall r :: r in pending ==> r in rest || r == last;
      if i :| 0 <= i < |rs| && rs[i] == last {
        var others := rs[..i] + rs[i + 1..];
        assert forall r :: r in others ==> r in rs && r != last;
        PendingAtLeast(merchants, rest, others, m);
      } else {
        PendingAtLeast(merchants, rest, rs, m);
      }
    }
  }

  /** One merchant with more pending receivers than the factory has room for, 33
      of a merchant that has none yet, say: no pass empties anything, for anybody,
      and the next one meets the same chain. */
  lemma CapStopsEverything(c: Contracts, k: Known, unique: seq<Address>, w: World, ans: Answers, rs: seq<Address>,
                           m: Address)
    requires Announced(c, k.merchants) && NoRepeats(unique) && forall r :: r in unique ==> Agrees(k, w, r)
    requires k.deployed <= w.clones.Keys && ans.meanwhile == []
    requires NoRepeats(rs) && rs != [] && Get(w.count, m) + |rs| > MAX_RECEIVERS_PER_MERCHANT
    requires forall r :: r in rs ==> r in unique && Deploys(k, r) && k.merchants[r].merchant == m
    ensures Sent(c, w, ans, PlanFor(c, k, unique).calls) == w
  {
    var p := PlanFor(c, k, unique);
    PendingAmong(c, k, unique);
    PendingAtLeast(k.merchants, p.pending, rs, m);
    assert rs[0] in rs && Hindered(c, k.merchants, p.pending, w, rs[0]);
    BatchSafe(c, k, unique, w, ans);
    assert Arrival(c, w, ans) == w;
  }

  /** Why a receipt has to mean success: two receivers in one batch, one of them
      registered by somebody else first. The batch reverts and nothing of it
      happens, but both are taken for deployed. */
  lemma MisreadReceipt(c: Contracts, k: Known, w: World, r: Address, other: Address, ans: Answers)
    requires Announced(c, k.merchants) && r != other && Deploys(k, r) && Deploys(k, other)
    requires r !in w.clones && !Refused(c, w, k.merchants[other].merchant, k.merchants[other].route.value)
    requires ans.mined && ans.meanwhile == [SomeoneRegisters(k.merchants[other].merchant, k.merchants[other].route.value)]
    ensures
      var p := PlanFor(c, k, [r, other]);
      && Reverted(c, w, ans, p.calls)
      && r in p.pending && r !in Sent(c, w, ans, p.calls).clones
  {
    var unique := [r, other];
    var p := PlanFor(c, k, unique);
    PendingAmong(c, k, unique);
    var o := ans.meanwhile[0];
    assert ans.meanwhile[..0] == [] && HappenAll(c, w, []) == w;
    assert Arrival(c, w, ans) == Happen(c, w, o);
    var i := RegisterThenSweep(c, k, unique, other);
    assert p.calls[i] in p.calls;
    RefusedReverts(c, Arrival(c, w, ans), p.calls, k.merchants[other].merchant, k.merchants[other].route.value);
  }

  lemma {:induction false} NeverRegistered(c: Contracts, k: Known, unique: seq<Address>, r: Address)
    requires Announced(c, k.merchants) && r in k.deployed
    ensures forall call :: call in PlanFor(c, k, unique).calls ==> !Registers(c, call, r)
  {
    if unique != [] {
      NeverRegistered(c, k, unique[..|unique| - 1], r);
    }
  }

  /** What it leads to: a receiver wrongly taken for deployed is neither deployed
      nor emptied by any later batch, whatever the batch is made of. */
  lemma Stranded(c: Contracts, k: Known, unique: seq<Address>, w: World, ans: Answers, r: Address)
    requires Announced(c, k.merchants) && r in k.deployed && r !in Arrival(c, w, ans).clones
    ensures
      var w' := Sent(c, w, ans, PlanFor(c, k, unique).calls);
      r !in w'.clones && Get(w'.balance, r) >= Get(Arrival(c, w, ans).balance, r)
  {
    var calls := PlanFor(c, k, unique).calls;
    NeverRegistered(c, k, unique, r);
    if Aggregate(c, Arrival(c, w, ans), calls).Some? {
      Untouched(c, Arrival(c, w, ans), calls, r);
    }
  }

  // ---- steps of a run ------------------------------------------------------------------

  /** The ways a pass can go wrong. */
  datatype Faults = Faults(
    balanceDown: bool, alsoNonzero: set<Address>, lookupDown: bool, reachable: set<Address>,
    meanwhile: seq<Outside>, mined: bool, receipt: bool, revertReceipt: bool)

  datatype Step =
    | Happens(o: Outside)
    | Learns(recs: seq<Receiver>, hooks: map<string, string>)
    | Restarts(recs: seq<Receiver>, hooks: map<string, string>)
    | Sweeps(candidates: seq<Address>, faults: Faults)
    | Reconciles(faults: Faults)

  function Answered(w: World, f: Faults): (ans: Answers)
    ensures Truthful(w, ans)
  {
    Answers(
      if f.balanceDown then None else Some(f.alsoNonzero + set a | a in w.balance && w.balance[a] > 0),
      if f.lookupDown then None else Some(w.clones.Keys),
      map a | a in f.reachable :: a in w.clones,
      f.meanwhile, f.mined, f.receipt, f.revertReceipt)
  }

  ghost predicate FromRegistry(c: Contracts, step: Step) {
    match step
    case Learns(recs, _) => Genuine(c, recs)
    case Restarts(recs, _) => Genuine(c, recs)
    case _ => true
  }

  /** No receipt for a batch that reverts. */
  predicate Candid(step: Step) {
    match step
    case Sweeps(_, f) => !f.revertReceipt
    case Reconciles(f) => !f.revertReceipt
    case _ => true
  }

  /** What a step brings in for one receiver. */
  function Paid(step: Step, a: Address): nat {
    match step
    case Happens(o) => Arrived([o], a)
    case Sweeps(_, f) => Arrived(f.meanwhile, a)
    case Reconciles(f) => Arrived(f.meanwhile, a)
    case _ => 0
  }

  function PaidAll(steps: seq<Step>, a: Address): nat {
    if steps == [] then 0 else PaidAll(steps[..|steps| - 1], a) + Paid(steps[|steps| - 1], a)
  }

  lemma SentKeeps(c: Contracts, w: World, ans: Answers, calls: seq<Call3>)
    requires Conserved(c, w)
    ensures
      var w' := Sent(c, w, ans, calls);
      && Conserved(c, w') && Grows(w, w')
      && (forall a :: Get(w'.deposited, a) == Get(w.deposited, a) + Arrived(ans.meanwhile, a))
  {
    HappenKeeps(c, w, ans.meanwhile);
    AggregateConserves(c, Arrival(c, w, ans), calls);
    GrowsOn(w, Arrival(c, w, ans), Sent(c, w, ans, calls));
    forall a ensures Get(Arrival(c, w, ans).deposited, a) == Get(w.deposited, a) + Arrived(ans.meanwhile, a) {
      HappenPays(c, w, ans.meanwhile, a);
    }
  }

  lemma HappensKeeps(c: Contracts, w: World, o: Outside)
    requires Conserved(c, w)
    ensures
      var w' := Happen(c, w, o);
      && Conserved(c, w') && Grows(w, w')
      && (forall a :: Get(w'.deposited, a) == Get(w.deposited, a) + Arrived([o], a))
  {
    assert [o][..0] == [];
    HappenKeepsOne(c, w, o);
    forall a ensures Get(Happen(c, w, o).deposited, a) == Get(w.deposited, a) + Arrived([o], a) {
      HappenPays(c, w, [o], a);
    }
  }

  lemma RunBalances(c: Contracts, w0: World, w: World, steps: seq<Step>)
    requires Conserved(c, w0) && Conserved(c, w) && Grows(w0, w)
    requires forall a :: Get(w.deposited, a) == Get(w0.deposited, a) + PaidAll(steps, a)
    ensures
      var more := w.log[|w0.log|..];
      forall a :: Get(w.balance, a) + TakenFrom(more, a) == Get(w0.balance, a) + PaidAll(steps, a) + PaidTo(c, more, a)
  {
    var more := w.log[|w0.log|..];
    assert w.log == w0.log + more;
    forall a
      ensures Get(w.balance, a) + TakenFrom(more, a) == Get(w0.balance, a) + PaidAll(steps, a) + PaidTo(c, more, a)
    {
      assert ConservedAt(c, w0, a) && ConservedAt(c, w, a);
      LogAppend(c, w0.log, more, a);
    }
  }

  /** One step, from one moment to the next. */
  ghost predicate Stepped(c: Contracts, m: Moment, step: Step, m': Moment) {
    match step
    case Happens(o) => m' == m.(w := Happen(c, m.w, o))
    case Learns(recs, hooks) => m' == m.(merchants := RememberAll(m.merchants, recs), hooks := m.hooks + hooks)
    case Restarts(recs, hooks) => m' == Moment(m.w, RememberAll(map[], recs), hooks, {})
    case Sweeps(candidates, f) => exists p :: Passes(c, m, Listed(candidates), Answered(m.w, f), p, m')
    case Reconciles(f) => exists p :: Passes(c, m, m.merchants.Keys, Answered(m.w, f), p, m')
  }

  ghost predicate Trail(c: Contracts, steps: seq<Step>, trail: seq<Moment>) {
    && |trail| == |steps| + 1
    && forall i :: 0 <= i < |steps| ==> Stepped(c, trail[i], steps[i], trail[i + 1])
  }

  lemma TrailNext(c: Contracts, steps: seq<Step>, trail: seq<Moment>, step: Step, m: Moment)
    requires Trail(c, steps, trail) && Stepped(c, trail[|steps|], step, m)
    ensures Trail(c, steps + [step], trail + [m])
  {
  }

  // ---- the worker --------------------------------------------------------------------

  method Keys(m: map<Address, Info>) returns (all: seq<Address>)
    ensures forall a :: a in all <==> a in m
  {
    all := [];
    var left := m.Keys;
    while left != {}
      invariant left <= m.Keys && forall a :: a in all <==> a in m.Keys - left
      decreases left
    {
      var a :| a in left;
      all, left := all + [a], left - {a};
    }
  }

  class SweepState {
    var merchantMap: map<Address, Info>
    var webhookMap: map<string, string>
    var deployed: set<Address>

    /** The batch, receiver by receiver. */
    method BuildBatch(c: Contracts, unique: seq<Address>, indeterminate: set<Address>)
      returns (calls: seq<Call3>, pendingDeploys: seq<Address>, ghost taken: seq<Address>)
      ensures
        var p := PlanFor(c, Known(merchantMap, webhookMap, deployed, indeterminate), unique);
        calls == p.calls && pendingDeploys == p.pending && taken == p.taken
    {
      ghost var k := Known(merchantMap, webhookMap, deployed, indeterminate);
      calls, pendingDeploys, taken := [], [], [];
      var updatedWebhooks: set<Address> := {};
      for i := 0 to |unique|
        invariant Plan(calls, pendingDeploys, taken, updatedWebhooks) == PlanFor(c, k, unique[..i])
      {
        var r := unique[i];
        ghost var p := PlanFor(c, k, unique[..i]);
        PlanNext(c, k, unique, i);
        if r in indeterminate || r !in merchantMap {
          ExtendSkips(c, k, p, r);
          continue;
        }
        var info := merchantMap[r];
        if r !in deployed {
          if info.route.None? {
            ExtendSkips(c, k, p, r);
            continue;
          }
          var key := AddressText(info.merchant);
          if key in webhookMap && info.merchant !in updatedWebhooks {
            calls := calls + [Call3(c.webhookRegistry, true, SetWebhookUrl(info.merchant, webhookMap[key]))];
            updatedWebhooks := updatedWebhooks + {info.merchant};
          }
          assert calls == p.calls + HookCalls(c, k, p.hooked, info.merchant);
          ExtendDeploys(c, k, p, r, calls, updatedWebhooks);
          calls := calls + [RegisterCall(c, info.merchant, info.route.value)];
          pendingDeploys := pendingDeploys + [r];
        }
        calls, taken := calls + [SweepCall(r)], taken + [r];
      }
      assert unique[..|unique|] == unique;
    }

    /** Cache first, then the batched lookup, then one by one: known deployments
        are added, undecidable ones left out of this pass. */
    method CheckDeployed(unknown: seq<Address>, ans: Answers) returns (indeterminate: set<Address>)
      modifies this`deployed
      ensures deployed == old(deployed) + set a | a in unknown && Exists(ans, a)
      ensures indeterminate == set a | a in unknown && ans.batch.None? && a !in ans.single
    {
      indeterminate := {};
      for i := 0 to |unknown|
        invariant deployed == old(deployed) + set a | a in unknown[..i] && Exists(ans, a)
        invariant indeterminate == set a | a in unknown[..i] && ans.batch.None? && a !in ans.single
      {
        assert unknown[..i + 1] == unknown[..i] + [unknown[i]];
        var a := unknown[i];
        if Exists(ans, a) {
          deployed := deployed + {a};
        } else if ans.batch.None? && a !in ans.single {
          indeterminate := indeterminate + {a};
        }
      }
      assert unknown[..|unknown|] == unknown;
    }

    /** Cache first, the rest looked up: afterwards what the pass goes by agrees
        with the chain. */
    method Prepare(w: World, candidates: seq<Address>, ans: Answers)
      returns (unique: seq<Address>, indeterminate: set<Address>)
      requires Truthful(w, ans) && deployed <= w.clones.Keys
      modifies this`deployed
      ensures StrictlyAscending(unique) && NoRepeats(unique) && deployed <= w.clones.Keys
      ensures forall r :: r in unique <==> r in candidates && NotRuledOut(ans, r)
      ensures forall r :: r in unique ==> Agrees(Known(merchantMap, webhookMap, deployed, indeterminate), w, r)
      ensures forall r :: r in unique ==> (r in indeterminate <==> !Decided(old(deployed), ans, r))
      ensures deployed == old(deployed) + Found(Listed(candidates), ans)
    {
      unique := SortDedup(candidates);
      if ans.nonzero.Some? {
        KeepAscends(unique, ans.nonzero.value);
        unique := Keep(unique, ans.nonzero.value);
      }
      AscendingDistinct(unique);
      var unknown := Without(unique, deployed);
      indeterminate := CheckDeployed(unknown, ans);
    }

    /** Where the worker stands on a given chain. */
    function Now(w: World): Moment
      reads this
    {
      Moment(w, merchantMap, webhookMap, deployed)
    }

    /** Balance filter, deployment check, batch, send. */
    method SweepEvmReceivers(c: Contracts, w: World, candidates: seq<Address>, ans: Answers)
      returns (sent: bool, w': World, calls: seq<Call3>, ghost p: Pass)
      requires Announced(c, merchantMap) && Truthful(w, ans) && deployed <= w.clones.Keys
      modifies this`deployed
      ensures Passes(c, old(Now(w)), Listed(candidates), ans, p, Now(w')) && sent == p.sent && calls == p.calls
      ensures deployed <= w'.clones.Keys <==>
        !Misread(c, merchantMap, p.calls, p.taken, p.pending, Arrival(c, w, ans), ans)
    {
      var unique, indeterminate := Prepare(w, candidates, ans);
      var pending;
      ghost var taken;
      calls, pending, taken := BuildBatch(c, unique, indeterminate);
      w' := Sent(c, w, ans, calls);
      ghost var k := Known(merchantMap, webhookMap, deployed, indeterminate);
      BatchSafe(c, k, unique, w, ans);
      BatchTakes(c, k, unique, w, old(deployed), ans, Listed(candidates));
      PlanCompiles(c, k, unique);
      sent := Receipt(c, w, ans, calls);
      p := Pass(calls, taken, pending, sent);
      if sent {
        deployed := deployed + set r | r in pending;
      }
    }

    /** The balance backstop: every known receiver is a candidate. Smooth and not
        blocked, it empties each that can be swept, but for those paid late. */
    method Reconcile(c: Contracts, w: World, ans: Answers) returns (sent: bool, w': World, calls: seq<Call3>, ghost p: Pass)
      requires Announced(c, merchantMap) && Truthful(w, ans) && deployed <= w.clones.Keys
      modifies this`deployed
      ensures Passes(c, old(Now(w)), merchantMap.Keys, ans, p, Now(w')) && sent == p.sent && calls == p.calls
      ensures deployed <= w'.clones.Keys <==>
        !Misread(c, merchantMap, p.calls, p.taken, p.pending, Arrival(c, w, ans), ans)
      ensures Smooth(ans) && !Blocked(c, merchantMap, p.taken, p.pending, w) ==>
        forall r :: Sweepable(w, merchantMap, r) ==>
          (Get(w'.balance, r) == 0 <==> !PaidLate(c, merchantMap, w, p.taken, r))
      ensures Smooth(ans) && Blocked(c, merchantMap, p.taken, p.pending, w) ==> w' == w
    {
      var all := Keys(merchantMap);
      assert Listed(all) == merchantMap.Keys;
      sent, w', calls, p := SweepEvmReceivers(c, w, all, ans);
      if Smooth(ans) {
        BatchEmpties(c, old(Now(w)), merchantMap.Keys, ans, p, Now(w'));
      }
    }

    /** What the worker may rely on between passes. */
    ghost predicate Sound(c: Contracts, w: World, learned: seq<Receiver>)
      reads this
    {
      && merchantMap == RememberAll(map[], learned) && Genuine(c, learned)
      && deployed <= w.clones.Keys && Conserved(c, w)
    }

    /** Registry events come in. */
    method Learn(recs: seq<Receiver>, hooks: map<string, string>)
      modifies this`merchantMap, this`webhookMap
      ensures merchantMap == RememberAll(old(merchantMap), recs) && webhookMap == old(webhookMap) + hooks
    {
      webhookMap := webhookMap + hooks;
      for i := 0 to |recs|
        invariant merchantMap == RememberAll(old(merchantMap), recs[..i]) && webhookMap == old(webhookMap) + hooks
      {
        assert recs[..i + 1][..i] == recs[..i];
        merchantMap := Remember(merchantMap, recs[i]);
      }
      assert recs[..|recs|] == recs;
    }

    /** One step. `trusted` turns false when a receipt came for a batch that
        reverted: the one thing the worker misreads. */
    method Act(c: Contracts, w: World, step: Step, ghost learned: seq<Receiver>)
      returns (w': World, trusted: bool, ghost learned': seq<Receiver>)
      requires CollisionFree(c) && Sound(c, w, learned) && FromRegistry(c, step)
      modifies this
      ensures Stepped(c, old(Now(w)), step, Now(w'))
      ensures trusted ==> Sound(c, w', learned')
      ensures Conserved(c, w') && Grows(w, w')
      ensures forall a :: Get(w'.deposited, a) == Get(w.deposited, a) + Paid(step, a)
      ensures Candid(step) ==> trusted
    {
      w', trusted, learned' := w, true, learned;
      GenuineFold(c, learned);
      match step
      case Happens(o) =>
        w' := Happen(c, w, o);
        HappensKeeps(c, w, o);
      case Learns(recs, hooks) =>
        Learn(recs, hooks);
        RememberAppend(map[], learned, recs);
        learned' := learned + recs;
      case Restarts(recs, hooks) =>
        merchantMap, webhookMap, deployed := RememberAll(map[], recs), hooks, {};
        learned' := recs;
      case Sweeps(candidates, faults) =>
        var sent, calls;
        ghost var p;
        sent, w', calls, p := SweepEvmReceivers(c, w, candidates, Answered(w, faults));
        trusted := !(sent && Reverted(c, w, Answered(w, faults), calls));
        SentKeeps(c, w, Answered(w, faults), calls);
      case Reconciles(faults) =>
        var sent, calls;
        ghost var p;
        sent, w', calls, p := Reconcile(c, w, Answered(w, faults));
        trusted := !(sent && Reverted(c, w, Answered(w, faults), calls));
        SentKeeps(c, w, Answered(w, faults), calls);
    }

    /** Over every run of payments, registrations, registry events, restarts and
        passes that fail in any way: every moment follows from the one before by its
        step; every account holds what it held, what came in and what the sweeps of
        the run paid it, less what they took; and the worker never believes in a
        receiver that is not deployed, as long as a receipt means success. A run is
        followed up to the first receipt that does not. */
    method Run(c: Contracts, w0: World, steps: seq<Step>)
      returns (w: World, trusted: bool, done: nat, ghost trail: seq<Moment>)
      requires CollisionFree(c) && Conserved(c, w0)
      requires merchantMap == map[] && deployed == {}
      requires forall step :: step in steps ==> FromRegistry(c, step)
      modifies this
      ensures done <= |steps| && (trusted ==> done == |steps|)
      ensures Trail(c, steps[..done], trail) && trail[0] == old(Now(w0)) && trail[done] == Now(w)
      ensures Grows(w0, w)
      ensures
        var more := w.log[|w0.log|..];
        forall a :: Get(w.balance, a) + TakenFrom(more, a)
          == Get(w0.balance, a) + PaidAll(steps[..done], a) + PaidTo(c, more, a)
      ensures trusted ==> deployed <= w.clones.Keys && Announced(c, merchantMap)
      ensures (forall step :: step in steps ==> Candid(step)) ==> trusted
    {
      w, trusted, done, trail := w0, true, 0, [Now(w0)];
      ghost var learned: seq<Receiver> := [];
      for i := 0 to |steps|
        invariant done == i && trusted
        invariant Sound(c, w, learned) && Grows(w0, w)
        invariant Trail(c, steps[..i], trail) && trail[0] == old(Now(w0)) && trail[i] == Now(w)
        invariant forall a :: Get(w.deposited, a) == Get(w0.deposited, a) + PaidAll(steps[..i], a)
      {
        assert steps[..i + 1][..i] == steps[..i];
        ghost var was := w;
        w, trusted, learned := Act(c, w, steps[i], learned);
        TrailNext(c, steps[..i], trail, steps[i], Now(w));
        assert steps[..i + 1] == steps[..i] + [steps[i]];
        trail := trail + [Now(w)];
        GrowsOn(w0, was, w);
        done := i + 1;
        if !trusted {
          RunBalances(c, w0, w, steps[..done]);
          return;
        }
      }
      RunBalances(c, w0, w, steps[..done]);
      GenuineFold(c, learned);
    }
  }
}
