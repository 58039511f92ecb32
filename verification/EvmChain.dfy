/** The chain a batch of calls runs on: the factory, its receivers, the webhook
    registry, the token, and what others do meanwhile. */
module EvmChain {
  import opened Wrappers
  import opened Positional
  import opened Hex
  import opened EvmRegistry

  datatype Payload =
    | SetWebhookUrl(merchant: Address, url: string)
    | RegisterMerchant(merchant: Address, route: Route)
    | SweepReceiver

  datatype Call3 = Call3(target: Address, allowFailure: bool, call: Payload)

  const MAX_RECEIVERS_PER_MERCHANT: nat := 32
  const FEE_BPS: nat := 50
  const CALLER_SHARE_BPS: nat := 1_000
  const BPS_DENOM: nat := 10_000

  function ZeroAddress(): Address {
    [0, 0, 0, 0, 0, 0, 0, 0, 0, 0, 0, 0, 0, 0, 0, 0, 0, 0, 0, 0]
  }

  /** The contracts, and the account the worker sends from. `predict` says where
      the receiver of a route the factory accepts lands; `ready`, whether the
      factory's token, treasury and messenger are set; `jammed`, which receivers
      cannot move which amounts, because the token or the bridge refuses. */
  datatype Contracts = Contracts(
    factory: Address, webhookRegistry: Address, multicall: Address, keeper: Address, treasury: Address,
    predict: imap<(Address, Route), Address>, ready: bool, jammed: iset<(Address, nat)>)

  /** Different (merchant, route) pairs get different receivers. */
  ghost predicate CollisionFree(c: Contracts) {
    forall m, t, m', t' :: (m, t) in c.predict && (m', t') in c.predict && c.predict[(m, t)] == c.predict[(m', t')] ==>
      m == m' && t == t'
  }

  /** What a receiver was initialized with, for good. */
  datatype Clone = Clone(merchant: Address, route: Route)

  /** A sweep that moved something: of what, for whom it was set up, who paid for
      the transaction, and how much there was. */
  datatype Sweep = Sweep(receiver: Address, clone: Clone, origin: Address, amount: nat)

  /** `count` is how many receivers the factory has registered per merchant,
      `log` every sweep so far. */
  datatype World = World(
    clones: map<Address, Clone>,
    count: map<Address, nat>,
    deposited: map<Address, nat>,
    balance: map<Address, nat>,
    log: seq<Sweep>,
    hooks: map<Address, string>)

  function Get(m: map<Address, nat>, a: Address): nat {
    if a in m then m[a] else 0
  }

  // ---- what a sweep pays to whom ---------------------------------------------

  /** Half a percent, rounded down. */
  function Fee(amount: nat): (f: nat)
    ensures f <= amount && (amount > 0 ==> f < amount)
    ensures 200 * f <= amount < 200 * (f + 1)
  {
    amount * FEE_BPS / BPS_DENOM
  }

  /** The part of the fee that goes to whoever paid for the transaction: a tenth. */
  function CallerShare(amount: nat): (s: nat)
    ensures s <= Fee(amount)
    ensures 10 * s <= Fee(amount) < 10 * (s + 1)
  {
    Fee(amount) * CALLER_SHARE_BPS / BPS_DENOM
  }

  predicate SameChain(route: Route) {
    forall i :: 0 <= i < 32 ==> route.recipient[i] == 0
  }

  /** What one account gets out of a sweep: a share of the fee, the rest of it, and
      the net amount when it is settled on this chain, to the merchant. */
  function Credit(c: Contracts, clone: Clone, origin: Address, amount: nat, a: Address): nat {
    (if a == origin then CallerShare(amount) else 0)
    + (if a == c.treasury then Fee(amount) - CallerShare(amount) else 0)
    + (if SameChain(clone.route) && a == clone.merchant then amount - Fee(amount) else 0)
  }

  function Plus(m: map<Address, nat>, a: Address, n: nat): map<Address, nat> {
    m[a := Get(m, a) + n]
  }

  function PaidOut(c: Contracts, m: map<Address, nat>, s: Sweep): map<Address, nat> {
    var fees := Plus(Plus(m[s.receiver := 0], s.origin, CallerShare(s.amount)), c.treasury, Fee(s.amount) - CallerShare(s.amount));
    if SameChain(s.clone.route) then Plus(fees, s.clone.merchant, s.amount - Fee(s.amount)) else fees
  }

  lemma PaidOutAt(c: Contracts, m: map<Address, nat>, s: Sweep, a: Address)
    ensures Get(PaidOut(c, m, s), a) ==
      (if a == s.receiver then 0 else Get(m, a)) + Credit(c, s.clone, s.origin, s.amount, a)
  {
  }

  // ---- calls -------------------------------------------------------------------

  /** What the factory refuses, now and ever after. */
  predicate Refused(c: Contracts, w: World, m: Address, route: Route) {
    || (m, route) !in c.predict || c.predict[(m, route)] in w.clones
    || Get(w.count, m) >= MAX_RECEIVERS_PER_MERCHANT || m == ZeroAddress() || !c.ready
  }

  predicate Jammed(c: Contracts, r: Address, amount: nat) {
    amount > 0 && (r, amount) in c.jammed
  }

  /** Calling an address without code does nothing, sweeping an empty receiver
      does nothing either. */
  function SweepBy(c: Contracts, w: World, origin: Address, r: Address): Option<World> {
    var amount := Get(w.balance, r);
    if r !in w.clones || amount == 0 then Some(w)
    else if Jammed(c, r, amount) then None
    else
      var s := Sweep(r, w.clones[r], origin, amount);
      Some(w.(balance := PaidOut(c, w.balance, s), log := w.log + [s]))
  }

  /** Calls as the multicall contract makes them for the worker. Registering deploys
      once and counts; the webhook registry wants the named merchant registered, and
      changes the entry of whoever calls. */
  function Execute(c: Contracts, w: World, call: Call3): Option<World> {
    match call.call
    case SetWebhookUrl(m, url) =>
      if call.target != c.webhookRegistry || Get(w.count, m) == 0 then None
      else Some(w.(hooks := w.hooks[c.multicall := url]))
    case RegisterMerchant(m, route) =>
      if call.target != c.factory || Refused(c, w, m, route) then None
      else Some(w.(clones := w.clones[c.predict[(m, route)] := Clone(m, route)], count := Plus(w.count, m, 1)))
    case SweepReceiver => SweepBy(c, w, c.keeper, call.target)
  }

  /** `aggregate3`: a failing call undoes the batch unless it is allowed to fail. */
  function Aggregate(c: Contracts, w: World, calls: seq<Call3>): Option<World> {
    if calls == [] then Some(w)
    else
      match Aggregate(c, w, calls[..|calls| - 1])
      case None => None
      case Some(w1) =>
        var last := calls[|calls| - 1];
        var w2 := Execute(c, w1, last);
        if w2.None? && last.allowFailure then Some(w1) else w2
  }

  lemma {:induction false} AggregateAppend(c: Contracts, w: World, a: seq<Call3>, b: seq<Call3>)
    ensures Aggregate(c, w, a + b) ==
      match Aggregate(c, w, a) case None => None case Some(w1) => Aggregate(c, w1, b)
  {
    if b == [] {
      assert a + b == a;
    } else {
      assert (a + b)[..|a + b| - 1] == a + b[..|b| - 1];
      AggregateAppend(c, w, a, b[..|b| - 1]);
    }
  }

  lemma OneCall(c: Contracts, w: World, call: Call3)
    ensures Aggregate(c, w, [call]) ==
      var o := Execute(c, w, call); if o.None? && call.allowFailure then Some(w) else o
  {
    assert [call][..0] == [];
  }

  function RegisterCall(c: Contracts, m: Address, route: Route): Call3 {
    Call3(c.factory, false, RegisterMerchant(m, route))
  }

  function SweepCall(r: Address): Call3 {
    Call3(r, false, SweepReceiver)
  }

  // ---- nothing is lost ---------------------------------------------------------

  /** What sweeps took from an account, and what they paid to it. */
  function TakenFrom(log: seq<Sweep>, a: Address): nat {
    if log == [] then 0
    else
      var s := log[|log| - 1];
      TakenFrom(log[..|log| - 1], a) + if s.receiver == a then s.amount else 0
  }

  function PaidTo(c: Contracts, log: seq<Sweep>, a: Address): nat {
    if log == [] then 0
    else
      var s := log[|log| - 1];
      PaidTo(c, log[..|log| - 1], a) + Credit(c, s.clone, s.origin, s.amount, a)
  }

  lemma {:induction false} LogAppend(c: Contracts, x: seq<Sweep>, y: seq<Sweep>, a: Address)
    ensures TakenFrom(x + y, a) == TakenFrom(x, a) + TakenFrom(y, a)
    ensures PaidTo(c, x + y, a) == PaidTo(c, x, a) + PaidTo(c, y, a)
  {
    if y == [] {
      assert x + y == x;
    } else {
      assert (x + y)[..|x + y| - 1] == x + y[..|y| - 1];
      LogAppend(c, x, y[..|y| - 1], a);
    }
  }

  /** An account holds what came in and what sweeps paid it, less what sweeps took. */
  ghost predicate ConservedAt(c: Contracts, w: World, a: Address) {
    Get(w.balance, a) + TakenFrom(w.log, a) == Get(w.deposited, a) + PaidTo(c, w.log, a)
  }

  ghost predicate Conserved(c: Contracts, w: World) {
    forall a :: ConservedAt(c, w, a)
  }

  /** Receivers stay, and stay what they are; the log only grows. */
  ghost predicate Grows(w: World, w': World) {
    && w.clones.Keys <= w'.clones.Keys && (forall a :: a in w.clones ==> w'.clones[a] == w.clones[a])
    && w.log <= w'.log
  }

  lemma SweepConserves(c: Contracts, w: World, origin: Address, r: Address)
    requires Conserved(c, w)
    ensures
      var o := SweepBy(c, w, origin, r);
      o.Some? ==> Conserved(c, o.value) && o.value.deposited == w.deposited && Grows(w, o.value)
  {
    var o := SweepBy(c, w, origin, r);
    if o.Some? && o.value != w {
      var s := Sweep(r, w.clones[r], origin, Get(w.balance, r));
      assert (w.log + [s])[..|w.log|] == w.log;
      forall a ensures ConservedAt(c, o.value, a) {
        assert ConservedAt(c, w, a);
        PaidOutAt(c, w.balance, s, a);
      }
    }
  }

  lemma SameMoney(c: Contracts, w: World, w': World)
    requires Conserved(c, w) && w'.balance == w.balance && w'.log == w.log && w'.deposited == w.deposited
    ensures Conserved(c, w')
  {
    forall a ensures ConservedAt(c, w', a) {
      assert ConservedAt(c, w, a);
    }
  }

  lemma ExecuteConserves(c: Contracts, w: World, call: Call3)
    requires Conserved(c, w)
    ensures
      var o := Execute(c, w, call);
      o.Some? ==> Conserved(c, o.value) && o.value.deposited == w.deposited && Grows(w, o.value)
  {
    var o := Execute(c, w, call);
    if call.call.SweepReceiver? {
      SweepConserves(c, w, c.keeper, call.target);
    } else if o.Some? {
      SameMoney(c, w, o.value);
    }
  }

  lemma GrowsOn(a: World, b: World, d: World)
    requires Grows(a, b) && Grows(b, d)
    ensures Grows(a, d)
  {
  }

  /** Whatever a batch does, every account still holds what came in and was paid to
      it, less what was taken. */
  lemma {:induction false} AggregateConserves(c: Contracts, w: World, calls: seq<Call3>)
    requires Conserved(c, w)
    ensures
      var o := Aggregate(c, w, calls);
      o.Some? ==> Conserved(c, o.value) && o.value.deposited == w.deposited && Grows(w, o.value)
  {
    if calls != [] {
      var before := calls[..|calls| - 1];
      AggregateConserves(c, w, before);
      if Aggregate(c, w, before).Some? {
        var w1 := Aggregate(c, w, before).value;
        ExecuteConserves(c, w1, calls[|calls| - 1]);
        if Aggregate(c, w, calls).Some? {
          GrowsOn(w, w1, Aggregate(c, w, calls).value);
        }
      }
    }
  }

  // ---- what others do ------------------------------------------------------------

  /** What the world does on its own; registering and sweeping are open to all. */
  datatype Outside =
    | TokensArrive(receiver: Address, amount: nat)
    | SomeoneRegisters(merchant: Address, route: Route)
    | SomeoneSweeps(receiver: Address, origin: Address)

  function Happen(c: Contracts, w: World, o: Outside): World {
    match o
    case TokensArrive(a, n) => w.(balance := Plus(w.balance, a, n), deposited := Plus(w.deposited, a, n))
    case SomeoneRegisters(m, route) =>
      var r := Execute(c, w, RegisterCall(c, m, route));
      if r.Some? then r.value else w
    case SomeoneSweeps(a, origin) =>
      var r := SweepBy(c, w, origin, a);
      if r.Some? then r.value else w
  }

  function HappenAll(c: Contracts, w: World, os: seq<Outside>): World {
    if os == [] then w else Happen(c, HappenAll(c, w, os[..|os| - 1]), os[|os| - 1])
  }

  /** What came in for one account. */
  function Arrived(os: seq<Outside>, a: Address): nat {
    if os == [] then 0
    else
      Arrived(os[..|os| - 1], a)
      + match os[|os| - 1] case TokensArrive(r, n) => (if r == a then n else 0) case _ => 0
  }

  lemma HappenKeepsOne(c: Contracts, w: World, o: Outside)
    ensures Grows(w, Happen(c, w, o))
    ensures Conserved(c, w) ==> Conserved(c, Happen(c, w, o))
  {
    if Conserved(c, w) {
      match o
      case TokensArrive(r, n) =>
        forall a ensures ConservedAt(c, Happen(c, w, o), a) {
          assert ConservedAt(c, w, a);
        }
      case SomeoneRegisters(m, route) => ExecuteConserves(c, w, RegisterCall(c, m, route));
      case SomeoneSweeps(r, origin) => SweepConserves(c, w, origin, r);
    }
  }

  lemma {:induction false} HappenKeeps(c: Contracts, w: World, os: seq<Outside>)
    ensures Grows(w, HappenAll(c, w, os))
    ensures Conserved(c, w) ==> Conserved(c, HappenAll(c, w, os))
  {
    if os != [] {
      var w1 := HappenAll(c, w, os[..|os| - 1]);
      HappenKeeps(c, w, os[..|os| - 1]);
      HappenKeepsOne(c, w1, os[|os| - 1]);
      GrowsOn(w, w1, HappenAll(c, w, os));
    }
  }

  lemma {:induction false} HappenPays(c: Contracts, w: World, os: seq<Outside>, a: Address)
    ensures Get(HappenAll(c, w, os).deposited, a) == Get(w.deposited, a) + Arrived(os, a)
  {
    if os != [] {
      HappenPays(c, w, os[..|os| - 1], a);
    }
  }

  // ---- calls that never work -------------------------------------------------------

  lemma {:induction false} RefusedStays(c: Contracts, w: World, calls: seq<Call3>, m: Address, route: Route)
    requires Refused(c, w, m, route) && Aggregate(c, w, calls).Some?
    ensures Refused(c, Aggregate(c, w, calls).value, m, route)
  {
    if calls != [] {
      RefusedStays(c, w, calls[..|calls| - 1], m, route);
    }
  }

  /** A registration the factory refuses takes the whole batch down. */
  lemma {:induction false} RefusedReverts(c: Contracts, w: World, calls: seq<Call3>, m: Address, route: Route)
    requires RegisterCall(c, m, route) in calls && Refused(c, w, m, route)
    ensures Aggregate(c, w, calls).None?
  {
    var n := |calls| - 1;
    var before := calls[..n];
    if calls[n] == RegisterCall(c, m, route) {
      if Aggregate(c, w, before).Some? {
        RefusedStays(c, w, before, m, route);
      }
    } else {
      assert RegisterCall(c, m, route) in before;
      RefusedReverts(c, w, before, m, route);
    }
  }

  predicate Registers(c: Contracts, call: Call3, r: Address) {
    match call.call
    case RegisterMerchant(m, route) => (m, route) in c.predict && c.predict[(m, route)] == r
    case _ => false
  }

  /** What no call registers stays without code, and keeps what it has. */
  lemma {:induction false} Untouched(c: Contracts, w: World, calls: seq<Call3>, r: Address)
    requires r !in w.clones && (forall call :: call in calls ==> !Registers(c, call, r)) && Aggregate(c, w, calls).Some?
    ensures
      var w' := Aggregate(c, w, calls).value;
      r !in w'.clones && Get(w'.balance, r) >= Get(w.balance, r)
  {
    if calls != [] {
      var n := |calls| - 1;
      assert forall call :: call in calls[..n] ==> call in calls;
      Untouched(c, w, calls[..n], r);
      assert !Registers(c, calls[n], r);
      UntouchedOne(c, Aggregate(c, w, calls[..n]).value, calls[n], r);
    }
  }

  lemma UntouchedOne(c: Contracts, w: World, call: Call3, r: Address)
    requires r !in w.clones && !Registers(c, call, r)
    ensures
      var o := Execute(c, w, call);
      o.Some? ==> r !in o.value.clones && Get(o.value.balance, r) >= Get(w.balance, r)
  {
    if call.call.SweepReceiver? && call.target in w.clones {
      PaidOutAt(c, w.balance, Sweep(call.target, w.clones[call.target], c.keeper, Get(w.balance, call.target)), r);
    }
  }

  /** Whatever a batch says about webhooks, no merchant's entry changes: the
      registry books them under the contract that calls it. */
  lemma {:induction false} HooksUntouched(c: Contracts, w: World, calls: seq<Call3>, m: Address)
    requires m != c.multicall && Aggregate(c, w, calls).Some?
    ensures
      var w' := Aggregate(c, w, calls).value;
      (m in w'.hooks <==> m in w.hooks) && (m in w.hooks ==> w'.hooks[m] == w.hooks[m])
  {
    if calls != [] {
      HooksUntouched(c, w, calls[..|calls| - 1], m);
    }
  }
}
