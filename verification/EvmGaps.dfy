/** Two runs of the live EVM worker in which a payment is marked scanned and
    nobody acts on it. */
module EvmGaps {
  import opened Wrappers
  import opened Positional
  import opened Hex
  import opened Scanning
  import opened Portal
  import opened EvmRegistry
  import opened EvmIndexer
  import opened EvmDeposits
  import opened EvmWorker
  import opened EvmFilters
  import LogCache

  function Addr(v: byte): Address {
    seq(20, _ => v)
  }

  function Word(v: byte): Bytes32 {
    seq(32, _ => v)
  }

  const FACTORY: Address := Addr(1)
  const HOOKS: Address := Addr(2)
  const TOKEN: Address := Addr(3)
  const ANNOUNCED: Bytes32 := Word(2)
  const TRANSFER: Bytes32 := Word(4)

  const CFG: Config := Config("base", FACTORY, HOOKS, TOKEN, 0, 0, 0, Word(1), ANNOUNCED, Word(3), TRANSFER, imap[])

  /** An announcement of receiver `r`, and a payment of one unit to it. */
  function Announce(r: Address): Log {
    Log(FACTORY, [ANNOUNCED, AddressTopic(Addr(9)), AddressTopic(r)], seq(64, _ => 0), [])
  }

  function Pay(r: Address): Log {
    Log(TOKEN, [TRANSFER, AddressTopic(Addr(8)), AddressTopic(r)], seq(32, i => if i == 31 then 1 else 0), [])
  }

  function Both(r: Address): seq<Log> {
    [Announce(r), Pay(r)]
  }

  // ---- what the logs say ---------------------------------------------------------

  lemma Differ()
    ensures FACTORY != TOKEN && HOOKS != TOKEN && TRANSFER != ANNOUNCED && ANNOUNCED != Word(1)
  {
    assert FACTORY[0] == 1 && HOOKS[0] == 2 && TOKEN[0] == 3;
    assert TRANSFER[0] == 4 && ANNOUNCED[0] == 2 && Word(1)[0] == 1;
  }

  lemma PickTwo(f: LogFilter, a: Log, b: Log)
    ensures f.Pick([a, b]) == (if f.Selects(a) then [a] else []) + (if f.Selects(b) then [b] else [])
  {
    assert [a, b][..1] == [a] && [a][..0] == [];
    assert f.Pick([]) == [];
    assert f.Pick([a]) == if f.Selects(a) then [a] else [];
  }

  lemma RegistryPick(r: Address)
    ensures RegistryFilter(CFG).Pick(Both(r)) == [Announce(r)] == RegistryFilter(CFG).Pick([Announce(r)])
  {
    Differ();
    assert [Announce(r)][..0] == [];
    assert RegistryFilter(CFG).Pick([]) == [];
    PickTwo(RegistryFilter(CFG), Announce(r), Pay(r));
  }

  lemma AnnounceSays(r: Address)
    ensures exists rec: Receiver :: rec.receiver == r && ReceiverIn(CFG, Announce(r)) == [rec]
  {
    Differ();
    TopicRoundTrip(r);
    TopicRoundTrip(Addr(9));
    var log := Announce(r);
    assert log.topics[0] == ANNOUNCED && log.topics[0] != CFG.registeredTopic;
    var rec := Receiver(Addr(9), r, Some(Route(log.data[0..32], log.data[32..64])));
    assert ReadLog(CFG, log) == Some(ReceiverSeen(rec));
  }

  lemma AnnounceNames(block: nat, r: Address)
    ensures Named(Receivers(CFG, Tag(block, [Announce(r)]))) == {r}
  {
    AnnounceSays(r);
    var rec: Receiver :| rec.receiver == r && ReceiverIn(CFG, Announce(r)) == [rec];
    TagOne(block, Announce(r));
    ReceiversOne(Sighting(block, Announce(r)));
    NamedOne(rec);
  }

  /** A block that announces one receiver names exactly that one. */
  lemma BlockNames(env: Env, time: nat, block: nat, r: Address)
    requires RegistryFilter(CFG).Pick(env.Logs(time, block)) == [Announce(r)]
    ensures NamedAt(env, CFG, time, block) == {r}
  {
    AnnounceNames(block, r);
    NamedByLook(env, CFG, block, Look(time, RegistryFilter(CFG)));
  }

  lemma TagOne(block: nat, log: Log)
    ensures Tag(block, [log]) == [Sighting(block, log)]
  {
    assert [log][..0] == [];
  }

  lemma ReceiversOne(s: Sighting)
    ensures Receivers(CFG, [s]) == ReceiverIn(CFG, s.log)
  {
    assert [s][..0] == [];
  }

  lemma NamedOne(rec: Receiver)
    ensures Named([rec]) == {rec.receiver}
  {
    assert [rec][..0] == [];
  }

  /** ... and pays it one unit, and nobody else. */
  lemma BlockPays(r: Address)
    ensures Paid(CFG, Both(r), r) == 1
  {
    Differ();
    TopicRoundTrip(Addr(8));
    var a, b := Announce(r), Pay(r);
    OneUnit(b.data);
    assert Paid(CFG, [], r) == 0 && !IsPayment(CFG, a, r) && IsPayment(CFG, b, r);
    assert [a][..0] == [] && Paid(CFG, [a], r) == 0;
    assert Both(r)[..1] == [a] && Both(r)[1] == b;
  }

  lemma OneUnit(d: seq<byte>)
    requires |d| == 32 && d[31] == 1 && forall i :: 0 <= i < 31 ==> d[i] == 0
    ensures Value(256, d[..32]) == 1
  {
    assert d[..32] == d && d[..|d| - 1] == d[..31];
    ZeroValue(d[..31]);
    assert Value(256, d) == Value(256, d[..31]) * 256 + 1;
  }

  lemma {:induction false} ZeroValue(d: seq<nat>)
    requires forall i :: 0 <= i < |d| ==> d[i] == 0
    ensures Value(256, d) == 0
  {
    if d != [] {
      ZeroValue(d[..|d| - 1]);
    }
  }

  // ---- the chain, the Portal, the disk -------------------------------------------

  /** Two blocks; the second arrives at time ten. Every request for one of them
      is answered, except that nothing is there for the registry in the second.
      The disk refuses writes at time three when it is `full`. */
  ghost function Setting(first: seq<Log>, second: seq<Log>, full: bool): Env {
    Env(
      imap k: (nat, nat) | Held(k) :: if k.1 == 0 then first else second,
      imap t: nat | Late(t) :: 1,
      imap k: (nat, LogFilter, nat, nat) | Answered(k) :: Lines([BlockLine(k.2, k.1.Pick(if k.2 == 0 then first else second))]),
      if full then iset{3} else iset{},
      iset{},
      imap[])
  }

  ghost predicate Held(k: (nat, nat)) {
    k.1 <= 1
  }

  ghost predicate Late(t: nat) {
    t >= 10
  }

  ghost predicate Answered(k: (nat, LogFilter, nat, nat)) {
    k.2 == k.3 && (k.2 == 0 || (k.2 == 1 && Late(k.0) && k.1 != RegistryFilter(CFG)))
  }

  lemma SettingHonest(first: seq<Log>, second: seq<Log>, full: bool, t: nat, f: LogFilter, lo: nat, hi: nat)
    requires lo <= hi
    ensures Honest(Setting(first, second, full), t, f, lo, hi)
  {
    var env := Setting(first, second, full);
    if Answered((t, f, lo, hi)) {
      var line := BlockLine(lo, f.Pick(env.Logs(t, lo)));
      assert env.Answer(t, f, lo, hi) == Lines([line]);
      assert FirstOf(lo, [line], 0) == lo;
      assert Exact(env, t, f, lo, [line], 0);
    } else {
      assert env.Answer(t, f, lo, hi) == NoContent;
    }
  }

  lemma SettingSane(first: seq<Log>, second: seq<Log>, full: bool)
    ensures Sane(Setting(first, second, full))
  {
    var env := Setting(first, second, full);
    forall t: nat, f, lo: nat, hi: nat | lo <= hi ensures Honest(env, t, f, lo, hi) {
      SettingHonest(first, second, full, t, f, lo, hi);
    }
    forall t: nat, t': nat | t <= t' ensures Calm(env, t, t') {
      assert env.Head(t) <= 1;
    }
  }

  // ---- a start whose closing flush fails -----------------------------------------

  /** One block was looked at for the registry. */
  lemma OneLook(env: Env, time: nat, r: Address)
    requires RegistryFilter(CFG).Pick(env.Logs(time, 0)) == [Announce(r)]
    ensures NamedIn(env, CFG, [Look(time, RegistryFilter(CFG))]) == {r}
  {
    var look := Look(time, RegistryFilter(CFG));
    BlockNames(env, time, 0, r);
    ScanNamesNone(env, CFG, 0);
    ScanNamesNext(env, CFG, 0, [], 0, look);
    assert [] + [look] == [look];
  }

  lemma OnePaid(env: Env, looks: seq<Look>, block: nat, r: Address)
    requires |looks| == 1 && env.Logs(looks[0].time, block) == Both(r)
    ensures ChainPaid(env, CFG, block, looks, r) == 1
  {
    BlockPays(r);
    assert looks[..0] == [];
  }

  ghost function Registry(time: nat): seq<Look> {
    [Look(time, RegistryFilter(CFG))]
  }

  ghost function Transfers(time: nat, names: set<Address>): seq<Look> {
    [Look(time, TransferFilter(CFG, names))]
  }

  /** Both checkpoints stand at the first block, and no other does. */
  ghost predicate BothScanned(saved: map<string, nat>) {
    && Entry(saved, RegistryScanId(CFG)) == Some(0) && Entry(saved, DepositsScanId(CFG)) == Some(0)
    && OwnCheckpoints(CFG, map[], saved)
  }

  lemma SaveBoth() returns (saved: map<string, nat>)
    ensures BothScanned(saved)
  {
    ScanIdsDiffer(CFG);
    saved := map[RegistryScanId(CFG) := 0, DepositsScanId(CFG) := 0];
  }

  lemma LookedOnce(env: Env, look: Look, looks: seq<Look>, t: nat, t': nat)
    requires looks == [look] && t <= look.time < t'
    ensures Looked(env, 0, looks, look.filter, t, t')
  {
  }

  /** The registry and the block are scanned, both checkpoints are written, and
      the flush behind them fails. */
  lemma FlushFails(env: Env, names: set<Address>, p: Picture, d: Detail)
    requires 3 in env.diskFull && NamedIn(env, CFG, d.more) == names && names != {}
    requires Looked(env, 0, d.more, RegistryFilter(CFG), 0, 3) && |d.more| == 1
    requires Looked(env, 0, d.paid, TransferFilter(CFG, names), 0, 3) && |d.paid| == 1
    requires BothScanned(p.saved) && p.merchants == map[] && p.hooks == map[] && p.looks == []
    requires p.depositLooks == [] + d.paid && p.delivered == [] && p.dropped == [] + Ledger(env, CFG, 0, d.paid)
    ensures Stepped(env, CFG, ProcessStarts(Some(0)), Started(false, 0, None), d, Moment(Blank(), 0), Moment(p, 3))
  {
    TroubleNow(env, RegistryFilter(CFG), true, 0, 3);
  }

  /** The next start goes well, behind the checkpoints. */
  lemma StartsAgain(env: Env, p: Picture, p': Picture, d: Detail)
    requires Looked(env, 0, d.more, RegistryFilter(CFG), 3, 5) && |d.more| == 1 && d.paid == []
    requires BothScanned(p.saved)
    requires p' == p.(merchants := p'.merchants, hooks := p'.hooks, looks := d.more)
    requires Folded(env, CFG, p'.looks, p'.merchants, p'.hooks)
    ensures Stepped(env, CFG, ProcessStarts(Some(0)), Started(true, 0, Some(0)), d, Moment(p, 3), Moment(p', 5))
  {
    assert p.depositLooks + d.paid == p.depositLooks;
    assert Ledger(env, CFG, 1, d.paid) == [];
  }

  lemma OneStep(env: Env, action: Action, h: Happening, d: Detail, m: Moment, m': Moment)
    requires m.picture == Blank() && Stepped(env, CFG, action, h, d, m, m')
    ensures Trail(env, CFG, [action], [h], [d], [m, m'])
  {
  }

  lemma TwoSteps(env: Env, a: Action, g: Happening, c: Detail, b: Action, h: Happening, d: Detail,
                 l: Moment, m: Moment, n: Moment)
    requires Trail(env, CFG, [a], [g], [c], [l, m]) && Stepped(env, CFG, b, h, d, m, n)
    ensures Trail(env, CFG, [a, b], [g, h], [c, d], [l, m, n])
  {
    assert StepAt(env, CFG, [a], [g], [c], [l, m], 0);
    forall i | 0 <= i < 2 ensures StepAt(env, CFG, [a, b], [g, h], [c, d], [l, m, n], i) {
    }
  }

  lemma FlushStep(env: Env, r: Address) returns (d: Detail, p: Picture)
    requires env == Setting(Both(r), [], true)
    ensures Stepped(env, CFG, ProcessStarts(Some(0)), Started(false, 0, None), d, Moment(Blank(), 0), Moment(p, 3))
    ensures BothScanned(p.saved) && p.delivered == [] && ChainPaid(env, CFG, 0, p.depositLooks, r) == 1
  {
    RegistryPick(r);
    OneLook(env, 0, r);
    var saved := SaveBoth();
    d := Detail(Registry(0), Transfers(1, {r}), Blank(), 0);
    LookedOnce(env, Look(0, RegistryFilter(CFG)), d.more, 0, 3);
    LookedOnce(env, Look(1, TransferFilter(CFG, {r})), d.paid, 0, 3);
    p := Picture(map[], map[], saved, [], [] + d.paid, [], [] + Ledger(env, CFG, 0, d.paid));
    FlushFails(env, {r}, p, d);
    OnePaid(env, p.depositLooks, 0, r);
  }

  lemma Refolded(env: Env, p: Picture, looks: seq<Look>) returns (q: Picture)
    ensures q == p.(merchants := q.merchants, hooks := q.hooks, looks := looks)
    ensures Folded(env, CFG, q.looks, q.merchants, q.hooks) && q.merchants.Keys == NamedIn(env, CFG, looks)
  {
    var seen := Scan(Eye(env), 0, looks);
    q := p.(looks := looks, merchants := RememberAll(map[], Receivers(CFG, seen)), hooks := InsertAll(map[], Webhooks(CFG, seen)));
    FoldedKeys(env, CFG, q.looks, q.merchants, q.hooks);
  }

  lemma AgainStep(env: Env, r: Address, p: Picture) returns (d: Detail, q: Picture)
    requires env == Setting(Both(r), [], true) && BothScanned(p.saved)
    ensures Stepped(env, CFG, ProcessStarts(Some(0)), Started(true, 0, Some(0)), d, Moment(p, 3), Moment(q, 5))
    ensures q == p.(merchants := q.merchants, hooks := q.hooks, looks := q.looks) && r in q.merchants
  {
    RegistryPick(r);
    OneLook(env, 3, r);
    d := Detail(Registry(3), [], Blank(), 3);
    LookedOnce(env, Look(3, RegistryFilter(CFG)), d.more, 3, 5);
    q := Refolded(env, p, d.more);
    StartsAgain(env, p, q, d);
  }

  /** A start scans the payment to `r`, saves the checkpoint and fails in the
      flush behind it; the next start goes well. The payment lies below the
      checkpoint, `r` is known, and nobody was ever told. */
  lemma FailedFlush(r: Address) returns (details: seq<Detail>, trail: seq<Moment>)
    ensures
      var env, start := Setting(Both(r), [], true), ProcessStarts(Some(0));
      && Sane(env)
      && Trail(env, CFG, [start, start], [Started(false, 0, None), Started(true, 0, Some(0))], details, trail)
      && var p := trail[2].picture;
         && r in p.merchants && p.delivered == [] && Entry(p.saved, DepositsScanId(CFG)) == Some(0)
         && ChainPaid(env, CFG, 0, p.depositLooks, r) == 1
  {
    var env, start := Setting(Both(r), [], true), ProcessStarts(Some(0));
    SettingSane(Both(r), [], true);
    var d, p := FlushStep(env, r);
    var e, q := AgainStep(env, r, p);
    OneStep(env, start, Started(false, 0, None), d, Moment(Blank(), 0), Moment(p, 3));
    TwoSteps(env, start, Started(false, 0, None), d, start, Started(true, 0, Some(0)), e,
             Moment(Blank(), 0), Moment(p, 3), Moment(q, 5));
    details, trail := [d, e], [Moment(Blank(), 0), Moment(p, 3), Moment(q, 5)];
  }

  // ---- a registry the Portal is silent about -------------------------------------

  /** A start that goes well on an empty disk. */
  lemma StartsWell(env: Env, names: set<Address>, p: Picture, d: Detail)
    requires NamedIn(env, CFG, d.more) == names
    requires Looked(env, 0, d.more, RegistryFilter(CFG), 0, 3) && |d.more| == 1
    requires Looked(env, 0, d.paid, TransferFilter(CFG, names), 0, 3) && |d.paid| == 1 && names != {}
    requires BothScanned(p.saved) && p.looks == d.more && Folded(env, CFG, p.looks, p.merchants, p.hooks)
    requires p.depositLooks == [] + d.paid && p.delivered == [] + Ledger(env, CFG, 0, d.paid) && p.dropped == []
    ensures Stepped(env, CFG, ProcessStarts(Some(0)), Started(true, 0, None), d, Moment(Blank(), 0), Moment(p, 3))
  {
  }

  /** A tip whose registry half finds nothing there, and whose deposit half scans
      the block for the receivers known before. */
  lemma TipOutruns(env: Env, p: Picture, p': Picture, d: Detail)
    requires env.Head(10) == 1 && Silent(env.Answer(10, RegistryFilter(CFG), 1, 1))
    requires BothScanned(p.saved) && p.merchants.Keys != {} && d.more == [] && d.mid == p && d.midTime == 11
    requires Looked(env, 1, d.paid, TransferFilter(CFG, p.merchants.Keys), 11, 13) && |d.paid| == 1
    requires p' == p.(saved := p.saved[DepositsScanId(CFG) := 1], depositLooks := p.depositLooks + d.paid,
                      delivered := p.delivered + Ledger(env, CFG, 1, d.paid))
    ensures Stepped(env, CFG, TipArrives(1, true), TipDone(true, true), d, Moment(p, 10), Moment(p', 13))
  {
    assert Unanswered(env, RegistryFilter(CFG), Request(10, 1, 1, 1), 1);
    assert p.looks + d.more == p.looks;
  }

  lemma ThreeSteps(env: Env, script: seq<Action>, log: seq<Happening>, c: Detail, d: Detail, e: Detail,
                   k: Moment, l: Moment, m: Moment, n: Moment)
    requires |script| == |log| == 3 && k.picture == Blank()
    requires Stepped(env, CFG, script[0], log[0], c, k, l) && Stepped(env, CFG, script[1], log[1], d, l, m)
    requires Stepped(env, CFG, script[2], log[2], e, m, n)
    ensures Trail(env, CFG, script, log, [c, d, e], [k, l, m, n])
  {
    forall i | 0 <= i < 3 ensures StepAt(env, CFG, script, log, [c, d, e], [k, l, m, n], i) {
    }
  }

  lemma WellStep(env: Env, x: Address, r: Address) returns (d: Detail, p: Picture)
    requires env == Setting([Announce(x)], Both(r), false) && x != r
    ensures Stepped(env, CFG, ProcessStarts(Some(0)), Started(true, 0, None), d, Moment(Blank(), 0), Moment(p, 3))
    ensures BothScanned(p.saved) && p.merchants.Keys == {x} && Total(p.delivered, r) == 0
  {
    RegistryPick(x);
    OneLook(env, 0, x);
    var saved := SaveBoth();
    d := Detail(Registry(0), Transfers(1, {x}), Blank(), 0);
    LookedOnce(env, Look(0, RegistryFilter(CFG)), d.more, 0, 3);
    LookedOnce(env, Look(1, TransferFilter(CFG, {x})), d.paid, 0, 3);
    p := Picture(map[], map[], saved, [], [] + d.paid, [] + Ledger(env, CFG, 0, d.paid), []);
    p := Refolded(env, p, d.more);
    StartsWell(env, {x}, p, d);
    LedgerOthers(env, CFG, {x}, 0, d.paid, r);
    assert p.delivered == Ledger(env, CFG, 0, d.paid);
  }

  lemma OutrunStep(env: Env, x: Address, r: Address, p: Picture) returns (d: Detail, q: Picture)
    requires env == Setting([Announce(x)], Both(r), false) && x != r
    requires BothScanned(p.saved) && p.merchants.Keys == {x} && Total(p.delivered, r) == 0
    ensures Stepped(env, CFG, TipArrives(1, true), TipDone(true, true), d, Moment(p, 10), Moment(q, 13))
    ensures d.paid == Transfers(11, {x}) && q.merchants == p.merchants && Total(q.delivered, r) == 0
    ensures Entry(q.saved, DepositsScanId(CFG)) == Some(1)
  {
    d := Detail([], Transfers(11, {x}), p, 11);
    LookedOnce(env, Look(11, TransferFilter(CFG, {x})), d.paid, 11, 13);
    q := p.(saved := p.saved[DepositsScanId(CFG) := 1], depositLooks := p.depositLooks + d.paid,
            delivered := p.delivered + Ledger(env, CFG, 1, d.paid));
    TipOutruns(env, p, q, d);
    LedgerOthers(env, CFG, {x}, 1, d.paid, r);
    TotalAppend(p.delivered, Ledger(env, CFG, 1, d.paid), r);
  }

  lemma BlockRegisters(env: Env, time: nat, block: nat, r: Address)
    requires env.Logs(time, block) == Both(r)
    ensures r in RegisteredBy(env, CFG, time, block) && Paid(CFG, env.Logs(time, block), r) == 1
  {
    RegistryPick(r);
    BlockNames(env, time, block, r);
    var _ := RegisteredHas(env, CFG, time, block, block);
    BlockPays(r);
  }

  const LATE_SCRIPT: seq<Action> := [ProcessStarts(Some(0)), TimePasses(7), TipArrives(1, true)]
  const LATE_LOG: seq<Happening> := [Started(true, 0, None), Waited, TipDone(true, true)]

  lemma LateTrail(env: Env, x: Address, r: Address) returns (details: seq<Detail>, trail: seq<Moment>)
    requires env == Setting([Announce(x)], Both(r), false) && x != r
    ensures Trail(env, CFG, LATE_SCRIPT, LATE_LOG, details, trail)
    ensures
      var p := trail[3].picture;
      p.merchants.Keys == {x} && Total(p.delivered, r) == 0 && Entry(p.saved, DepositsScanId(CFG)) == Some(1)
  {
    var c, p := WellStep(env, x, r);
    var e, q := OutrunStep(env, x, r, p);
    var d := Detail([], [], p, 3);
    ThreeSteps(env, LATE_SCRIPT, LATE_LOG, c, d, e, Moment(Blank(), 0), Moment(p, 3), Moment(p, 10), Moment(q, 13));
    details, trail := [c, d, e], [Moment(Blank(), 0), Moment(p, 3), Moment(p, 10), Moment(q, 13)];
  }

  lemma HealthyRun(log: seq<Happening>)
    requires |log| == 3 && log[0] == Started(true, 0, None) && log[1] == Waited && log[2] == TipDone(true, true)
    ensures Healthy(log)
  {
    assert log[..2][..1] == log[..1];
  }

  /** One block registers `r` and pays it. The Portal shows nothing of it to the
      registry half of the tip and all of it to the deposit half, which looks for
      the receivers known before. Nothing failed; the payment lies below the
      checkpoint, and nobody was ever told. */
  lemma LateReceiver(x: Address, r: Address) returns (details: seq<Detail>, trail: seq<Moment>)
    requires x != r
    ensures
      var env := Setting([Announce(x)], Both(r), false);
      && Sane(env) && Healthy(LATE_LOG) && Trail(env, CFG, LATE_SCRIPT, LATE_LOG, details, trail)
      && r in RegisteredBy(env, CFG, 11, 1) && Paid(CFG, env.Logs(11, 1), r) == 1
      && var p := trail[3].picture;
         p.merchants.Keys == {x} && Total(p.delivered, r) == 0 && Entry(p.saved, DepositsScanId(CFG)) == Some(1)
  {
    var env := Setting([Announce(x)], Both(r), false);
    SettingSane([Announce(x)], Both(r), false);
    details, trail := LateTrail(env, x, r);
    BlockRegisters(env, 11, 1, r);
    HealthyRun(LATE_LOG);
  }
}
