/** Deposit discovery: token transfers into known receivers, handed back once. */
module EvmDeposits {
  import opened Wrappers
  import opened Positional
  import opened Hex
  import opened Scanning
  import opened Portal
  import opened EvmRegistry
  import opened EvmIndexer
  import LogCache

  datatype Deposit = Deposit(chain: string, txHash: seq<byte>, from: Address, receiver: Address, amount: nat, block: nat)

  function TransferFilter(cfg: Config, receivers: set<Address>): LogFilter {
    LogFilter({cfg.token}, {cfg.transferTopic}, set r | r in receivers :: AddressTopic(r))
  }

  /** What one log deposits; anything but a well-formed transfer deposits nothing. */
  function DepositIn(cfg: Config, s: Sighting): seq<Deposit> {
    var log := s.log;
    if |log.topics| < 3 || log.topics[0] != cfg.transferTopic then []
    else
      match (TopicAddress(log.topics[1]), TopicAddress(log.topics[2]))
      case (Some(from), Some(to)) =>
        var amount := if |log.data| >= 32 then Value(256, log.data[..32]) else 0;
        [Deposit(cfg.chainName, log.txHash, from, to, amount, s.block)]
      case _ => []
  }

  /** The log a token writes for a transfer. */
  ghost predicate WritesTransfer(cfg: Config, from: Address, to: Address, amount: nat, log: Log) {
    && log.address == cfg.token && log.topics == [cfg.transferTopic, AddressTopic(from), AddressTopic(to)]
    && |log.data| == 32 && Value(256, log.data) == amount
  }

  /** A transfer is read back from its log, and a scan asks for that log exactly
      when it looks for the one who is paid. */
  lemma TransferIsRead(cfg: Config, receivers: set<Address>, from: Address, to: Address, amount: nat, block: nat, log: Log)
    requires receivers != {} && WritesTransfer(cfg, from, to, amount, log)
    ensures DepositIn(cfg, Sighting(block, log)) == [Deposit(cfg.chainName, log.txHash, from, to, amount, block)]
    ensures TransferFilter(cfg, receivers).Selects(log) <==> to in receivers
  {
    TopicRoundTrip(from);
    TopicRoundTrip(to);
    assert log.data[..32] == log.data;
    var some :| some in receivers;
    assert AddressTopic(some) in TransferFilter(cfg, receivers).topic2;
    if TransferFilter(cfg, receivers).Selects(log) {
      var x :| x in receivers && log.topics[2] == AddressTopic(x);
      TopicRoundTrip(x);
    }
  }

  function Deposits(cfg: Config, seen: seq<Sighting>): seq<Deposit> {
    if seen == [] then []
    else Deposits(cfg, seen[..|seen| - 1]) + DepositIn(cfg, seen[|seen| - 1])
  }

  lemma {:induction false} DepositsAppend(cfg: Config, a: seq<Sighting>, b: seq<Sighting>)
    ensures Deposits(cfg, a + b) == Deposits(cfg, a) + Deposits(cfg, b)
  {
    if b == [] {
      assert a + b == a;
    } else {
      var n := |b| - 1;
      assert (a + b)[..|a| + n] == a + b[..n];
      DepositsAppend(cfg, a, b[..n]);
      Assoc(Deposits(cfg, a), Deposits(cfg, b[..n]), DepositIn(cfg, b[n]));
    }
  }

  /** The deposit scan as one account of blocks: what each look at each block deposits. */
  ghost function Ledger(env: Env, cfg: Config, lo: nat, looks: seq<Look>): seq<Deposit> {
    Deposits(cfg, Scan(Eye(env), lo, looks))
  }

  lemma LedgerJoin(env: Env, cfg: Config, lo: nat, a: seq<Look>, mid: nat, b: seq<Look>)
    requires mid == lo + |a|
    ensures Ledger(env, cfg, lo, a + b) == Ledger(env, cfg, lo, a) + Ledger(env, cfg, mid, b)
  {
    ScanJoin(Eye(env), lo, a, mid, b);
    DepositsAppend(cfg, Scan(Eye(env), lo, a), Scan(Eye(env), mid, b));
  }

  /** What one look at one block deposits. */
  ghost function BlockLedger(env: Env, cfg: Config, block: nat, look: Look): seq<Deposit> {
    Deposits(cfg, Tag(block, look.filter.Pick(env.Logs(look.time, block))))
  }

  lemma LedgerLast(env: Env, cfg: Config, lo: nat, before: seq<Look>, look: Look, block: nat)
    requires block == lo + |before|
    ensures Ledger(env, cfg, lo, before + [look]) == Ledger(env, cfg, lo, before) + BlockLedger(env, cfg, block, look)
  {
    ScanNext(Eye(env), lo, before, block, look);
    DepositsAppend(cfg, Scan(Eye(env), lo, before), Eye(env)(block, look));
  }

  // ---- nothing is missed, nothing is invented ------------------------------

  function Total(ds: seq<Deposit>, r: Address): nat {
    if ds == [] then 0
    else Total(ds[..|ds| - 1], r) + if ds[|ds| - 1].receiver == r then ds[|ds| - 1].amount else 0
  }

  function Paid(cfg: Config, logs: seq<Log>, r: Address): nat {
    if logs == [] then 0
    else
      var log := logs[|logs| - 1];
      Paid(cfg, logs[..|logs| - 1], r) + if IsPayment(cfg, log, r) then AmountOf(log) else 0
  }

  /** A token transfer to a receiver, as it stands on chain. */
  predicate IsPayment(cfg: Config, log: Log, r: Address) {
    && log.address == cfg.token && |log.topics| >= 3 && log.topics[0] == cfg.transferTopic
    && TopicAddress(log.topics[1]).Some? && log.topics[2] == AddressTopic(r)
  }

  function AmountOf(log: Log): nat {
    if |log.data| >= 32 then Value(256, log.data[..32]) else 0
  }

  /** For a receiver in the filter, the deposits of a block are exactly the
      token payments the block makes to it. */
  lemma {:induction false} BlockTotal(cfg: Config, receivers: set<Address>, block: nat, logs: seq<Log>, r: Address)
    requires r in receivers
    ensures Total(Deposits(cfg, Tag(block, TransferFilter(cfg, receivers).Pick(logs))), r) == Paid(cfg, logs, r)
  {
    if logs != [] {
      var f, rest, log := TransferFilter(cfg, receivers), logs[..|logs| - 1], logs[|logs| - 1];
      BlockTotal(cfg, receivers, block, rest, r);
      if f.Selects(log) {
        DepositsNext(cfg, block, f.Pick(rest), log);
        LogTotal(cfg, receivers, block, log, r);
        TotalAppend(Deposits(cfg, Tag(block, f.Pick(rest))), DepositIn(cfg, Sighting(block, log)), r);
      } else {
        UnselectedUnpaid(cfg, receivers, log, r);
      }
    }
  }

  lemma DepositsNext(cfg: Config, block: nat, logs: seq<Log>, log: Log)
    ensures Deposits(cfg, Tag(block, logs + [log])) == Deposits(cfg, Tag(block, logs)) + DepositIn(cfg, Sighting(block, log))
  {
    var tagged, s := Tag(block, logs), Sighting(block, log);
    assert (logs + [log])[..|logs|] == logs;
    assert (tagged + [s])[..|tagged|] == tagged;
  }

  /** A log the filter leaves out pays nobody it looks for. */
  lemma UnselectedUnpaid(cfg: Config, receivers: set<Address>, log: Log, r: Address)
    requires r in receivers && !TransferFilter(cfg, receivers).Selects(log)
    ensures !IsPayment(cfg, log, r)
  {
    assert AddressTopic(r) in TransferFilter(cfg, receivers).topic2;
  }

  lemma LogTotal(cfg: Config, receivers: set<Address>, block: nat, log: Log, r: Address)
    requires r in receivers && TransferFilter(cfg, receivers).Selects(log)
    ensures Total(DepositIn(cfg, Sighting(block, log)), r) == if IsPayment(cfg, log, r) then AmountOf(log) else 0
  {
    TopicRoundTrip(r);
    assert AddressTopic(r) in TransferFilter(cfg, receivers).topic2;
    var x :| x in receivers && log.topics[2] == AddressTopic(x);
    TopicRoundTrip(x);
  }

  lemma {:induction false} TotalAppend(a: seq<Deposit>, b: seq<Deposit>, r: Address)
    ensures Total(a + b, r) == Total(a, r) + Total(b, r)
  {
    if b == [] {
      assert a + b == a;
    } else {
      var n := |b| - 1;
      assert (a + b)[..|a| + n] == a + b[..n];
      TotalAppend(a, b[..n], r);
    }
  }

  /** What the looked-at blocks paid to a receiver, as the chain stood. */
  ghost function ChainPaid(env: Env, cfg: Config, lo: nat, looks: seq<Look>, r: Address): nat {
    if looks == [] then 0
    else
      var n := |looks| - 1;
      ChainPaid(env, cfg, lo, looks[..n], r) + Paid(cfg, env.Logs(looks[n].time, lo + n), r)
  }

  /** A look through a transfer filter that names `r`. */
  ghost predicate Watches(cfg: Config, look: Look, r: Address) {
    exists rs: set<Address> :: r in rs && look.filter == TransferFilter(cfg, rs)
  }

  ghost predicate Watched(cfg: Config, looks: seq<Look>, r: Address) {
    forall i :: 0 <= i < |looks| ==> Watches(cfg, looks[i], r)
  }

  /** For a receiver every filter knew, the deposits handed back over a stretch
      of blocks add up to what those blocks paid it: none missed, none twice. */
  lemma {:induction false} LedgerTotal(env: Env, cfg: Config, lo: nat, looks: seq<Look>, r: Address)
    requires Watched(cfg, looks, r)
    ensures Total(Ledger(env, cfg, lo, looks), r) == ChainPaid(env, cfg, lo, looks, r)
    decreases |looks|
  {
    if looks != [] {
      var before, look := looks[..|looks| - 1], looks[|looks| - 1];
      WatchedPrefix(cfg, looks, r);
      LedgerTotal(env, cfg, lo, before, r);
      Unsnoc(looks);
      var block := lo + |before|;
      LookTotal(env, cfg, block, look, r);
      TotalLast(env, cfg, lo, before, look, block, r);
      ChainPaidNext(env, cfg, lo, before, look, block, r);
    }
  }

  /** For a receiver the filter leaves out, nothing is handed back. */
  lemma {:induction false} BlockOthers(cfg: Config, receivers: set<Address>, block: nat, logs: seq<Log>, r: Address)
    requires receivers != {} && r !in receivers
    ensures Total(Deposits(cfg, Tag(block, TransferFilter(cfg, receivers).Pick(logs))), r) == 0
  {
    var f := TransferFilter(cfg, receivers);
    if logs != [] {
      var rest, log := logs[..|logs| - 1], logs[|logs| - 1];
      BlockOthers(cfg, receivers, block, rest, r);
      if f.Selects(log) {
        var picked := f.Pick(rest);
        assert (picked + [log])[..|picked|] == picked;
        var tagged := Tag(block, picked);
        assert (tagged + [Sighting(block, log)])[..|tagged|] == tagged;
        LogOthers(cfg, receivers, block, log, r);
        TotalAppend(Deposits(cfg, tagged), DepositIn(cfg, Sighting(block, log)), r);
      }
    }
  }

  lemma LogOthers(cfg: Config, receivers: set<Address>, block: nat, log: Log, r: Address)
    requires receivers != {} && r !in receivers && TransferFilter(cfg, receivers).Selects(log)
    ensures Total(DepositIn(cfg, Sighting(block, log)), r) == 0
  {
    var some :| some in receivers;
    assert AddressTopic(some) in TransferFilter(cfg, receivers).topic2;
    var x :| x in receivers && log.topics[2] == AddressTopic(x);
    TopicRoundTrip(x);
  }

  lemma {:induction false} LedgerOthers(env: Env, cfg: Config, receivers: set<Address>, lo: nat, looks: seq<Look>,
                                        r: Address)
    requires receivers != {} && r !in receivers
    requires forall i :: 0 <= i < |looks| ==> looks[i].filter == TransferFilter(cfg, receivers)
    ensures Total(Ledger(env, cfg, lo, looks), r) == 0
  {
    if looks != [] {
      var before, look := looks[..|looks| - 1], looks[|looks| - 1];
      LedgerOthers(env, cfg, receivers, lo, before, r);
      Unsnoc(looks);
      BlockOthers(cfg, receivers, lo + |before|, env.Logs(look.time, lo + |before|), r);
      TotalLast(env, cfg, lo, before, look, lo + |before|, r);
    }
  }

  lemma {:induction false} ChainPaidJoin(env: Env, cfg: Config, lo: nat, a: seq<Look>, mid: nat, b: seq<Look>,
                                         r: Address)
    requires mid == lo + |a|
    ensures ChainPaid(env, cfg, lo, a + b, r) == ChainPaid(env, cfg, lo, a, r) + ChainPaid(env, cfg, mid, b, r)
  {
    if b == [] {
      assert a + b == a;
    } else {
      var n := |b| - 1;
      assert (a + b)[..|a| + n] == a + b[..n];
      ChainPaidJoin(env, cfg, lo, a, mid, b[..n], r);
    }
  }

  lemma ChainPaidNext(env: Env, cfg: Config, lo: nat, before: seq<Look>, look: Look, block: nat, r: Address)
    requires block == lo + |before|
    ensures ChainPaid(env, cfg, lo, before + [look], r)
      == ChainPaid(env, cfg, lo, before, r) + Paid(cfg, env.Logs(look.time, block), r)
  {
    assert (before + [look])[..|before|] == before;
  }

  lemma WatchedPrefix(cfg: Config, looks: seq<Look>, r: Address)
    requires looks != [] && Watched(cfg, looks, r)
    ensures Watched(cfg, looks[..|looks| - 1], r) && Watched(cfg, [looks[|looks| - 1]], r)
  {
  }

  lemma LookTotal(env: Env, cfg: Config, block: nat, look: Look, r: Address)
    requires Watched(cfg, [look], r)
    ensures Total(BlockLedger(env, cfg, block, look), r) == Paid(cfg, env.Logs(look.time, block), r)
  {
    assert [look][0] == look;
    var rs: set<Address> :| r in rs && look.filter == TransferFilter(cfg, rs);
    BlockTotal(cfg, rs, block, env.Logs(look.time, block), r);
  }

  lemma TotalLast(env: Env, cfg: Config, lo: nat, before: seq<Look>, look: Look, block: nat, r: Address)
    requires block == lo + |before|
    ensures Total(Ledger(env, cfg, lo, before + [look]), r)
      == Total(Ledger(env, cfg, lo, before), r) + Total(BlockLedger(env, cfg, block, look), r)
  {
    LedgerLast(env, cfg, lo, before, look, block);
    TotalAppend(Ledger(env, cfg, lo, before), BlockLedger(env, cfg, block, look), r);
  }

  // ---- order ---------------------------------------------------------------

  ghost predicate Ordered(ds: seq<Deposit>) {
    forall i, j :: 0 <= i < j < |ds| ==> ds[i].block <= ds[j].block
  }

  ghost predicate Inside(ds: seq<Deposit>, lo: nat, hi: nat) {
    forall i :: 0 <= i < |ds| ==> lo <= ds[i].block < hi
  }

  lemma {:induction false} BlockDeposits(cfg: Config, block: nat, logs: seq<Log>)
    ensures Inside(Deposits(cfg, Tag(block, logs)), block, block + 1)
  {
    if logs != [] {
      BlockDeposits(cfg, block, logs[..|logs| - 1]);
      var tagged := Tag(block, logs[..|logs| - 1]);
      assert (tagged + [Sighting(block, logs[|logs| - 1])])[..|tagged|] == tagged;
    }
  }

  lemma OrderedAppend(a: seq<Deposit>, b: seq<Deposit>, lo: nat, block: nat)
    requires Ordered(a) && Inside(a, lo, block) && Inside(b, block, block + 1) && lo <= block
    ensures Ordered(a + b) && Inside(a + b, lo, block + 1)
  {
  }

  /** Blocks are walked upwards, so their deposits come in block order. */
  lemma {:induction false} LedgerOrdered(env: Env, cfg: Config, lo: nat, looks: seq<Look>)
    ensures Ordered(Ledger(env, cfg, lo, looks)) && Inside(Ledger(env, cfg, lo, looks), lo, lo + |looks|)
  {
    if looks != [] {
      var before, look := looks[..|looks| - 1], looks[|looks| - 1];
      LedgerOrdered(env, cfg, lo, before);
      Unsnoc(looks);
      OrderedNext(env, cfg, lo, before, look);
    }
  }

  lemma OrderedNext(env: Env, cfg: Config, lo: nat, before: seq<Look>, look: Look)
    requires Ordered(Ledger(env, cfg, lo, before)) && Inside(Ledger(env, cfg, lo, before), lo, lo + |before|)
    ensures
      var next := Ledger(env, cfg, lo, before + [look]);
      Ordered(next) && Inside(next, lo, lo + |before| + 1)
  {
    var block := lo + |before|;
    BlockDeposits(cfg, block, look.filter.Pick(env.Logs(look.time, block)));
    LedgerLast(env, cfg, lo, before, look, block);
    OrderedAppend(Ledger(env, cfg, lo, before), BlockLedger(env, cfg, block, look), lo, block);
  }

  /** `sort_by_key` on the block number: later equals stay behind earlier ones. */
  function Place(sorted: seq<Deposit>, d: Deposit): seq<Deposit> {
    if sorted == [] || sorted[|sorted| - 1].block <= d.block then sorted + [d]
    else Place(sorted[..|sorted| - 1], d) + [sorted[|sorted| - 1]]
  }

  function SortByBlock(ds: seq<Deposit>): seq<Deposit> {
    if ds == [] then [] else Place(SortByBlock(ds[..|ds| - 1]), ds[|ds| - 1])
  }

  lemma {:induction false} SortKeepsOrdered(ds: seq<Deposit>)
    requires Ordered(ds)
    ensures SortByBlock(ds) == ds
  {
    if ds != [] {
      var rest, d := ds[..|ds| - 1], ds[|ds| - 1];
      SortKeepsOrdered(rest);
      PlaceLast(rest, d);
      Unsnoc(ds);
    }
  }

  lemma PlaceLast(sorted: seq<Deposit>, d: Deposit)
    requires sorted == [] || sorted[|sorted| - 1].block <= d.block
    ensures Place(sorted, d) == sorted + [d]
  {
  }

  // ---- fetch_deposits_since_block ------------------------------------------

  method CollectDeposits(cfg: Config, seen: seq<Sighting>) returns (ds: seq<Deposit>)
    ensures ds == Deposits(cfg, seen)
  {
    ds := [];
    for i := 0 to |seen|
      invariant ds == Deposits(cfg, seen[..i])
    {
      assert seen[..i + 1][..i] == seen[..i];
      ds := ds + DepositIn(cfg, seen[i]);
    }
    assert seen[..|seen|] == seen;
  }

  /** The scan itself, which keeps no checkpoint; its deposits come in block order. */
  method ScanDeposits(env: Env, cache: Cache, cfg: Config, receivers: set<Address>, from: nat, to: nat, start: nat)
    returns (out: Outcome, ds: seq<Deposit>, now: nat, ghost looks: seq<Look>)
    requires Sane(env) && from <= to
    modifies cache`checkpoints
    ensures cache.checkpoints == old(cache.checkpoints)
    ensures now >= start && Looked(env, from, looks, TransferFilter(cfg, receivers), start, now)
    ensures looks != [] ==> from + |looks| <= to + 1
    ensures !out.Streamed? ==> Trouble(env, TransferFilter(cfg, receivers), false, start, now)
    ensures out.Streamed? ==> ds == Ledger(env, cfg, from, looks)
    ensures out.Streamed? ==> out.last == ScannedOn(None, from, |looks|)
    ensures out.Streamed? && from + |looks| <= to ==> Behind(env, TransferFilter(cfg, receivers), from + |looks|, start, now)
  {
    var found;
    ghost var asked;
    out, found, now, looks, asked := StreamLogs(env, cache, DepositsScanId(cfg), from, to,
      TransferFilter(cfg, receivers), DEPOSIT_MAX_BLOCKS_PER_REQUEST, false, start);
    ds := [];
    if out.Streamed? {
      ds := CollectDeposits(cfg, found);
      LedgerOrdered(env, cfg, from, looks);
      SortKeepsOrdered(ds);
      ds := SortByBlock(ds);
    }
  }

  /** A checkpoint after `n` more blocks from `from` on. */
  function ScannedOn(saved: Option<nat>, from: nat, n: nat): Option<nat> {
    if n == 0 then saved else Some(from + n - 1)
  }

  /** Scans on from the saved checkpoint. The checkpoint moves once, after the
      whole scan, to the last block of what is handed back; a call that errs or
      dies leaves it where it was. */
  method FetchDepositsSinceBlock(env: Env, cache: Cache, cfg: Config, receivers: set<Address>, to: nat, start: nat)
    returns (out: Outcome, ds: seq<Deposit>, now: nat, ghost looks: seq<Look>)
    requires Sane(env)
    modifies cache`checkpoints
    ensures now >= start
    ensures !out.Streamed? ==> looks == [] && Trouble(env, TransferFilter(cfg, receivers), true, start, now)
    ensures receivers == {} ==> looks == []
    ensures
      var from := Resume(old(cache.Checkpoint(DepositsScanId(cfg))), cfg.depositStart);
      && Looked(env, from, looks, TransferFilter(cfg, receivers), start, now)
      && (looks != [] ==> from + |looks| <= to + 1)
      && (out.Streamed? ==> ds == Ledger(env, cfg, from, looks))
      && cache.checkpoints == Marked(old(cache.checkpoints), DepositsScanId(cfg), true, from, |looks|)
      && (out.Streamed? && receivers != {} ==> GotTo(env, TransferFilter(cfg, receivers), from, |looks|, to, start, now))
  {
    var saved := cache.GetCheckpoint(DepositsScanId(cfg));
    var from := Resume(saved, cfg.depositStart);
    if receivers == {} || from > to {
      return Streamed(None), [], start, [];
    }
    ghost var seen;
    out, ds, now, seen := ScanDeposits(env, cache, cfg, receivers, from, to, start);
    looks := [];
    if !out.Streamed? {
      TroubleAnyway(env, TransferFilter(cfg, receivers), start, now);
    } else {
      if out.last.Some? {
        var stop, later := SaveCheckpoint(env, cache, DepositsScanId(cfg), true, out.last.value, now);
        if stop.Some? {
          TroubleNow(env, TransferFilter(cfg, receivers), true, start, later);
          return stop.value, [], later, [];
        }
        BehindLater(env, TransferFilter(cfg, receivers), from + |seen|, start, now, later);
        now := later;
        assert out.last.value + 1 == from + |seen|;
      }
      looks := seen;
    }
  }

  lemma BehindLater(env: Env, f: LogFilter, next: nat, t0: nat, t1: nat, t2: nat)
    requires t1 <= t2
    ensures Behind(env, f, next, t0, t1) ==> Behind(env, f, next, t0, t2)
  {
    if Behind(env, f, next, t0, t1) {
      var q: Request :| t0 <= q.time < t1 && Unanswered(env, f, q, next);
      assert t0 <= q.time < t2 && Unanswered(env, f, q, next);
    }
  }

  /** No checkpoint but the two of this chain has changed. */
  ghost predicate OwnCheckpoints(cfg: Config, was: map<string, nat>, now: map<string, nat>) {
    forall id :: id != RegistryScanId(cfg) && id != DepositsScanId(cfg) ==> Entry(now, id) == Entry(was, id)
  }

  lemma OwnMoves(cfg: Config, a: map<string, nat>, b: map<string, nat>, c: map<string, nat>)
    requires OnlyMoves(RegistryScanId(cfg), a, b) && OnlyMoves(DepositsScanId(cfg), b, c)
    ensures OwnCheckpoints(cfg, a, c)
    ensures Entry(c, RegistryScanId(cfg)) == Entry(b, RegistryScanId(cfg))
    ensures Entry(b, DepositsScanId(cfg)) == Entry(a, DepositsScanId(cfg))
  {
    ScanIdsDiffer(cfg);
  }

  // ---- run_evm_catchup -----------------------------------------------------

  datatype CatchUp =
    | CaughtUp(receivers: seq<Receiver>, webhooks: seq<(Address, string)>, deposits: seq<Deposit>, upTo: nat)
    | NotCaughtUp(out: Outcome)

  /** The receivers named by the registry blocks a scan saw. */
  ghost function NamedIn(env: Env, cfg: Config, looks: seq<Look>): set<Address> {
    Named(Receivers(cfg, Scan(Eye(env), RegistryStart(cfg), looks)))
  }

  /** Why a catch-up failed: no head, no registry, or trouble on the way. */
  ghost predicate NoCatchUp(env: Env, cfg: Config, head: Option<nat>, looks: seq<Look>, t0: nat, t1: nat) {
    || head.None? || NothingToShow(env, cfg, head.value, t0, t1) || Trouble(env, RegistryFilter(cfg), true, t0, t1)
    || Trouble(env, TransferFilter(cfg, NamedIn(env, cfg, looks)), true, t0, t1)
  }

  lemma RegistryTrouble(env: Env, cfg: Config, t0: nat, t1: nat)
    requires t0 <= t1 && (Trouble(env, RegistryFilter(cfg), false, t0, t1) || t1 in env.diskFull)
    ensures Trouble(env, RegistryFilter(cfg), true, t0, t1)
  {
    if t1 in env.diskFull {
      TroubleNow(env, RegistryFilter(cfg), true, t0, t1);
    } else {
      TroubleAnyway(env, RegistryFilter(cfg), t0, t1);
    }
  }

  /** A checkpoint that did not go back. */
  ghost predicate NotBefore(was: Option<nat>, now: Option<nat>) {
    was.Some? ==> now.Some? && was.value <= now.value
  }

  lemma GotToSince(env: Env, f: LogFilter, from: nat, n: nat, to: nat, t0: nat, t1: nat, t0': nat, t1': nat)
    requires t0' <= t0 && t1 <= t1'
    ensures GotTo(env, f, from, n, to, t0, t1) ==> GotTo(env, f, from, n, to, t0', t1')
  {
    if from + n <= to && Behind(env, f, from + n, t0, t1) {
      BehindLater(env, f, from + n, t0, t1, t1');
      BehindSince(env, f, from + n, t0, t1', t0');
    }
  }

  /** The deposit half: on from the deposit checkpoint, which alone moves. */
  method CatchUpDeposits(env: Env, cache: Cache, cfg: Config, names: set<Address>, to: nat, since: nat, start: nat)
    returns (out: Outcome, ds: seq<Deposit>, now: nat, ghost looks: seq<Look>)
    requires Sane(env) && since <= start && SoundCache(env, cfg, start, cache.chunks)
    modifies cache`checkpoints
    ensures now >= start && SoundCache(env, cfg, now, cache.chunks)
    ensures !out.Streamed? ==> looks == [] && Trouble(env, TransferFilter(cfg, names), true, since, now)
    ensures names == {} ==> looks == []
    ensures
      var from := Resume(old(cache.Checkpoint(DepositsScanId(cfg))), cfg.depositStart);
      && Looked(env, from, looks, TransferFilter(cfg, names), since, now)
      && (looks != [] ==> from + |looks| <= to + 1)
      && (out.Streamed? ==> ds == Ledger(env, cfg, from, looks))
      && (out.Streamed? && names != {} ==> GotTo(env, TransferFilter(cfg, names), from, |looks|, to, since, now))
      && cache.Checkpoint(DepositsScanId(cfg)) == ScannedOn(old(cache.Checkpoint(DepositsScanId(cfg))), from, |looks|)
    ensures OnlyMoves(DepositsScanId(cfg), old(cache.checkpoints), cache.checkpoints)
  {
    out, ds, now, looks := FetchDepositsSinceBlock(env, cache, cfg, names, to, start);
    ScanIdsDiffer(cfg);
    SoundLater(env, cfg, start, now, cache.chunks);
    LookedWider(env, Resume(old(cache.Checkpoint(DepositsScanId(cfg))), cfg.depositStart), looks,
                TransferFilter(cfg, names), start, now, since, now);
    GotToSince(env, TransferFilter(cfg, names), Resume(old(cache.Checkpoint(DepositsScanId(cfg))), cfg.depositStart),
               |looks|, to, start, now, since, now);
    if !out.Streamed? {
      TroubleWider(env, TransferFilter(cfg, names), true, start, now, since, now);
    }
  }

  /** The whole registry first, then deposits up to the block the registry is
      known through. `head` is what the Portal says the head is; `fetched` is
      what the deposit scan handed back, which the caller only gets to see when
      the process lives on and the closing flush succeeds too. */
  method RunEvmCatchup(env: Env, cache: Cache, cfg: Config, head: Option<nat>, start: nat)
    returns (r: CatchUp, now: nat, ghost looks: seq<Look>, ghost depositLooks: seq<Look>, ghost fetched: seq<Deposit>)
    requires Sane(env) && SoundCache(env, cfg, start, cache.chunks)
    requires head.Some? ==> head.value <= env.Head(start)
    modifies cache`chunks, cache`checkpoints
    ensures now >= start && SoundCache(env, cfg, now, cache.chunks)
    ensures Looked(env, RegistryStart(cfg), looks, RegistryFilter(cfg), start, now)
    ensures r.CaughtUp? ==> Found(env, cfg, RegistryStart(cfg), looks, r.receivers, r.webhooks)
    ensures r.CaughtUp? ==> looks != [] && r.upTo == RegistryStart(cfg) + |looks| - 1
    ensures r.CaughtUp? ==> r.deposits == fetched
    ensures !r.CaughtUp? ==> NoCatchUp(env, cfg, head, looks, start, now)
    ensures !r.CaughtUp? && depositLooks != [] ==> now in env.killed || now in env.diskFull
    ensures r.CaughtUp? ==>
      head.Some? && GotTo(env, RegistryFilter(cfg), RegistryStart(cfg), |looks|, head.value, start, now)
    ensures NamedIn(env, cfg, looks) == {} ==> depositLooks == []
    ensures
      var from := Resume(old(cache.Checkpoint(DepositsScanId(cfg))), cfg.depositStart);
      && Looked(env, from, depositLooks, TransferFilter(cfg, NamedIn(env, cfg, looks)), start, now)
      && fetched == Ledger(env, cfg, from, depositLooks)
      && cache.Checkpoint(DepositsScanId(cfg)) == ScannedOn(old(cache.Checkpoint(DepositsScanId(cfg))), from, |depositLooks|)
      && (depositLooks != [] ==> from + |depositLooks| <= RegistryStart(cfg) + |looks|)
      && (r.CaughtUp? && NamedIn(env, cfg, looks) != {} ==>
            GotTo(env, TransferFilter(cfg, NamedIn(env, cfg, looks)), from, |depositLooks|, r.upTo, start, now))
    ensures r.CaughtUp? ==>
      cache.Checkpoint(RegistryScanId(cfg)) == Forward(old(cache.Checkpoint(RegistryScanId(cfg))), r.upTo)
    ensures NotBefore(old(cache.Checkpoint(RegistryScanId(cfg))), cache.Checkpoint(RegistryScanId(cfg)))
    ensures OwnChunks(cfg, old(cache.chunks), cache.chunks)
    ensures OwnCheckpoints(cfg, old(cache.checkpoints), cache.checkpoints)
  {
    ScanIdsDiffer(cfg);
    looks, depositLooks, fetched := [], [], [];
    if head.None? {
      return NotCaughtUp(Failed), start, [], [], [];
    }
    var snapshot;
    snapshot, now, looks := RebuildRegistryState(env, cache, cfg, head.value, start);
    ghost var rebuilt, saved := now, cache.checkpoints;
    if snapshot.NotRebuilt? {
      if !NothingToShow(env, cfg, head.value, start, now) {
        RegistryTrouble(env, cfg, start, now);
      }
      return NotCaughtUp(snapshot.out), now, looks, [], [];
    }
    var names := Named(snapshot.receivers);
    var out, ds;
    out, ds, now, depositLooks := CatchUpDeposits(env, cache, cfg, names, snapshot.scannedTo, start, now);
    OwnMoves(cfg, old(cache.checkpoints), saved, cache.checkpoints);
    LookedWider(env, RegistryStart(cfg), looks, RegistryFilter(cfg), start, rebuilt, start, now);
    if !out.Streamed? {
      return NotCaughtUp(out), now, looks, [], [];
    }
    GotToSince(env, RegistryFilter(cfg), RegistryStart(cfg), |looks|, head.value, start, rebuilt, start, now);
    fetched := ds;
    if now in env.killed || now in env.diskFull {
      TroubleNow(env, TransferFilter(cfg, names), true, start, now);
      return NotCaughtUp(if now in env.killed then Killed else Failed), now, looks, depositLooks, fetched;
    }
    r := CaughtUp(snapshot.receivers, snapshot.webhooks, ds, snapshot.scannedTo);
  }
}
