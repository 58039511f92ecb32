/** The live worker of one EVM chain: the maps it keeps in memory, what a tip
    does to them, and what holds over whole runs with restarts in between. */
module EvmWorker {
  import opened Wrappers
  import opened Positional
  import opened Hex
  import opened Scanning
  import opened Portal
  import opened EvmRegistry
  import opened EvmIndexer
  import opened EvmDeposits
  import LogCache

  /** What the live stream says of the newest block. */
  datatype EvmTip = EvmTip(blockNumber: nat, registryActivity: bool, webhookActivity: bool)

  /** The stream announces blocks that are there. It may report activity where
      there is none, never the reverse. */
  ghost predicate TruthfulTip(env: Env, cfg: Config, tip: EvmTip, time: nat) {
    && tip.blockNumber <= env.Head(time)
    && (tip.registryActivity || tip.webhookActivity || Quiet(env, cfg, tip.blockNumber, time))
  }

  ghost predicate Quiet(env: Env, cfg: Config, block: nat, time: nat) {
    RegistryFilter(cfg).Pick(env.Logs(time, block)) == []
  }

  /** The checkpoint after `n` blocks from `from` on. */
  function After(from: nat, n: nat): Option<nat> {
    if n == 0 then None else Some(from + n - 1)
  }

  /** What the maps must hold: the fold of every registry event so far. */
  ghost predicate Folded(env: Env, cfg: Config, looks: seq<Look>, merchants: map<Address, Info>,
                         hooks: map<string, string>)
  {
    var seen := Scan(Eye(env), RegistryStart(cfg), looks);
    && merchants == RememberAll(map[], Receivers(cfg, seen))
    && hooks == InsertAll(map[], Webhooks(cfg, seen))
  }

  lemma FoldedMore(env: Env, cfg: Config, looks: seq<Look>, merchants: map<Address, Info>, hooks: map<string, string>,
                   from: nat, more: seq<Look>, receivers: seq<Receiver>, webhooks: seq<(Address, string)>)
    requires Folded(env, cfg, looks, merchants, hooks)
    requires from == RegistryStart(cfg) + |looks| && Found(env, cfg, from, more, receivers, webhooks)
    ensures Folded(env, cfg, looks + more, RememberAll(merchants, receivers), InsertAll(hooks, webhooks))
  {
    var start := RegistryStart(cfg);
    ScanJoin(Eye(env), start, looks, from, more);
    var a, b := Scan(Eye(env), start, looks), Scan(Eye(env), from, more);
    ReceiversAppend(cfg, a, b);
    WebhooksAppend(cfg, a, b);
    RememberAppend(map[], Receivers(cfg, a), receivers);
    InsertAppend(map[], Webhooks(cfg, a), webhooks);
  }

  /** A block that holds no registry log says nothing. */
  lemma FoundQuiet(env: Env, cfg: Config, block: nat, time: nat)
    requires Quiet(env, cfg, block, time)
    ensures Found(env, cfg, block, [Look(time, RegistryFilter(cfg))], [], [])
  {
    var look := Look(time, RegistryFilter(cfg));
    QuietLook(env, block, look);
    ScanNext(Eye(env), block, [], block, look);
    assert [] + [look] == [look];
  }

  /** The receivers known after a scan are the ones its events name. */
  lemma FoldedKeys(env: Env, cfg: Config, looks: seq<Look>, merchants: map<Address, Info>, hooks: map<string, string>)
    requires Folded(env, cfg, looks, merchants, hooks)
    ensures merchants.Keys == Named(Receivers(cfg, Scan(Eye(env), RegistryStart(cfg), looks)))
  {
    RememberedKeys(map[], Receivers(cfg, Scan(Eye(env), RegistryStart(cfg), looks)));
  }

  /** Every receiver registered at or before a block the registry scan covered
      is among the ones named by the whole scan. */
  lemma RegisteredBefore(env: Env, cfg: Config, looks: seq<Look>, n: nat)
    requires n <= |looks|
    ensures
      var start := RegistryStart(cfg);
      Named(Receivers(cfg, Scan(Eye(env), start, looks[..n]))) <= Named(Receivers(cfg, Scan(Eye(env), start, looks)))
  {
    var start := RegistryStart(cfg);
    var a, b := looks[..n], looks[n..];
    assert looks == a + b;
    ScanAppend(Eye(env), start, a, b);
    var x, y := Scan(Eye(env), start, a), Scan(Eye(env), start + |a|, b);
    ReceiversAppend(cfg, x, y);
    NamedAppend(Receivers(cfg, x), Receivers(cfg, y));
  }

  // ---- the steps, as relations between two moments ---------------------------

  /** The worker at one moment: its maps, what is saved, and how it got there:
      how the registry blocks behind the maps and the blocks scanned for deposits
      were seen, every deposit the worker got to act on since the first start,
      and every deposit that was found, marked scanned and never acted on. */
  datatype Picture = Picture(
    merchants: map<Address, Info>, hooks: map<string, string>, saved: map<string, nat>,
    looks: seq<Look>, depositLooks: seq<Look>, delivered: seq<Deposit>, dropped: seq<Deposit>)

  ghost function RegistryFrom(cfg: Config, p: Picture): nat {
    Resume(Entry(p.saved, RegistryScanId(cfg)), RegistryStart(cfg))
  }

  ghost function DepositsFrom(cfg: Config, p: Picture): nat {
    Resume(Entry(p.saved, DepositsScanId(cfg)), cfg.depositStart)
  }

  /** `more` blocks behind the registry checkpoint were looked at through the
      registry filter; the maps learn exactly what they hold, unless the call
      failed: then only the checkpoint has moved. */
  ghost predicate RegistryStep(env: Env, cfg: Config, ok: bool, p: Picture, p': Picture, more: seq<Look>, t: nat,
                               t': nat)
  {
    var from := RegistryFrom(cfg, p);
    var seen := Scan(Eye(env), from, more);
    && t <= t' && Looked(env, from, more, RegistryFilter(cfg), t, t')
    && p' == p.(
         saved := Marked(p.saved, RegistryScanId(cfg), true, from, |more|),
         looks := if ok then p.looks + more else p.looks,
         merchants := if ok then RememberAll(p.merchants, Receivers(cfg, seen)) else p.merchants,
         hooks := if ok then InsertAll(p.hooks, Webhooks(cfg, seen)) else p.hooks)
  }

  /** `paid` blocks behind the deposit checkpoint were looked at through the
      transfer filter of `names`. The worker was told what they paid, unless the
      process died with the checkpoint already written. */
  ghost predicate DepositStep(env: Env, cfg: Config, names: set<Address>, told: bool, p: Picture, p': Picture,
                              paid: seq<Look>, t: nat, t': nat)
  {
    var from := DepositsFrom(cfg, p);
    var found := Ledger(env, cfg, from, paid);
    && t <= t' && Looked(env, from, paid, TransferFilter(cfg, names), t, t')
    && (names == {} ==> paid == [])
    && (!told && paid != [] ==> t' in env.killed)
    && p' == p.(
         saved := Marked(p.saved, DepositsScanId(cfg), true, from, |paid|),
         depositLooks := p.depositLooks + paid,
         delivered := if told then p.delivered + found else p.delivered,
         dropped := if told then p.dropped else p.dropped + found)
  }

  /** How a step went: the registry blocks and the deposit blocks it covered, and
      what lay between the two halves of a tip. */
  datatype Detail = Detail(more: seq<Look>, paid: seq<Look>, mid: Picture, midTime: nat)

  /** A tip: the registry first, then deposits for every receiver then known. */
  ghost predicate TipStep(env: Env, cfg: Config, block: nat, discovered: bool, deposited: bool,
                          p: Picture, p': Picture, d: Detail, t: nat, t': nat)
  {
    var names := p'.merchants.Keys;
    && RegistryStep(env, cfg, discovered, p, d.mid, d.more, t, d.midTime)
    && DepositStep(env, cfg, names, deposited, d.mid, p', d.paid, d.midTime, t')
    && (discovered && t !in env.killed && t !in env.diskFull ==>
          GotTo(env, RegistryFilter(cfg), RegistryFrom(cfg, p), |d.more|, block, t, d.midTime))
    && (!discovered ==> Trouble(env, RegistryFilter(cfg), true, t, d.midTime))
    && (!deposited ==> Trouble(env, TransferFilter(cfg, names), true, d.midTime, t'))
    && (deposited && names != {} ==>
          GotTo(env, TransferFilter(cfg, names), DepositsFrom(cfg, p), |d.paid|, block, d.midTime, t'))
  }

  /** What a start does to the account of deposits. The worker is told only when
      the whole start succeeds; the checkpoint has moved by then. */
  ghost predicate DepositsMore(env: Env, cfg: Config, names: set<Address>, told: bool, p: Picture, p': Picture,
                               paid: seq<Look>, t: nat, t': nat)
  {
    var from := DepositsFrom(cfg, p);
    var found := Ledger(env, cfg, from, paid);
    && t <= t' && Looked(env, from, paid, TransferFilter(cfg, names), t, t')
    && (names == {} ==> paid == [])
    && (!told && paid != [] ==> t' in env.killed || t' in env.diskFull)
    && Entry(p'.saved, DepositsScanId(cfg)) == ScannedOn(Entry(p.saved, DepositsScanId(cfg)), from, |paid|)
    && p'.depositLooks == p.depositLooks + paid
    && p'.delivered == (if told then p.delivered + found else p.delivered)
    && p'.dropped == (if told then p.dropped else p.dropped + found)
  }

  /** What both kinds of start have in common: the registry from its start block,
      deposits for every receiver it names but not past it, both checkpoints
      forward and no other one moved; and how far a start got that went well. */
  ghost predicate Begins(env: Env, cfg: Config, head: Option<nat>, ok: bool, upTo: nat, p: Picture, p': Picture,
                         d: Detail, t: nat, t': nat)
  {
    var names := NamedIn(env, cfg, d.more);
    && t <= t' && Looked(env, RegistryStart(cfg), d.more, RegistryFilter(cfg), t, t')
    && DepositsMore(env, cfg, names, ok, p, p', d.paid, t, t')
    && (d.paid != [] ==> DepositsFrom(cfg, p) + |d.paid| <= RegistryStart(cfg) + |d.more|)
    && NotBefore(Entry(p.saved, RegistryScanId(cfg)), Entry(p'.saved, RegistryScanId(cfg)))
    && OwnCheckpoints(cfg, p.saved, p'.saved)
    && (!ok ==> NoCatchUp(env, cfg, head, d.more, t, t'))
    && (ok ==>
          && d.more != [] && upTo + 1 == RegistryStart(cfg) + |d.more|
          && Entry(p'.saved, RegistryScanId(cfg)) == Forward(Entry(p.saved, RegistryScanId(cfg)), upTo)
          && head.Some? && GotTo(env, RegistryFilter(cfg), RegistryStart(cfg), |d.more|, head.value, t, t')
          && (names != {} ==>
                GotTo(env, TransferFilter(cfg, names), DepositsFrom(cfg, p), |d.paid|, upTo, t, t')))
  }

  /** A start: memory holds what the rebuild found and nothing else. */
  ghost predicate StartStep(env: Env, cfg: Config, head: Option<nat>, ok: bool, upTo: nat, p: Picture, p': Picture,
                            d: Detail, t: nat, t': nat)
  {
    && Begins(env, cfg, head, ok, upTo, p, p', d, t, t')
    && if ok then p'.looks == d.more && Folded(env, cfg, p'.looks, p'.merchants, p'.hooks)
       else p'.looks == [] && p'.merchants == map[] && p'.hooks == map[]
  }

  /** What the catch-up scans of a start come to, before memory is filled. */
  ghost predicate Scanned(env: Env, cfg: Config, head: Option<nat>, r: CatchUp, p: Picture, p': Picture, d: Detail,
                          t: nat, t': nat)
  {
    match r
    case CaughtUp(receivers, webhooks, _, upTo) =>
      && Begins(env, cfg, head, true, upTo, p, p', d, t, t')
      && Found(env, cfg, RegistryStart(cfg), d.more, receivers, webhooks)
    case NotCaughtUp(_) => Begins(env, cfg, head, false, 0, p, p', d, t, t')
  }

  lemma Begun(env: Env, cfg: Config, head: Option<nat>, r: CatchUp, upTo: nat, p: Picture, mid: Picture, p': Picture,
              d: Detail, t: nat, t': nat)
    requires Scanned(env, cfg, head, r, p, mid, d, t, t')
    requires match r
             case CaughtUp(receivers, webhooks, _, to) =>
               && upTo == to
               && p' == mid.(looks := d.more, merchants := RememberAll(map[], receivers), hooks := InsertAll(map[], webhooks))
             case NotCaughtUp(_) => upTo == 0 && p' == mid.(looks := [], merchants := map[], hooks := map[])
    ensures StartStep(env, cfg, head, r.CaughtUp?, upTo, p, p', d, t, t')
  {
  }

  // ---- what the steps keep ---------------------------------------------------

  /** The maps are the fold of every registry event up to the checkpoint: each
      block from the start block on was looked at once, through the registry
      filter, before `now` and when the chain had got that far. */
  ghost predicate Mirrors(env: Env, cfg: Config, p: Picture, now: nat) {
    && Entry(p.saved, RegistryScanId(cfg)) == After(RegistryStart(cfg), |p.looks|)
    && Looked(env, RegistryStart(cfg), p.looks, RegistryFilter(cfg), 0, now)
    && Folded(env, cfg, p.looks, p.merchants, p.hooks)
  }

  /** Every look was taken before `now`, for the deposits of some receivers. */
  ghost predicate ForDeposits(cfg: Config, looks: seq<Look>, now: nat) {
    forall i :: 0 <= i < |looks| ==> looks[i].time < now && ForDeposit(cfg, looks[i])
  }

  ghost predicate ForDeposit(cfg: Config, look: Look) {
    exists names: set<Address> :: look.filter == TransferFilter(cfg, names)
  }

  /** The elements of `all` whose mark is `m`, in order. */
  function Marks(all: seq<Deposit>, marks: seq<bool>, m: bool): seq<Deposit>
    requires |marks| == |all|
  {
    if all == [] then []
    else
      var n := |all| - 1;
      Marks(all[..n], marks[..n], m) + if marks[n] == m then [all[n]] else []
  }

  /** `a` and `b`, each in its own order, together make up `all`. */
  ghost predicate Interleaved(a: seq<Deposit>, b: seq<Deposit>, all: seq<Deposit>) {
    exists marks: seq<bool> :: |marks| == |all| && a == Marks(all, marks, true) && b == Marks(all, marks, false)
  }

  lemma {:induction false} MarksMore(all: seq<Deposit>, marks: seq<bool>, more: seq<Deposit>, m: bool, told: bool)
    requires |marks| == |all|
    ensures Marks(all + more, marks + Steady(told, |more|), m) == Marks(all, marks, m) + if told == m then more else []
    decreases |more|
  {
    var rest := Steady(told, |more|);
    if more == [] {
      assert all + more == all && marks + rest == marks;
    } else {
      var n := |more| - 1;
      MarksMore(all, marks, more[..n], m, told);
      assert rest[..n] == Steady(told, n);
      assert (all + more)[..|all| + n] == all + more[..n] && (marks + rest)[..|all| + n] == marks + rest[..n];
    }
  }

  lemma InterleavedMore(a: seq<Deposit>, b: seq<Deposit>, all: seq<Deposit>, more: seq<Deposit>, told: bool)
    requires Interleaved(a, b, all)
    ensures Interleaved(if told then a + more else a, if told then b else b + more, all + more)
  {
    var marks: seq<bool> :| |marks| == |all| && a == Marks(all, marks, true) && b == Marks(all, marks, false);
    MarksMore(all, marks, more, true, told);
    MarksMore(all, marks, more, false, told);
    var marks' := marks + Steady(told, |more|);
    assert |marks'| == |all + more|;
  }

  /** Every block up to the deposit checkpoint was looked at for deposits once;
      what the looks showed was delivered or dropped, every deposit once and in
      that order. */
  ghost predicate Accounts(env: Env, cfg: Config, p: Picture, now: nat) {
    && Entry(p.saved, DepositsScanId(cfg)) == After(cfg.depositStart, |p.depositLooks|)
    && Existed(env, cfg.depositStart, p.depositLooks) && ForDeposits(cfg, p.depositLooks, now)
    && Interleaved(p.delivered, p.dropped, Ledger(env, cfg, cfg.depositStart, p.depositLooks))
  }

  /** A checkpoint after `n` blocks, moved by `more` from where it stands. */
  lemma MovedOn(saved: map<string, nat>, id: string, start: nat, n: nat, more: nat)
    requires Entry(saved, id) == After(start, n)
    ensures
      var from := Resume(Entry(saved, id), start);
      && from == start + n
      && Entry(Marked(saved, id, true, from, more), id) == After(start, n + more)
      && ScannedOn(Entry(saved, id), from, more) == After(start, n + more)
  {
  }

  /** A scan that resumed at its checkpoint never takes it back, and leaves every
      other checkpoint alone. */
  lemma MovedForward(saved: map<string, nat>, id: string, other: string, start: nat, more: nat)
    requires id != other
    ensures
      var m := Marked(saved, id, true, Resume(Entry(saved, id), start), more);
      NotBefore(Entry(saved, id), Entry(m, id)) && Entry(m, other) == Entry(saved, other)
  {
  }

  lemma RegistryFolds(env: Env, cfg: Config, p: Picture, p': Picture, more: seq<Look>, t: nat, t': nat)
    requires RegistryStep(env, cfg, true, p, p', more, t, t')
    requires RegistryFrom(cfg, p) == RegistryStart(cfg) + |p.looks| && Folded(env, cfg, p.looks, p.merchants, p.hooks)
    ensures Folded(env, cfg, p'.looks, p'.merchants, p'.hooks)
  {
    var from := RegistryFrom(cfg, p);
    var seen := Scan(Eye(env), from, more);
    FoldedMore(env, cfg, p.looks, p.merchants, p.hooks, from, more, Receivers(cfg, seen), Webhooks(cfg, seen));
  }

  lemma RegistryMoves(env: Env, cfg: Config, p: Picture, p': Picture, more: seq<Look>, t: nat, t': nat)
    requires RegistryStep(env, cfg, true, p, p', more, t, t')
    requires Entry(p.saved, RegistryScanId(cfg)) == After(RegistryStart(cfg), |p.looks|)
    ensures RegistryFrom(cfg, p) == RegistryStart(cfg) + |p.looks|
    ensures Entry(p'.saved, RegistryScanId(cfg)) == After(RegistryStart(cfg), |p'.looks|)
  {
    MovedOn(p.saved, RegistryScanId(cfg), RegistryStart(cfg), |p.looks|, |more|);
  }

  lemma RegistryLooks(env: Env, cfg: Config, p: Picture, p': Picture, more: seq<Look>, t: nat, t': nat)
    requires RegistryStep(env, cfg, true, p, p', more, t, t')
    requires RegistryFrom(cfg, p) == RegistryStart(cfg) + |p.looks|
    requires Looked(env, RegistryStart(cfg), p.looks, RegistryFilter(cfg), 0, t)
    ensures Looked(env, RegistryStart(cfg), p'.looks, RegistryFilter(cfg), 0, t')
  {
    LookedJoin(env, RegistryStart(cfg), p.looks, RegistryFrom(cfg, p), more, RegistryFilter(cfg), 0, t, t');
  }

  lemma RegistryKeepsMirrors(env: Env, cfg: Config, p: Picture, p': Picture, more: seq<Look>, t: nat, t': nat)
    requires RegistryStep(env, cfg, true, p, p', more, t, t') && Mirrors(env, cfg, p, t)
    ensures Mirrors(env, cfg, p', t')
  {
    RegistryMoves(env, cfg, p, p', more, t, t');
    RegistryLooks(env, cfg, p, p', more, t, t');
    RegistryFolds(env, cfg, p, p', more, t, t');
  }

  /** A discovery call that fails keeps what it already saved as scanned: the
      maps still match the checkpoint exactly when it had saved nothing. */
  lemma FailureMirrorsIff(env: Env, cfg: Config, p: Picture, p': Picture, more: seq<Look>, t: nat, t': nat)
    requires RegistryStep(env, cfg, false, p, p', more, t, t') && Mirrors(env, cfg, p, t)
    ensures Mirrors(env, cfg, p', t') <==> more == []
  {
    MovedOn(p.saved, RegistryScanId(cfg), RegistryStart(cfg), |p.looks|, |more|);
    LookedWider(env, RegistryStart(cfg), p.looks, RegistryFilter(cfg), 0, t, 0, t');
  }

  lemma DepositsKeepMirrors(env: Env, cfg: Config, names: set<Address>, told: bool, p: Picture, p': Picture,
                            paid: seq<Look>, t: nat, t': nat)
    requires DepositStep(env, cfg, names, told, p, p', paid, t, t') && Mirrors(env, cfg, p, t)
    ensures Mirrors(env, cfg, p', t')
  {
    ScanIdsDiffer(cfg);
    MovedForward(p.saved, DepositsScanId(cfg), RegistryScanId(cfg), cfg.depositStart, |paid|);
    LookedWider(env, RegistryStart(cfg), p.looks, RegistryFilter(cfg), 0, t, 0, t');
  }

  /** After a start the maps match the checkpoint exactly when the rebuild
      reached what the checkpoint claimed before. */
  lemma StartMirrorsIff(env: Env, cfg: Config, head: Option<nat>, upTo: nat, p: Picture, p': Picture, d: Detail,
                        t: nat, t': nat)
    requires StartStep(env, cfg, head, true, upTo, p, p', d, t, t')
    ensures Mirrors(env, cfg, p', t') <==> Reaches(upTo, Entry(p.saved, RegistryScanId(cfg)))
  {
    LookedWider(env, RegistryStart(cfg), p'.looks, RegistryFilter(cfg), t, t', 0, t');
  }

  lemma ForDepositsMore(cfg: Config, looks: seq<Look>, t: nat, paid: seq<Look>, names: set<Address>, t': nat)
    requires ForDeposits(cfg, looks, t) && t <= t'
    requires forall i :: 0 <= i < |paid| ==> paid[i].filter == TransferFilter(cfg, names) && paid[i].time < t'
    ensures ForDeposits(cfg, looks + paid, t')
  {
  }

  lemma ExistedJoin(env: Env, lo: nat, a: seq<Look>, mid: nat, b: seq<Look>)
    requires Existed(env, lo, a) && Existed(env, mid, b) && mid == lo + |a|
    ensures Existed(env, lo, a + b)
  {
  }

  lemma InterleavedOn(env: Env, cfg: Config, lo: nat, told: bool, p: Picture, p': Picture, from: nat, paid: seq<Look>)
    requires from == lo + |p.depositLooks| && Interleaved(p.delivered, p.dropped, Ledger(env, cfg, lo, p.depositLooks))
    requires p'.depositLooks == p.depositLooks + paid
    requires p'.delivered == if told then p.delivered + Ledger(env, cfg, from, paid) else p.delivered
    requires p'.dropped == if told then p.dropped else p.dropped + Ledger(env, cfg, from, paid)
    ensures Interleaved(p'.delivered, p'.dropped, Ledger(env, cfg, lo, p'.depositLooks))
  {
    LedgerJoin(env, cfg, lo, p.depositLooks, from, paid);
    InterleavedMore(p.delivered, p.dropped, Ledger(env, cfg, lo, p.depositLooks), Ledger(env, cfg, from, paid), told);
  }

  lemma EntryOn(cfg: Config, p: Picture, p': Picture, paid: seq<Look>)
    requires Entry(p.saved, DepositsScanId(cfg)) == After(cfg.depositStart, |p.depositLooks|)
    requires Entry(p'.saved, DepositsScanId(cfg)) == ScannedOn(Entry(p.saved, DepositsScanId(cfg)), DepositsFrom(cfg, p), |paid|)
    requires |p'.depositLooks| == |p.depositLooks| + |paid|
    ensures DepositsFrom(cfg, p) == cfg.depositStart + |p.depositLooks|
    ensures Entry(p'.saved, DepositsScanId(cfg)) == After(cfg.depositStart, |p'.depositLooks|)
  {
    MovedOn(p.saved, DepositsScanId(cfg), cfg.depositStart, |p.depositLooks|, |paid|);
  }

  lemma LooksOn(env: Env, cfg: Config, names: set<Address>, looks: seq<Look>, t: nat, from: nat, paid: seq<Look>,
                looks': seq<Look>, t': nat)
    requires looks' == looks + paid
    requires Existed(env, cfg.depositStart, looks) && ForDeposits(cfg, looks, t)
    requires from == cfg.depositStart + |looks| && Looked(env, from, paid, TransferFilter(cfg, names), t, t') && t <= t'
    ensures Existed(env, cfg.depositStart, looks') && ForDeposits(cfg, looks', t')
  {
    ForDepositsMore(cfg, looks, t, paid, names, t');
    ExistedJoin(env, cfg.depositStart, looks, from, paid);
  }

  lemma MoreAccounts(env: Env, cfg: Config, names: set<Address>, told: bool, p: Picture, p': Picture,
                     paid: seq<Look>, t: nat, t': nat)
    requires DepositsMore(env, cfg, names, told, p, p', paid, t, t') && Accounts(env, cfg, p, t)
    ensures Accounts(env, cfg, p', t')
  {
    EntryOn(cfg, p, p', paid);
    LooksOn(env, cfg, names, p.depositLooks, t, DepositsFrom(cfg, p), paid, p'.depositLooks, t');
    InterleavedOn(env, cfg, cfg.depositStart, told, p, p', DepositsFrom(cfg, p), paid);
  }

  lemma DepositsKeepAccounts(env: Env, cfg: Config, names: set<Address>, told: bool, p: Picture, p': Picture,
                             paid: seq<Look>, t: nat, t': nat)
    requires DepositStep(env, cfg, names, told, p, p', paid, t, t') && Accounts(env, cfg, p, t)
    ensures Accounts(env, cfg, p', t')
  {
    MovedOn(p.saved, DepositsScanId(cfg), cfg.depositStart, |p.depositLooks|, |paid|);
    MoreAccounts(env, cfg, names, told, p, p', paid, t, t');
  }

  lemma RegistryKeepsAccounts(env: Env, cfg: Config, ok: bool, p: Picture, p': Picture, more: seq<Look>, t: nat,
                              t': nat)
    requires RegistryStep(env, cfg, ok, p, p', more, t, t') && Accounts(env, cfg, p, t)
    ensures Accounts(env, cfg, p', t')
  {
    ScanIdsDiffer(cfg);
    MovedForward(p.saved, RegistryScanId(cfg), DepositsScanId(cfg), RegistryStart(cfg), |more|);
    AccountsLater(env, cfg, p, p', t, t');
  }

  lemma AccountsLater(env: Env, cfg: Config, p: Picture, p': Picture, t: nat, t': nat)
    requires Accounts(env, cfg, p, t) && t <= t' && p'.depositLooks == p.depositLooks
    requires p'.delivered == p.delivered && p'.dropped == p.dropped
    requires Entry(p'.saved, DepositsScanId(cfg)) == Entry(p.saved, DepositsScanId(cfg))
    ensures Accounts(env, cfg, p', t')
  {
  }

  lemma StartKeepsAccounts(env: Env, cfg: Config, head: Option<nat>, ok: bool, upTo: nat, p: Picture, p': Picture,
                           d: Detail, t: nat, t': nat)
    requires StartStep(env, cfg, head, ok, upTo, p, p', d, t, t') && Accounts(env, cfg, p, t)
    ensures Accounts(env, cfg, p', t')
  {
    MoreAccounts(env, cfg, NamedIn(env, cfg, d.more), ok, p, p', d.paid, t, t');
  }

  /** A rebuild up to `upTo` covers what the saved checkpoint claims. */
  predicate Reaches(upTo: nat, saved: Option<nat>) {
    saved.Some? ==> saved.value <= upTo
  }

  // ---- the maps and the chain ------------------------------------------------

  /** Blocks that were buried when they were looked at have not changed since. */
  lemma BuriedUnchanged(env: Env, lo: nat, looks: seq<Look>, n: nat, f: LogFilter, now: nat)
    requires Sane(env) && n <= |looks| && LookedBetween(looks, f, 0, now)
    requires forall i :: 0 <= i < n ==> lo + i + REORG_SAFETY_BLOCKS <= env.Head(looks[i].time)
    ensures Unchanged(env, lo, looks, n, now)
  {
    forall i | 0 <= i < n ensures env.Logs(looks[i].time, lo + i) == env.Logs(now, lo + i) {
      assert Calm(env, looks[i].time, now);
    }
  }

  /** Over every prefix that has not changed since it was seen, the maps hold
      what the two contracts said there, as the chain stands now; behind it, what
      they said when the blocks were looked at. */
  ghost predicate OnChain(env: Env, cfg: Config, p: Picture, now: nat) {
    forall n: nat {:trigger Unchanged(env, RegistryStart(cfg), p.looks, n, now)} ::
      0 < n <= |p.looks| && Unchanged(env, RegistryStart(cfg), p.looks, n, now) ==> OnChainTo(env, cfg, p, n, now)
  }

  ghost predicate OnChainTo(env: Env, cfg: Config, p: Picture, n: nat, now: nat)
    requires 0 < n <= |p.looks|
  {
    var start := RegistryStart(cfg);
    var said := Said(env, cfg, now, start, start + n - 1) + Scan(Ear(env, cfg), start + n, p.looks[n..]);
    && p.merchants == RememberAll(map[], Receivers(cfg, said))
    && p.hooks == InsertAll(map[], Webhooks(cfg, said))
  }

  lemma UnchangedSaid(env: Env, cfg: Config, lo: nat, looks: seq<Look>, now: nat)
    requires looks != [] && Unchanged(env, lo, looks, |looks|, now)
    ensures Scan(Ear(env, cfg), lo, looks) == Said(env, cfg, now, lo, lo + |looks| - 1)
  {
    var steady := Steady(Look(now, RegistryFilter(cfg)), |looks|);
    forall i | 0 <= i < |looks| ensures Ear(env, cfg)(lo + i, looks[i]) == Ear(env, cfg)(lo + i, steady[i]) {
      assert env.Logs(looks[i].time, lo + i) == env.Logs(now, lo + i);
    }
    ScanSame(Ear(env, cfg), lo, looks, steady);
  }

  lemma UnchangedHears(env: Env, cfg: Config, lo: nat, looks: seq<Look>, n: nat, now: nat)
    requires 0 < n <= |looks| && Unchanged(env, lo, looks, n, now)
    ensures Scan(Ear(env, cfg), lo, looks) == Said(env, cfg, now, lo, lo + n - 1) + Scan(Ear(env, cfg), lo + n, looks[n..])
  {
    assert looks == looks[..n] + looks[n..];
    ScanJoin(Ear(env, cfg), lo, looks[..n], lo + n, looks[n..]);
    UnchangedSaid(env, cfg, lo, looks[..n], now);
  }

  /** The maps hold what the two contracts said when the blocks were looked at. */
  ghost predicate Hearing(env: Env, cfg: Config, p: Picture) {
    var said := Scan(Ear(env, cfg), RegistryStart(cfg), p.looks);
    && p.merchants == RememberAll(map[], Receivers(cfg, said))
    && p.hooks == InsertAll(map[], Webhooks(cfg, said))
  }

  lemma MirrorsHear(env: Env, cfg: Config, p: Picture, now: nat)
    requires Mirrors(env, cfg, p, now)
    ensures Hearing(env, cfg, p)
  {
    ScanHears(env, cfg, RegistryStart(cfg), p.looks);
  }

  lemma HearingOnChain(env: Env, cfg: Config, p: Picture, n: nat, now: nat)
    requires Hearing(env, cfg, p) && 0 < n <= |p.looks| && Unchanged(env, RegistryStart(cfg), p.looks, n, now)
    ensures OnChainTo(env, cfg, p, n, now)
  {
    UnchangedHears(env, cfg, RegistryStart(cfg), p.looks, n, now);
  }

  lemma MirrorsOnChainTo(env: Env, cfg: Config, p: Picture, n: nat, now: nat)
    requires Mirrors(env, cfg, p, now) && 0 < n <= |p.looks| && Unchanged(env, RegistryStart(cfg), p.looks, n, now)
    ensures OnChainTo(env, cfg, p, n, now)
  {
    MirrorsHear(env, cfg, p, now);
    HearingOnChain(env, cfg, p, n, now);
  }

  lemma MirrorsOnChain(env: Env, cfg: Config, p: Picture, now: nat)
    requires Mirrors(env, cfg, p, now)
    ensures OnChain(env, cfg, p, now)
  {
    forall n: nat | 0 < n <= |p.looks| && Unchanged(env, RegistryStart(cfg), p.looks, n, now)
      ensures OnChainTo(env, cfg, p, n, now)
    {
      MirrorsOnChainTo(env, cfg, p, n, now);
    }
  }

  // ---- the worker ------------------------------------------------------------

  class EvmState {
    var merchantMap: map<Address, Info>
    var webhookMap: map<string, string>
    ghost var looks: seq<Look>
    ghost var depositLooks: seq<Look>
    ghost var delivered: seq<Deposit>
    ghost var dropped: seq<Deposit>

    constructor ()
      ensures merchantMap == map[] && webhookMap == map[]
      ensures looks == [] && depositLooks == [] && delivered == [] && dropped == []
    {
      merchantMap, webhookMap := map[], map[];
      looks, depositLooks, delivered, dropped := [], [], [], [];
    }

    ghost function View(cache: Cache): Picture
      reads this, cache
    {
      Picture(merchantMap, webhookMap, cache.checkpoints, looks, depositLooks, delivered, dropped)
    }

    method Learn(receivers: seq<Receiver>, webhooks: seq<(Address, string)>)
      modifies this`merchantMap, this`webhookMap
      ensures merchantMap == RememberAll(old(merchantMap), receivers)
      ensures webhookMap == InsertAll(old(webhookMap), webhooks)
    {
      for i := 0 to |receivers|
        invariant merchantMap == RememberAll(old(merchantMap), receivers[..i])
        invariant webhookMap == old(webhookMap)
      {
        assert receivers[..i + 1][..i] == receivers[..i];
        var rec := receivers[i];
        var entry := if rec.receiver in merchantMap then merchantMap[rec.receiver] else Info(rec.merchant, None);
        entry := entry.(merchant := rec.merchant);
        if rec.route.Some? {
          entry := entry.(route := rec.route);
        }
        merchantMap := merchantMap[rec.receiver := entry];
      }
      assert receivers[..|receivers|] == receivers;
      for i := 0 to |webhooks|
        invariant merchantMap == RememberAll(old(merchantMap), receivers)
        invariant webhookMap == InsertAll(old(webhookMap), webhooks[..i])
      {
        assert webhooks[..i + 1][..i] == webhooks[..i];
        webhookMap := webhookMap[AddressText(webhooks[i].0) := webhooks[i].1];
      }
      assert webhooks[..|webhooks|] == webhooks;
    }

    /** A tip with a backlog or activity: scan for real, from the checkpoint. */
    method DiscoverTip(env: Env, cache: Cache, cfg: Config, to: nat, start: nat)
      returns (ok: bool, now: nat, ghost more: seq<Look>)
      requires Sane(env)
      modifies this`merchantMap, this`webhookMap, this`looks, cache`checkpoints
      ensures RegistryStep(env, cfg, ok, old(View(cache)), View(cache), more, start, now)
      ensures !ok ==> Trouble(env, RegistryFilter(cfg), true, start, now)
      ensures ok ==> GotTo(env, RegistryFilter(cfg), RegistryFrom(cfg, old(View(cache))), |more|, to, start, now)
    {
      var out, receivers, webhooks;
      out, receivers, webhooks, now, more := DiscoverRegistryActivity(env, cache, cfg, to, start);
      ok := out.Streamed?;
      if ok {
        Learn(receivers, webhooks);
        looks := looks + more;
      }
    }

    /** A quiet block right after the checkpoint: marked scanned, not scanned.
        That is what looking at it would have come to. */
    method QuietTip(env: Env, cache: Cache, cfg: Config, block: nat, start: nat)
      returns (now: nat, ghost more: seq<Look>)
      requires block <= env.Head(start) && Quiet(env, cfg, block, start)
      requires RegistryFrom(cfg, View(cache)) == block
      modifies this`looks, cache`checkpoints
      ensures RegistryStep(env, cfg, true, old(View(cache)), View(cache), more, start, now)
      ensures start in env.killed || start in env.diskFull || |more| == 1
    {
      now, more := start + 1, [];
      if start in env.killed {
        return;
      }
      FoundQuiet(env, cfg, block, start);
      var written := cache.SetCheckpoint(RegistryScanId(cfg), block, start !in env.diskFull);
      if written {
        more := [Look(start, RegistryFilter(cfg))];
        looks := looks + more;
      }
    }

    /** The registry half of a tip. `ok` is false when discovery failed. */
    method RegistryTip(env: Env, cache: Cache, cfg: Config, tip: EvmTip, start: nat)
      returns (ok: bool, now: nat, ghost more: seq<Look>)
      requires Sane(env) && TruthfulTip(env, cfg, tip, start)
      modifies this`merchantMap, this`webhookMap, this`looks, cache`checkpoints
      ensures RegistryStep(env, cfg, ok, old(View(cache)), View(cache), more, start, now)
      ensures !ok ==> Trouble(env, RegistryFilter(cfg), true, start, now)
      ensures ok && start !in env.killed && start !in env.diskFull ==>
        GotTo(env, RegistryFilter(cfg), RegistryFrom(cfg, old(View(cache))), |more|, tip.blockNumber, start, now)
    {
      ok, now, more := true, start, [];
      var saved := cache.GetCheckpoint(RegistryScanId(cfg));
      var watermark := Resume(saved, RegistryStart(cfg));
      var hasBacklog := watermark < tip.blockNumber;
      if watermark <= tip.blockNumber && (tip.registryActivity || tip.webhookActivity || hasBacklog) {
        ok, now, more := DiscoverTip(env, cache, cfg, tip.blockNumber, start);
      } else if watermark == tip.blockNumber {
        now, more := QuietTip(env, cache, cfg, tip.blockNumber, start);
      }
    }

    /** The deposit half: every tip, with every receiver known by now. */
    method DepositTip(env: Env, cache: Cache, cfg: Config, to: nat, start: nat)
      returns (ok: bool, ds: seq<Deposit>, now: nat, ghost paid: seq<Look>)
      requires Sane(env)
      modifies this`depositLooks, this`delivered, this`dropped, cache`checkpoints
      ensures DepositStep(env, cfg, merchantMap.Keys, ok, old(View(cache)), View(cache), paid, start, now)
      ensures delivered == old(delivered) + ds
      ensures !ok ==> Trouble(env, TransferFilter(cfg, merchantMap.Keys), true, start, now)
      ensures ok && merchantMap.Keys != {} ==>
        GotTo(env, TransferFilter(cfg, merchantMap.Keys), DepositsFrom(cfg, old(View(cache))), |paid|, to, start, now)
    {
      var receivers := merchantMap.Keys;
      ok, now, ds, paid := true, start, [], [];
      if receivers == {} {
        return;
      }
      var saved := cache.GetCheckpoint(DepositsScanId(cfg));
      if Resume(saved, cfg.depositStart) > to {
        return;
      }
      var out, found;
      out, found, now, paid := FetchDepositsSinceBlock(env, cache, cfg, receivers, to, start);
      depositLooks := depositLooks + paid;
      if out.Streamed? && now !in env.killed {
        ds := found;
        delivered := delivered + ds;
      } else {
        ok := false;
        dropped := dropped + Ledger(env, cfg, DepositsFrom(cfg, old(View(cache))), paid);
        if out.Streamed? {
          TroubleNow(env, TransferFilter(cfg, receivers), true, start, now);
        }
      }
    }

    /** A tip, start to end: registry first, then deposits for what is known. */
    method ProcessEvmTip(env: Env, cache: Cache, cfg: Config, tip: EvmTip, start: nat)
      returns (ok: bool, deposited: bool, ds: seq<Deposit>, now: nat, ghost d: Detail)
      requires Sane(env) && TruthfulTip(env, cfg, tip, start)
      modifies this`merchantMap, this`webhookMap, this`looks, this`depositLooks, this`delivered, this`dropped
      modifies cache`checkpoints
      ensures TipStep(env, cfg, tip.blockNumber, ok, deposited, old(View(cache)), View(cache), d, start, now)
      ensures delivered == old(delivered) + ds
    {
      ghost var more, paid;
      ok, now, more := RegistryTip(env, cache, cfg, tip, start);
      ghost var mid, midTime := View(cache), now;
      ScanIdsDiffer(cfg);
      MovedForward(old(cache.checkpoints), RegistryScanId(cfg), DepositsScanId(cfg), RegistryStart(cfg), |more|);
      deposited, ds, now, paid := DepositTip(env, cache, cfg, tip.blockNumber, now);
      d := Detail(more, paid, mid, midTime);
    }

    /** The catch-up scans of a start. What the deposit scan found is delivered
        only when the whole call returns well. */
    method CatchUpScans(env: Env, cache: Cache, cfg: Config, head: Option<nat>, start: nat)
      returns (r: CatchUp, now: nat, ghost seen: seq<Look>, ghost paid: seq<Look>)
      requires Sane(env) && SoundCache(env, cfg, start, cache.chunks)
      requires head.Some? ==> head.value <= env.Head(start)
      modifies this`depositLooks, this`delivered, this`dropped, cache`chunks, cache`checkpoints
      ensures SoundCache(env, cfg, now, cache.chunks) && OwnChunks(cfg, old(cache.chunks), cache.chunks)
      ensures Scanned(env, cfg, head, r, old(View(cache)), View(cache), Detail(seen, paid, View(cache), now), start, now)
      ensures r.CaughtUp? ==> delivered == old(delivered) + r.deposits
    {
      ghost var found;
      r, now, seen, paid, found := RunEvmCatchup(env, cache, cfg, head, start);
      depositLooks := depositLooks + paid;
      if r.CaughtUp? {
        delivered := delivered + r.deposits;
      } else {
        dropped := dropped + found;
      }
    }

    /** A process start: memory is empty, the disk is what it was. */
    method Restart(env: Env, cache: Cache, cfg: Config, head: Option<nat>, start: nat)
      returns (ok: bool, upTo: nat, ds: seq<Deposit>, now: nat, ghost d: Detail)
      requires Sane(env) && SoundCache(env, cfg, start, cache.chunks)
      requires head.Some? ==> head.value <= env.Head(start)
      modifies this, cache`chunks, cache`checkpoints
      ensures SoundCache(env, cfg, now, cache.chunks) && OwnChunks(cfg, old(cache.chunks), cache.chunks)
      ensures StartStep(env, cfg, head, ok, upTo, old(View(cache)), View(cache), d, start, now)
      ensures delivered == old(delivered) + ds
    {
      var r;
      ghost var seen, paid;
      r, now, seen, paid := CatchUpScans(env, cache, cfg, head, start);
      d := Detail(seen, paid, View(cache), now);
      merchantMap, webhookMap, looks := map[], map[], [];
      ok, upTo, ds := r.CaughtUp?, 0, [];
      if ok {
        upTo, ds, looks := r.upTo, r.deposits, seen;
        Learn(r.receivers, r.webhooks);
      }
      Begun(env, cfg, head, r, upTo, old(View(cache)), d.mid, View(cache), d, start, now);
    }
  }

  // ---- whole runs ----------------------------------------------------------

  /** What can happen to the process: a tip (with activity flags that may be
      raised for nothing, as the reconcile tick does), a restart with what the
      head endpoint answers, or time going by. */
  datatype Action =
    | TipArrives(block: nat, flagged: bool)
    | ProcessStarts(head: Option<nat>)
    | TimePasses(steps: nat)

  /** What came of each action. */
  datatype Happening =
    | TipDone(discovered: bool, deposited: bool)
    | Started(ok: bool, upTo: nat, saved: Option<nat>)
    | Waited

  /** No discovery call failed since the last start, and that start's rebuild
      reached the checkpoint it found on disk. */
  predicate Healthy(log: seq<Happening>) {
    if log == [] then true
    else
      match log[|log| - 1]
      case TipDone(discovered, _) => discovered && Healthy(log[..|log| - 1])
      case Started(ok, upTo, saved) => ok && Reaches(upTo, saved)
      case Waited => Healthy(log[..|log| - 1])
  }

  datatype Moment = Moment(picture: Picture, time: nat)

  function TipBlock(env: Env, block: nat, t: nat): nat {
    LogCache.Min(block, env.Head(t))
  }

  function HeadAt(env: Env, head: Option<nat>, t: nat): Option<nat> {
    if head.Some? then Some(TipBlock(env, head.value, t)) else None
  }

  /** What one action does, and how. */
  ghost predicate Stepped(env: Env, cfg: Config, action: Action, h: Happening, d: Detail, m: Moment, m': Moment) {
    var p, p', t, t' := m.picture, m'.picture, m.time, m'.time;
    match (action, h)
    case (TipArrives(block, _), TipDone(discovered, deposited)) =>
      TipStep(env, cfg, TipBlock(env, block, t), discovered, deposited, p, p', d, t, t')
    case (ProcessStarts(head), Started(ok, upTo, saved)) =>
      StartStep(env, cfg, HeadAt(env, head, t), ok, upTo, p, p', d, t, t') && saved == Entry(p.saved, RegistryScanId(cfg))
    case (TimePasses(steps), Waited) => p' == p && t' == t + steps && d.more == [] && d.paid == []
    case _ => false
  }

  lemma StepKeepsAccounts(env: Env, cfg: Config, action: Action, h: Happening, d: Detail, m: Moment, m': Moment)
    requires Stepped(env, cfg, action, h, d, m, m') && Accounts(env, cfg, m.picture, m.time)
    ensures Accounts(env, cfg, m'.picture, m'.time)
  {
    var p, p', t, t' := m.picture, m'.picture, m.time, m'.time;
    match h
    case TipDone(discovered, deposited) =>
      RegistryKeepsAccounts(env, cfg, discovered, p, d.mid, d.more, t, d.midTime);
      DepositsKeepAccounts(env, cfg, p'.merchants.Keys, deposited, d.mid, p', d.paid, d.midTime, t');
    case Started(ok, upTo, _) => StartKeepsAccounts(env, cfg, HeadAt(env, action.head, t), ok, upTo, p, p', d, t, t');
    case Waited => AccountsLater(env, cfg, p, p', t, t');
  }

  lemma StepKeepsMirrors(env: Env, cfg: Config, action: Action, h: Happening, d: Detail, m: Moment, m': Moment)
    requires Stepped(env, cfg, action, h, d, m, m')
    requires match h
             case TipDone(discovered, _) => discovered && Mirrors(env, cfg, m.picture, m.time)
             case Started(ok, upTo, saved) => ok && Reaches(upTo, saved)
             case Waited => Mirrors(env, cfg, m.picture, m.time)
    ensures Mirrors(env, cfg, m'.picture, m'.time)
  {
    var p, p', t, t' := m.picture, m'.picture, m.time, m'.time;
    match h
    case TipDone(_, deposited) =>
      RegistryKeepsMirrors(env, cfg, p, d.mid, d.more, t, d.midTime);
      DepositsKeepMirrors(env, cfg, p'.merchants.Keys, deposited, d.mid, p', d.paid, d.midTime, t');
    case Started(_, upTo, _) => StartMirrorsIff(env, cfg, HeadAt(env, action.head, t), upTo, p, p', d, t, t');
    case Waited => LookedWider(env, RegistryStart(cfg), p.looks, RegistryFilter(cfg), 0, t, 0, t');
  }

  /** Neither checkpoint goes back, and time does not either. */
  ghost predicate Onward(cfg: Config, m: Moment, m': Moment) {
    && m.time <= m'.time
    && NotBefore(Entry(m.picture.saved, RegistryScanId(cfg)), Entry(m'.picture.saved, RegistryScanId(cfg)))
    && NotBefore(Entry(m.picture.saved, DepositsScanId(cfg)), Entry(m'.picture.saved, DepositsScanId(cfg)))
  }

  lemma StepOnward(env: Env, cfg: Config, action: Action, h: Happening, d: Detail, m: Moment, m': Moment)
    requires Stepped(env, cfg, action, h, d, m, m')
    ensures Onward(cfg, m, m')
  {
    ScanIdsDiffer(cfg);
    if h.TipDone? {
      MovedForward(m.picture.saved, RegistryScanId(cfg), DepositsScanId(cfg), RegistryStart(cfg), |d.more|);
      MovedForward(d.mid.saved, DepositsScanId(cfg), RegistryScanId(cfg), cfg.depositStart, |d.paid|);
    }
  }

  lemma OnwardJoin(cfg: Config, a: Moment, b: Moment, c: Moment)
    requires Onward(cfg, a, b) && Onward(cfg, b, c)
    ensures Onward(cfg, a, c)
  {
  }

  /** Before the first start. */
  ghost function Blank(): Picture {
    Picture(map[], map[], map[], [], [], [], [])
  }

  /** A whole run, moment by moment, from nothing saved on. */
  ghost predicate Trail(env: Env, cfg: Config, script: seq<Action>, log: seq<Happening>, details: seq<Detail>,
                        trail: seq<Moment>)
  {
    && |script| == |log| == |details| && |trail| == |log| + 1
    && trail[0].picture == Blank()
    && forall i :: 0 <= i < |log| ==> StepAt(env, cfg, script, log, details, trail, i)
  }

  ghost predicate StepAt(env: Env, cfg: Config, script: seq<Action>, log: seq<Happening>, details: seq<Detail>,
                         trail: seq<Moment>, i: nat)
    requires |script| == |log| == |details| && |trail| == |log| + 1 && i < |log|
  {
    Stepped(env, cfg, script[i], log[i], details[i], trail[i], trail[i + 1])
  }

  lemma TrailNext(env: Env, cfg: Config, script: seq<Action>, log: seq<Happening>, details: seq<Detail>,
                  trail: seq<Moment>, action: Action, h: Happening, d: Detail, m: Moment)
    requires Trail(env, cfg, script, log, details, trail) && Stepped(env, cfg, action, h, d, trail[|log|], m)
    ensures Trail(env, cfg, script + [action], log + [h], details + [d], trail + [m])
  {
    var script', log', details', trail' := script + [action], log + [h], details + [d], trail + [m];
    forall i | 0 <= i < |log'| ensures StepAt(env, cfg, script', log', details', trail', i) {
      if i < |log| {
        assert StepAt(env, cfg, script, log, details, trail, i);
      }
    }
  }

  lemma AccountsNext(env: Env, cfg: Config, script: seq<Action>, log: seq<Happening>, details: seq<Detail>,
                     trail: seq<Moment>, k: nat)
    requires Trail(env, cfg, script, log, details, trail) && k < |log|
    requires Accounts(env, cfg, trail[k].picture, trail[k].time)
    ensures Accounts(env, cfg, trail[k + 1].picture, trail[k + 1].time)
  {
    assert StepAt(env, cfg, script, log, details, trail, k);
    StepKeepsAccounts(env, cfg, script[k], log[k], details[k], trail[k], trail[k + 1]);
  }

  /** In every run, at every moment, the deposits are accounted for. */
  lemma {:induction false} RunAccounts(env: Env, cfg: Config, script: seq<Action>, log: seq<Happening>,
                                       details: seq<Detail>, trail: seq<Moment>, k: nat)
    requires Trail(env, cfg, script, log, details, trail) && k <= |log|
    ensures Accounts(env, cfg, trail[k].picture, trail[k].time)
  {
    if k > 0 {
      RunAccounts(env, cfg, script, log, details, trail, k - 1);
      AccountsNext(env, cfg, script, log, details, trail, k - 1);
    }
  }

  /** In every run, at every moment up to which it was healthy, the maps are the
      fold of the registry up to the checkpoint. */
  lemma {:induction false} RunMirrors(env: Env, cfg: Config, script: seq<Action>, log: seq<Happening>,
                                      details: seq<Detail>, trail: seq<Moment>, k: nat)
    requires Trail(env, cfg, script, log, details, trail) && k <= |log| && Healthy(log[..k])
    ensures Mirrors(env, cfg, trail[k].picture, trail[k].time)
  {
    if k > 0 {
      var h := log[k - 1];
      assert log[..k][..k - 1] == log[..k - 1] && log[..k][k - 1] == h;
      if !h.Started? {
        RunMirrors(env, cfg, script, log, details, trail, k - 1);
      }
      assert StepAt(env, cfg, script, log, details, trail, k - 1);
      StepKeepsMirrors(env, cfg, script[k - 1], h, details[k - 1], trail[k - 1], trail[k]);
    }
  }

  /** In every run the checkpoints only move forward. */
  lemma {:induction false} RunOnward(env: Env, cfg: Config, script: seq<Action>, log: seq<Happening>,
                                     details: seq<Detail>, trail: seq<Moment>, i: nat, k: nat)
    requires Trail(env, cfg, script, log, details, trail) && i <= k <= |log|
    ensures Onward(cfg, trail[i], trail[k])
    decreases k
  {
    if i < k {
      RunOnward(env, cfg, script, log, details, trail, i, k - 1);
      assert StepAt(env, cfg, script, log, details, trail, k - 1);
      StepOnward(env, cfg, script[k - 1], log[k - 1], details[k - 1], trail[k - 1], trail[k]);
      OnwardJoin(cfg, trail[i], trail[k - 1], trail[k]);
    }
  }

  // ---- what a receiver is paid -------------------------------------------------

  /** The receivers whose payments a step looked for. */
  ghost function StepNames(env: Env, cfg: Config, h: Happening, d: Detail, m': Moment): set<Address> {
    match h
    case TipDone(_, _) => m'.picture.merchants.Keys
    case Started(_, _, _) => NamedIn(env, cfg, d.more)
    case Waited => {}
  }

  /** Whether the worker got to act on what a step found. */
  predicate Told(h: Happening) {
    match h
    case TipDone(_, deposited) => deposited
    case Started(ok, _, _) => ok
    case Waited => true
  }

  /** What the blocks a step scanned for deposits paid `r`, as they stood. */
  ghost function StepPaid(env: Env, cfg: Config, d: Detail, m: Moment, r: Address): nat {
    ChainPaid(env, cfg, DepositsFrom(cfg, m.picture), d.paid, r)
  }

  /** ... and how much of that the worker never got to see: all of it when the
      step did not look for `r` or came to nothing, else none. */
  ghost function StepMissed(env: Env, cfg: Config, h: Happening, d: Detail, m: Moment, m': Moment, r: Address): nat {
    if Told(h) && r in StepNames(env, cfg, h, d, m') then 0 else StepPaid(env, cfg, d, m, r)
  }

  ghost function Missed(env: Env, cfg: Config, log: seq<Happening>, details: seq<Detail>, trail: seq<Moment>,
                        i: nat, k: nat, r: Address): nat
    requires i <= k <= |log| == |details| && |trail| == |log| + 1
  {
    if i == k then 0
    else
      Missed(env, cfg, log, details, trail, i, k - 1, r)
        + StepMissed(env, cfg, log[k - 1], details[k - 1], trail[k - 1], trail[k], r)
  }

  /** Everything the blocks scanned for deposits so far paid `r`, as they stood. */
  ghost function AllPaid(env: Env, cfg: Config, p: Picture, r: Address): nat {
    ChainPaid(env, cfg, cfg.depositStart, p.depositLooks, r)
  }

  /** Between two moments the blocks scanned for deposits paid `r` what was
      delivered for it in the meantime, and `missed` on top. */
  ghost predicate PaidSince(env: Env, cfg: Config, a: Picture, c: Picture, r: Address, missed: nat) {
    && a.depositLooks <= c.depositLooks
    && AllPaid(env, cfg, c, r) - AllPaid(env, cfg, a, r) == Total(c.delivered, r) - Total(a.delivered, r) + missed
  }

  lemma PaidJoin(env: Env, cfg: Config, a: Picture, b: Picture, c: Picture, r: Address, m: nat, n: nat)
    requires PaidSince(env, cfg, a, b, r, m) && PaidSince(env, cfg, b, c, r, n)
    ensures PaidSince(env, cfg, a, c, r, m + n)
  {
  }

  /** What a scan for `names` finds for `r`: everything, or nothing. */
  lemma FoundFor(env: Env, cfg: Config, names: set<Address>, from: nat, paid: seq<Look>, r: Address)
    requires names == {} ==> paid == []
    requires forall i :: 0 <= i < |paid| ==> paid[i].filter == TransferFilter(cfg, names)
    ensures Total(Ledger(env, cfg, from, paid), r) == if r in names then ChainPaid(env, cfg, from, paid, r) else 0
  {
    if r in names {
      assert forall i :: 0 <= i < |paid| ==> Watches(cfg, paid[i], r);
      LedgerTotal(env, cfg, from, paid, r);
    } else if names != {} {
      LedgerOthers(env, cfg, names, from, paid, r);
    }
  }

  lemma DeliveredMore(env: Env, cfg: Config, names: set<Address>, told: bool, p: Picture, p': Picture, paid: seq<Look>,
                      from: nat, r: Address)
    requires names == {} ==> paid == []
    requires forall i :: 0 <= i < |paid| ==> paid[i].filter == TransferFilter(cfg, names)
    requires from == cfg.depositStart + |p.depositLooks| && p'.depositLooks == p.depositLooks + paid
    requires p'.delivered == if told then p.delivered + Ledger(env, cfg, from, paid) else p.delivered
    ensures PaidSince(env, cfg, p, p', r, if told && r in names then 0 else ChainPaid(env, cfg, from, paid, r))
  {
    ChainPaidJoin(env, cfg, cfg.depositStart, p.depositLooks, from, paid, r);
    if told {
      FoundFor(env, cfg, names, from, paid, r);
      TotalAppend(p.delivered, Ledger(env, cfg, from, paid), r);
    }
  }

  lemma StepPays(env: Env, cfg: Config, action: Action, h: Happening, d: Detail, m: Moment, m': Moment, r: Address)
    requires Stepped(env, cfg, action, h, d, m, m') && Accounts(env, cfg, m.picture, m.time)
    ensures PaidSince(env, cfg, m.picture, m'.picture, r, StepMissed(env, cfg, h, d, m, m', r))
  {
    var p := m.picture;
    MovedOn(p.saved, DepositsScanId(cfg), cfg.depositStart, |p.depositLooks|, 0);
    if h.TipDone? {
      ScanIdsDiffer(cfg);
      MovedForward(p.saved, RegistryScanId(cfg), DepositsScanId(cfg), RegistryStart(cfg), |d.more|);
    }
    DeliveredMore(env, cfg, StepNames(env, cfg, h, d, m'), Told(h), p, m'.picture, d.paid, DepositsFrom(cfg, p), r);
  }

  lemma StepPaysAt(env: Env, cfg: Config, script: seq<Action>, log: seq<Happening>, details: seq<Detail>,
                   trail: seq<Moment>, j: nat, r: Address)
    requires Trail(env, cfg, script, log, details, trail) && j < |log|
    ensures PaidSince(env, cfg, trail[j].picture, trail[j + 1].picture, r,
                      StepMissed(env, cfg, log[j], details[j], trail[j], trail[j + 1], r))
  {
    RunAccounts(env, cfg, script, log, details, trail, j);
    assert StepAt(env, cfg, script, log, details, trail, j);
    StepPays(env, cfg, script[j], log[j], details[j], trail[j], trail[j + 1], r);
  }

  lemma NoneSince(env: Env, cfg: Config, p: Picture, r: Address)
    ensures PaidSince(env, cfg, p, p, r, 0)
  {
  }

  ghost predicate PaysTo(env: Env, cfg: Config, log: seq<Happening>, details: seq<Detail>, trail: seq<Moment>,
                         i: nat, k: nat, r: Address)
    requires i <= k <= |log| == |details| && |trail| == |log| + 1
  {
    PaidSince(env, cfg, trail[i].picture, trail[k].picture, r, Missed(env, cfg, log, details, trail, i, k, r))
  }

  lemma PaysOn(env: Env, cfg: Config, log: seq<Happening>, details: seq<Detail>, trail: seq<Moment>, i: nat, k: nat,
               r: Address)
    requires i <= k < |log| == |details| && |trail| == |log| + 1 && PaysTo(env, cfg, log, details, trail, i, k, r)
    requires PaidSince(env, cfg, trail[k].picture, trail[k + 1].picture, r,
                       StepMissed(env, cfg, log[k], details[k], trail[k], trail[k + 1], r))
    ensures PaysTo(env, cfg, log, details, trail, i, k + 1, r)
  {
    PaidJoin(env, cfg, trail[i].picture, trail[k].picture, trail[k + 1].picture, r,
             Missed(env, cfg, log, details, trail, i, k, r),
             StepMissed(env, cfg, log[k], details[k], trail[k], trail[k + 1], r));
  }

  lemma PaysNone(env: Env, cfg: Config, log: seq<Happening>, details: seq<Detail>, trail: seq<Moment>, i: nat, r: Address)
    requires i <= |log| == |details| && |trail| == |log| + 1
    ensures PaysTo(env, cfg, log, details, trail, i, i, r)
  {
    NoneSince(env, cfg, trail[i].picture, r);
  }

  lemma PaysNext(env: Env, cfg: Config, script: seq<Action>, log: seq<Happening>, details: seq<Detail>,
                 trail: seq<Moment>, i: nat, k: nat, next: nat, r: Address)
    requires Trail(env, cfg, script, log, details, trail) && i <= k < next == k + 1 <= |log|
    requires PaysTo(env, cfg, log, details, trail, i, k, r)
    ensures PaysTo(env, cfg, log, details, trail, i, next, r)
  {
    StepPaysAt(env, cfg, script, log, details, trail, k, r);
    PaysOn(env, cfg, log, details, trail, i, k, r);
  }

  /** For every run, any two of its moments and any receiver: what was delivered
      for it in between and what was missed add up to what the blocks scanned in
      between paid it. */
  lemma {:induction false} RunPays(env: Env, cfg: Config, script: seq<Action>, log: seq<Happening>,
                                   details: seq<Detail>, trail: seq<Moment>, i: nat, k: nat, r: Address)
    requires Trail(env, cfg, script, log, details, trail) && i <= k <= |log|
    ensures PaysTo(env, cfg, log, details, trail, i, k, r)
    decreases k
  {
    if i < k {
      RunPays(env, cfg, script, log, details, trail, i, k - 1, r);
      PaysNext(env, cfg, script, log, details, trail, i, k - 1, k, r);
    } else {
      PaysNone(env, cfg, log, details, trail, i, r);
    }
  }

  /** The step missed nothing of `r`'s: it looked for `r` and was told, or the
      blocks it scanned paid `r` nothing. */
  ghost predicate StepServes(env: Env, cfg: Config, log: seq<Happening>, details: seq<Detail>, trail: seq<Moment>,
                             j: nat, r: Address)
    requires j < |log| == |details| && |trail| == |log| + 1
  {
    || (Told(log[j]) && r in StepNames(env, cfg, log[j], details[j], trail[j + 1]))
    || StepPaid(env, cfg, details[j], trail[j], r) == 0
  }

  lemma StepMissedIff(env: Env, cfg: Config, log: seq<Happening>, details: seq<Detail>, trail: seq<Moment>, j: nat,
                      r: Address)
    requires j < |log| == |details| && |trail| == |log| + 1
    ensures StepMissed(env, cfg, log[j], details[j], trail[j], trail[j + 1], r) == 0
      <==> StepServes(env, cfg, log, details, trail, j, r)
  {
  }

  ghost predicate Serves(env: Env, cfg: Config, log: seq<Happening>, details: seq<Detail>, trail: seq<Moment>,
                         i: nat, k: nat, r: Address)
    requires i <= k <= |log| == |details| && |trail| == |log| + 1
  {
    forall j :: i <= j < k ==> StepServes(env, cfg, log, details, trail, j, r)
  }

  lemma ServesNext(env: Env, cfg: Config, log: seq<Happening>, details: seq<Detail>, trail: seq<Moment>, i: nat, k: nat,
                   r: Address)
    requires i <= k < |log| == |details| && |trail| == |log| + 1
    ensures Serves(env, cfg, log, details, trail, i, k + 1, r)
      == (Serves(env, cfg, log, details, trail, i, k, r) && StepServes(env, cfg, log, details, trail, k, r))
  {
  }

  lemma MissedNext(env: Env, cfg: Config, log: seq<Happening>, details: seq<Detail>, trail: seq<Moment>, i: nat, k: nat,
                   r: Address)
    requires i <= k < |log| == |details| && |trail| == |log| + 1
    ensures (Missed(env, cfg, log, details, trail, i, k + 1, r) == 0)
      == (Missed(env, cfg, log, details, trail, i, k, r) == 0 && StepServes(env, cfg, log, details, trail, k, r))
  {
    StepMissedIff(env, cfg, log, details, trail, k, r);
  }

  lemma {:induction false} MissedIff(env: Env, cfg: Config, log: seq<Happening>, details: seq<Detail>,
                                     trail: seq<Moment>, i: nat, k: nat, r: Address)
    requires i <= k <= |log| == |details| && |trail| == |log| + 1
    ensures (Missed(env, cfg, log, details, trail, i, k, r) == 0) == Serves(env, cfg, log, details, trail, i, k, r)
    decreases k
  {
    if i == k {
      assert Missed(env, cfg, log, details, trail, i, k, r) == 0;
    } else {
      var j := k - 1;
      MissedIff(env, cfg, log, details, trail, i, j, r);
      MissedNext(env, cfg, log, details, trail, i, j, r);
      ServesNext(env, cfg, log, details, trail, i, j, r);
    }
  }

  lemma PaidOnce(env: Env, cfg: Config, a: Picture, c: Picture, r: Address, missed: nat)
    requires PaidSince(env, cfg, a, c, r, missed)
    ensures PaidSince(env, cfg, a, c, r, 0) <==> missed == 0
  {
  }

  /** What the blocks scanned between two moments of a run paid a receiver is
      what was delivered for it, none missed and none twice, exactly when every
      step in between that scanned a payment to it looked for it and came to its
      end: no start that failed behind its deposit scan, no process that died
      behind the checkpoint, no receiver missing from the filter. */
  lemma RunPaysIff(env: Env, cfg: Config, script: seq<Action>, log: seq<Happening>, details: seq<Detail>,
                   trail: seq<Moment>, i: nat, k: nat, r: Address)
    requires Trail(env, cfg, script, log, details, trail) && i <= k <= |log|
    ensures PaidSince(env, cfg, trail[i].picture, trail[k].picture, r, 0)
      <==> Serves(env, cfg, log, details, trail, i, k, r)
  {
    RunPays(env, cfg, script, log, details, trail, i, k, r);
    PaidOnce(env, cfg, trail[i].picture, trail[k].picture, r, Missed(env, cfg, log, details, trail, i, k, r));
    MissedIff(env, cfg, log, details, trail, i, k, r);
  }

  // ---- the run ---------------------------------------------------------------

  method Act(env: Env, cache: Cache, cfg: Config, state: EvmState, action: Action, start: nat)
    returns (h: Happening, now: nat, ghost d: Detail)
    requires Sane(env) && SoundCache(env, cfg, start, cache.chunks)
    modifies state, cache
    ensures SoundCache(env, cfg, now, cache.chunks) && OwnChunks(cfg, old(cache.chunks), cache.chunks)
    ensures Stepped(env, cfg, action, h, d, Moment(old(state.View(cache)), start), Moment(state.View(cache), now))
  {
    match action
    case TipArrives(block, flagged) =>
      var at := TipBlock(env, block, start);
      var active := flagged || RegistryFilter(cfg).Pick(env.Logs(start, at)) != [];
      var ok, deposited, ds;
      ok, deposited, ds, now, d := state.ProcessEvmTip(env, cache, cfg, EvmTip(at, active, active), start);
      SoundLater(env, cfg, start, now, cache.chunks);
      h := TipDone(ok, deposited);
    case ProcessStarts(head) =>
      var answer := HeadAt(env, head, start);
      var saved := cache.GetCheckpoint(RegistryScanId(cfg));
      var ok, upTo, ds;
      ok, upTo, ds, now, d := state.Restart(env, cache, cfg, answer, start);
      h := Started(ok, upTo, saved);
    case TimePasses(steps) =>
      now := start + steps;
      d := Detail([], [], state.View(cache), start);
      SoundLater(env, cfg, start, now, cache.chunks);
      h := Waited;
  }

  /** Any script of actions, from an empty disk on, crashes and failures
      included. The cache stays sound; the deposits are accounted for at every
      moment; the checkpoints never go back; and while the run is healthy the
      maps are the fold of the registry, which the chain still holds wherever it
      has not changed since. */
  method Run(env: Env, cache: Cache, cfg: Config, state: EvmState, script: seq<Action>, start: nat)
    returns (log: seq<Happening>, now: nat, ghost details: seq<Detail>, ghost trail: seq<Moment>)
    requires Sane(env) && cache.chunks == map[] && state.View(cache) == Blank()
    modifies state, cache
    ensures Trail(env, cfg, script, log, details, trail)
    ensures trail[|log|] == Moment(state.View(cache), now) && trail[0].time == start
    ensures SoundCache(env, cfg, now, cache.chunks)
    ensures Accounts(env, cfg, state.View(cache), now)
    ensures Healthy(log) ==> Mirrors(env, cfg, state.View(cache), now) && OnChain(env, cfg, state.View(cache), now)
    ensures forall i, k :: 0 <= i <= k <= |log| ==> Onward(cfg, trail[i], trail[k])
  {
    log, now, details, trail := [], start, [], [Moment(state.View(cache), start)];
    for i := 0 to |script|
      invariant Trail(env, cfg, script[..i], log, details, trail)
      invariant trail[i] == Moment(state.View(cache), now) && trail[0].time == start
      invariant SoundCache(env, cfg, now, cache.chunks)
    {
      var h;
      ghost var d;
      h, now, d := Act(env, cache, cfg, state, script[i], now);
      TrailNext(env, cfg, script[..i], log, details, trail, script[i], h, d, Moment(state.View(cache), now));
      assert script[..i] + [script[i]] == script[..i + 1];
      log, details, trail := log + [h], details + [d], trail + [Moment(state.View(cache), now)];
    }
    assert script[..|script|] == script;
    RunAccounts(env, cfg, script, log, details, trail, |log|);
    if Healthy(log) {
      assert log[..|log|] == log;
      RunMirrors(env, cfg, script, log, details, trail, |log|);
      MirrorsOnChain(env, cfg, state.View(cache), now);
    }
    forall i, k | 0 <= i <= k <= |log| ensures Onward(cfg, trail[i], trail[k]) {
      RunOnward(env, cfg, script, log, details, trail, i, k);
    }
  }
}
