/** Whom a deposit scan of the live EVM worker looks for, and whom the chain knew
    at the blocks it scans. */
module EvmFilters {
  import opened Wrappers
  import opened Positional
  import opened Hex
  import opened Scanning
  import opened Portal
  import opened EvmRegistry
  import opened EvmIndexer
  import opened EvmDeposits
  import opened EvmWorker

  /** The receivers the two contracts name in one block, as it stands at some time,
      whatever filter anybody looks through. */
  ghost function NamedAt(env: Env, cfg: Config, time: nat, block: nat): set<Address> {
    Named(Receivers(cfg, Tag(block, Spoken(cfg, env.Logs(time, block)))))
  }

  /** The receivers registered up to a block, as the chain stands at some time. */
  ghost function RegisteredBy(env: Env, cfg: Config, time: nat, block: nat): set<Address> {
    if block < RegistryStart(cfg) then {}
    else Named(Receivers(cfg, Said(env, cfg, time, RegistryStart(cfg), block)))
  }

  lemma NamedByLook(env: Env, cfg: Config, block: nat, look: Look)
    requires look.filter == RegistryFilter(cfg)
    ensures Named(Receivers(cfg, Eye(env)(block, look))) == NamedAt(env, cfg, look.time, block)
  {
    FilterHears(cfg, block, env.Logs(look.time, block));
  }

  /** A log that names a receiver. */
  ghost predicate Names(cfg: Config, log: Log, r: Address) {
    FromContracts(cfg, log) && ReceiverIn(cfg, log) != [] && ReceiverIn(cfg, log)[0].receiver == r
  }

  /** One of these logs names it. */
  ghost predicate NamedBy(cfg: Config, logs: seq<Log>, r: Address) {
    exists i :: 0 <= i < |logs| && Names(cfg, logs[i], r)
  }

  lemma NamedByNext(cfg: Config, logs: seq<Log>, log: Log, r: Address)
    ensures NamedBy(cfg, logs + [log], r) <==> NamedBy(cfg, logs, r) || Names(cfg, log, r)
  {
    var all := logs + [log];
    if NamedBy(cfg, logs, r) {
      var i :| 0 <= i < |logs| && Names(cfg, logs[i], r);
      assert Names(cfg, all[i], r);
    }
    if Names(cfg, log, r) {
      assert Names(cfg, all[|logs|], r);
    }
  }

  lemma NamedNext(cfg: Config, block: nat, own: seq<Log>, log: Log, r: Address)
    ensures r in Named(Receivers(cfg, Tag(block, own + [log]))) <==>
      r in Named(Receivers(cfg, Tag(block, own))) || (ReceiverIn(cfg, log) != [] && ReceiverIn(cfg, log)[0].receiver == r)
  {
    var recs := ReceiverIn(cfg, log);
    HeardNext(cfg, block, own, log);
    NamedAppend(Receivers(cfg, Tag(block, own)), recs);
    if recs != [] {
      assert recs[..0] == [];
    }
  }

  /** A receiver counts as registered in a block exactly when a log of one of the
      two contracts there names it. */
  lemma {:induction false} NamedIff(cfg: Config, block: nat, logs: seq<Log>, r: Address)
    ensures r in Named(Receivers(cfg, Tag(block, Spoken(cfg, logs)))) <==> NamedBy(cfg, logs, r)
  {
    if logs != [] {
      var rest, log := logs[..|logs| - 1], logs[|logs| - 1];
      NamedIff(cfg, block, rest, r);
      NamedNext(cfg, block, Spoken(cfg, rest), log, r);
      NamedByNext(cfg, rest, log, r);
      Unsnoc(logs);
    }
  }

  // ---- the names of a scan, block by block ---------------------------------------

  ghost function ScanNames(env: Env, cfg: Config, lo: nat, looks: seq<Look>): set<Address> {
    Named(Receivers(cfg, Scan(Eye(env), lo, looks)))
  }

  lemma ScanNamesNone(env: Env, cfg: Config, lo: nat)
    ensures ScanNames(env, cfg, lo, []) == {}
  {
  }

  lemma ScanNamesNext(env: Env, cfg: Config, lo: nat, before: seq<Look>, block: nat, look: Look)
    requires block == lo + |before| && look.filter == RegistryFilter(cfg)
    ensures ScanNames(env, cfg, lo, before + [look]) == ScanNames(env, cfg, lo, before) + NamedAt(env, cfg, look.time, block)
  {
    ScanNext(Eye(env), lo, before, block, look);
    NamedByLook(env, cfg, block, look);
    ReceiversAppend(cfg, Scan(Eye(env), lo, before), Eye(env)(block, look));
    NamedAppend(Receivers(cfg, Scan(Eye(env), lo, before)), Receivers(cfg, Eye(env)(block, look)));
  }

  ghost function NameSets(env: Env, cfg: Config, lo: nat, looks: seq<Look>): (r: seq<set<Address>>)
    ensures |r| == |looks|
    ensures forall i :: 0 <= i < |looks| ==> r[i] == NamedAt(env, cfg, looks[i].time, lo + i)
  {
    seq(|looks|, i requires 0 <= i < |looks| => NamedAt(env, cfg, looks[i].time, lo + i))
  }

  lemma NameSetsNext(env: Env, cfg: Config, lo: nat, before: seq<Look>, block: nat, look: Look)
    requires block == lo + |before|
    ensures NameSets(env, cfg, lo, before + [look]) == NameSets(env, cfg, lo, before) + [NamedAt(env, cfg, look.time, block)]
  {
  }

  function Merged(sets: seq<set<Address>>): set<Address> {
    if sets == [] then {} else Merged(sets[..|sets| - 1]) + sets[|sets| - 1]
  }

  lemma MergedNext(sets: seq<set<Address>>, more: set<Address>)
    ensures Merged(sets + [more]) == Merged(sets) + more
  {
    assert (sets + [more])[..|sets|] == sets;
  }

  lemma {:induction false} MergedHas(sets: seq<set<Address>>, i: nat)
    requires i < |sets|
    ensures sets[i] <= Merged(sets)
    decreases |sets|
  {
    if i < |sets| - 1 {
      MergedHas(sets[..|sets| - 1], i);
    }
  }

  lemma {:induction false} MergedFrom(sets: seq<set<Address>>, r: Address) returns (i: nat)
    requires r in Merged(sets)
    ensures i < |sets| && r in sets[i]
  {
    i := |sets| - 1;
    if r !in sets[i] {
      i := MergedFrom(sets[..i], r);
    }
  }

  lemma MergedOn(env: Env, cfg: Config, lo: nat, before: seq<Look>, block: nat, look: Look)
    requires block == lo + |before| && look.filter == RegistryFilter(cfg)
    requires ScanNames(env, cfg, lo, before) == Merged(NameSets(env, cfg, lo, before))
    ensures ScanNames(env, cfg, lo, before + [look]) == Merged(NameSets(env, cfg, lo, before + [look]))
  {
    ScanNamesNext(env, cfg, lo, before, block, look);
    NameSetsNext(env, cfg, lo, before, block, look);
    MergedNext(NameSets(env, cfg, lo, before), NamedAt(env, cfg, look.time, block));
  }

  /** What a scan names is what its blocks name. */
  lemma {:induction false} ScanNamesMerged(env: Env, cfg: Config, lo: nat, looks: seq<Look>)
    requires ForRegistry(cfg, looks)
    ensures ScanNames(env, cfg, lo, looks) == Merged(NameSets(env, cfg, lo, looks))
  {
    if looks == [] {
      ScanNamesNone(env, cfg, lo);
    } else {
      var n := |looks| - 1;
      ScanNamesMerged(env, cfg, lo, looks[..n]);
      MergedOn(env, cfg, lo, looks[..n], lo + n, looks[n]);
      Unsnoc(looks);
    }
  }

  lemma ScanHas(env: Env, cfg: Config, lo: nat, looks: seq<Look>, i: nat) returns (part: set<Address>)
    requires ForRegistry(cfg, looks) && i < |looks|
    ensures part == NamedAt(env, cfg, looks[i].time, lo + i) && part <= ScanNames(env, cfg, lo, looks)
  {
    ScanNamesMerged(env, cfg, lo, looks);
    part := NameSets(env, cfg, lo, looks)[i];
    MergedHas(NameSets(env, cfg, lo, looks), i);
  }

  lemma RegisteredScan(env: Env, cfg: Config, time: nat, last: nat, n: nat)
    requires n > 0 && RegistryStart(cfg) + n == last + 1
    ensures
      var looks := Steady(Look(time, RegistryFilter(cfg)), n);
      ForRegistry(cfg, looks) && RegisteredBy(env, cfg, time, last) == ScanNames(env, cfg, RegistryStart(cfg), looks)
  {
    ScanHears(env, cfg, RegistryStart(cfg), Steady(Look(time, RegistryFilter(cfg)), n));
  }

  lemma SteadySets(env: Env, cfg: Config, time: nat, start: nat, n: nat)
    ensures
      var sets := NameSets(env, cfg, start, Steady(Look(time, RegistryFilter(cfg)), n));
      |sets| == n && forall i :: 0 <= i < n ==> sets[i] == NamedAt(env, cfg, time, start + i)
  {
  }

  /** The receivers registered up to a block, block by block. */
  lemma RegisteredSets(env: Env, cfg: Config, time: nat, last: nat) returns (sets: seq<set<Address>>)
    requires RegistryStart(cfg) <= last
    ensures |sets| == last + 1 - RegistryStart(cfg) && RegisteredBy(env, cfg, time, last) == Merged(sets)
    ensures forall i :: 0 <= i < |sets| ==> sets[i] == NamedAt(env, cfg, time, RegistryStart(cfg) + i)
  {
    var start := RegistryStart(cfg);
    var n := last + 1 - start;
    var looks := Steady(Look(time, RegistryFilter(cfg)), n);
    sets := NameSets(env, cfg, start, looks);
    SteadySets(env, cfg, time, start, n);
    RegisteredScan(env, cfg, time, last, n);
    ScanNamesMerged(env, cfg, start, looks);
  }

  lemma SetAt(env: Env, cfg: Config, time: nat, sets: seq<set<Address>>, i: nat, block: nat)
    requires forall i :: 0 <= i < |sets| ==> sets[i] == NamedAt(env, cfg, time, RegistryStart(cfg) + i)
    requires i < |sets| && block == RegistryStart(cfg) + i
    ensures sets[i] == NamedAt(env, cfg, time, block)
  {
  }

  lemma RegisteredHas(env: Env, cfg: Config, time: nat, last: nat, block: nat) returns (part: set<Address>)
    requires RegistryStart(cfg) <= block <= last
    ensures part == NamedAt(env, cfg, time, block) && part <= RegisteredBy(env, cfg, time, last)
  {
    var sets := RegisteredSets(env, cfg, time, last);
    var i := block - RegistryStart(cfg);
    SetAt(env, cfg, time, sets, i, block);
    part := sets[i];
    MergedHas(sets, i);
  }

  lemma RegisteredFrom(env: Env, cfg: Config, time: nat, last: nat, r: Address) returns (block: nat, part: set<Address>)
    requires r in RegisteredBy(env, cfg, time, last)
    ensures RegistryStart(cfg) <= block <= last && r in part && part == NamedAt(env, cfg, time, block)
  {
    var sets := RegisteredSets(env, cfg, time, last);
    var i := MergedFrom(sets, r);
    block, part := RegistryStart(cfg) + i, sets[i];
    SetAt(env, cfg, time, sets, i, block);
  }

  // ---- what is overlooked ------------------------------------------------------

  /** A registry block the looks cover and that still holds what they saw. */
  ghost predicate SeenAs(env: Env, cfg: Config, looks: seq<Look>, block: nat, time: nat) {
    var start := RegistryStart(cfg);
    && start <= block < start + |looks|
    && env.Logs(looks[block - start].time, block) == env.Logs(time, block)
  }

  /** A registry block that was not seen as it stands, and names a receiver the
      looks do not name: one the scan does not look for. */
  ghost predicate Overlooked(env: Env, cfg: Config, looks: seq<Look>, block: nat, time: nat) {
    && RegistryStart(cfg) <= block && !SeenAs(env, cfg, looks, block, time)
    && !(NamedAt(env, cfg, time, block) <= NamedIn(env, cfg, looks))
  }

  lemma SameNames(env: Env, cfg: Config, time: nat, time': nat, block: nat)
    requires env.Logs(time, block) == env.Logs(time', block)
    ensures NamedAt(env, cfg, time, block) == NamedAt(env, cfg, time', block)
  {
  }

  lemma SeenNamed(env: Env, cfg: Config, looks: seq<Look>, block: nat, time: nat) returns (part: set<Address>)
    requires ForRegistry(cfg, looks) && SeenAs(env, cfg, looks, block, time)
    ensures part == NamedAt(env, cfg, time, block) && part <= NamedIn(env, cfg, looks)
  {
    var i := block - RegistryStart(cfg);
    part := SeenPart(env, cfg, looks, i, block);
    SameNames(env, cfg, looks[i].time, time, block);
  }

  lemma SeenPart(env: Env, cfg: Config, looks: seq<Look>, i: nat, block: nat) returns (part: set<Address>)
    requires ForRegistry(cfg, looks) && i < |looks| && block == RegistryStart(cfg) + i
    ensures part == NamedAt(env, cfg, looks[i].time, block) && part <= NamedIn(env, cfg, looks)
  {
    part := ScanHas(env, cfg, RegistryStart(cfg), looks, i);
  }

  ghost predicate NoneOverlooked(env: Env, cfg: Config, looks: seq<Look>, last: nat, time: nat) {
    forall c: nat :: c <= last ==> !Overlooked(env, cfg, looks, c, time)
  }

  /** A scan that looks for everybody the looks name looks for everybody who was
      registered by then exactly when no block was overlooked. */
  lemma KnownIff(env: Env, cfg: Config, looks: seq<Look>, last: nat, time: nat)
    requires ForRegistry(cfg, looks)
    ensures RegisteredBy(env, cfg, time, last) <= NamedIn(env, cfg, looks)
      <==> NoneOverlooked(env, cfg, looks, last, time)
  {
    var names := NamedIn(env, cfg, looks);
    if NoneOverlooked(env, cfg, looks, last, time) {
      forall r | r in RegisteredBy(env, cfg, time, last) ensures r in names {
        var c, _ := RegisteredFrom(env, cfg, time, last, r);
        assert !Overlooked(env, cfg, looks, c, time);
        if SeenAs(env, cfg, looks, c, time) {
          var _ := SeenNamed(env, cfg, looks, c, time);
        }
      }
    } else {
      var c: nat :| c <= last && Overlooked(env, cfg, looks, c, time);
      var r :| r in NamedAt(env, cfg, time, c) && r !in names;
      var _ := RegisteredHas(env, cfg, time, last, c);
    }
  }

  ghost predicate KnownAt(env: Env, cfg: Config, names: set<Address>, from: nat, paid: seq<Look>, i: nat)
    requires i < |paid|
  {
    RegisteredBy(env, cfg, paid[i].time, from + i) <= names
  }

  ghost predicate AllKnown(env: Env, cfg: Config, names: set<Address>, from: nat, paid: seq<Look>) {
    forall i :: 0 <= i < |paid| ==> KnownAt(env, cfg, names, from, paid, i)
  }

  ghost predicate SeenAt(env: Env, cfg: Config, looks: seq<Look>, from: nat, paid: seq<Look>, i: nat)
    requires i < |paid|
  {
    NoneOverlooked(env, cfg, looks, from + i, paid[i].time)
  }

  ghost predicate AllSeen(env: Env, cfg: Config, looks: seq<Look>, from: nat, paid: seq<Look>) {
    forall i :: 0 <= i < |paid| ==> SeenAt(env, cfg, looks, from, paid, i)
  }

  lemma KnownAtIff(env: Env, cfg: Config, looks: seq<Look>, from: nat, paid: seq<Look>, i: nat)
    requires ForRegistry(cfg, looks) && i < |paid|
    ensures KnownAt(env, cfg, NamedIn(env, cfg, looks), from, paid, i) <==> SeenAt(env, cfg, looks, from, paid, i)
  {
    KnownIff(env, cfg, looks, from + i, paid[i].time);
  }

  lemma AllKnownIff(env: Env, cfg: Config, looks: seq<Look>, from: nat, paid: seq<Look>)
    requires ForRegistry(cfg, looks)
    ensures AllKnown(env, cfg, NamedIn(env, cfg, looks), from, paid) <==> AllSeen(env, cfg, looks, from, paid)
  {
    var names := NamedIn(env, cfg, looks);
    forall i | 0 <= i < |paid| ensures KnownAt(env, cfg, names, from, paid, i) <==> SeenAt(env, cfg, looks, from, paid, i) {
      KnownAtIff(env, cfg, looks, from, paid, i);
    }
  }

  // ---- steps and runs ----------------------------------------------------------

  /** Every block a step scanned for deposits was scanned for every receiver that
      was registered by then, as the chain stood when the block was looked at. */
  ghost predicate Complete(env: Env, cfg: Config, h: Happening, d: Detail, m: Moment, m': Moment) {
    AllKnown(env, cfg, StepNames(env, cfg, h, d, m'), DepositsFrom(cfg, m.picture), d.paid)
  }

  /** The registry blocks a step takes its receivers from. */
  ghost function RegistryLooks(h: Happening, d: Detail, m': Moment): seq<Look> {
    if h.Started? then d.more else m'.picture.looks
  }

  /** No registry block up to a block scanned for deposits was overlooked. */
  ghost predicate Attentive(env: Env, cfg: Config, h: Happening, d: Detail, m: Moment, m': Moment) {
    AllSeen(env, cfg, RegistryLooks(h, d, m'), DepositsFrom(cfg, m.picture), d.paid)
  }

  /** The receivers of a step are the ones its registry blocks name. */
  ghost predicate NamesLooked(env: Env, cfg: Config, h: Happening, d: Detail, m': Moment) {
    var looks := RegistryLooks(h, d, m');
    ForRegistry(cfg, looks) && (!h.Waited? ==> StepNames(env, cfg, h, d, m') == NamedIn(env, cfg, looks))
  }

  lemma CompleteLooked(env: Env, cfg: Config, h: Happening, d: Detail, m: Moment, m': Moment)
    requires NamesLooked(env, cfg, h, d, m') && (h.Waited? ==> d.paid == [])
    ensures Complete(env, cfg, h, d, m, m') <==> Attentive(env, cfg, h, d, m, m')
  {
    if !h.Waited? {
      AllKnownIff(env, cfg, RegistryLooks(h, d, m'), DepositsFrom(cfg, m.picture), d.paid);
    }
  }

  lemma TipNames(env: Env, cfg: Config, ok: bool, p: Picture, p': Picture, more: seq<Look>, t: nat, t': nat)
    requires RegistryStep(env, cfg, ok, p, p', more, t, t') && Mirrors(env, cfg, p, t)
    ensures ForRegistry(cfg, p'.looks) && p'.merchants.Keys == NamedIn(env, cfg, p'.looks)
  {
    if ok {
      RegistryKeepsMirrors(env, cfg, p, p', more, t, t');
    }
    FoldedKeys(env, cfg, p'.looks, p'.merchants, p'.hooks);
  }

  /** A tip looks for everybody registered at or before each block it scans for
      deposits exactly when its registry half covered what names them: of the
      registry blocks it did not reach, and of those that have changed since
      they were seen, none names a receiver not in the map. */
  lemma TipCompleteIff(env: Env, cfg: Config, action: Action, h: Happening, d: Detail, m: Moment, m': Moment)
    requires Stepped(env, cfg, action, h, d, m, m') && h.TipDone? && Mirrors(env, cfg, m.picture, m.time)
    ensures Complete(env, cfg, h, d, m, m') <==> Attentive(env, cfg, h, d, m, m')
  {
    TipNames(env, cfg, h.discovered, m.picture, d.mid, d.more, m.time, d.midTime);
    CompleteLooked(env, cfg, h, d, m, m');
  }

  /** The same for a start, which scans no block for deposits that its rebuild did
      not cover: only a block that changed in between can be overlooked. */
  lemma StartCompleteIff(env: Env, cfg: Config, action: Action, h: Happening, d: Detail, m: Moment, m': Moment)
    requires Stepped(env, cfg, action, h, d, m, m') && h.Started?
    ensures Complete(env, cfg, h, d, m, m') <==> Attentive(env, cfg, h, d, m, m')
    ensures d.paid != [] ==> DepositsFrom(cfg, m.picture) + |d.paid| <= RegistryStart(cfg) + |d.more|
  {
    CompleteLooked(env, cfg, h, d, m, m');
  }

  /** In every run, every step: a deposit scan looks for everybody the chain had
      registered by each block it scans exactly when no registry block was
      overlooked. For a tip the run has to be healthy so far; a start needs
      nothing. */
  lemma RunCompleteIff(env: Env, cfg: Config, script: seq<Action>, log: seq<Happening>, details: seq<Detail>,
                       trail: seq<Moment>, j: nat)
    requires Trail(env, cfg, script, log, details, trail) && j < |log| && (log[j].TipDone? ==> Healthy(log[..j]))
    ensures Complete(env, cfg, log[j], details[j], trail[j], trail[j + 1])
      <==> Attentive(env, cfg, log[j], details[j], trail[j], trail[j + 1])
  {
    assert StepAt(env, cfg, script, log, details, trail, j);
    if log[j].TipDone? {
      RunMirrors(env, cfg, script, log, details, trail, j);
      TipCompleteIff(env, cfg, script[j], log[j], details[j], trail[j], trail[j + 1]);
    } else if log[j].Started? {
      StartCompleteIff(env, cfg, script[j], log[j], details[j], trail[j], trail[j + 1]);
    }
  }

  /** A step that paid `r` only in blocks at or behind its registration. */
  ghost predicate PaidRegistered(env: Env, cfg: Config, d: Detail, m: Moment, r: Address) {
    AllPaidRegistered(env, cfg, DepositsFrom(cfg, m.picture), d.paid, r)
  }

  ghost predicate AllPaidRegistered(env: Env, cfg: Config, from: nat, paid: seq<Look>, r: Address) {
    forall i :: 0 <= i < |paid| ==>
      Paid(cfg, env.Logs(paid[i].time, from + i), r) == 0 || r in RegisteredBy(env, cfg, paid[i].time, from + i)
  }

  /** Who is not looked for was not paid. */
  lemma UnlookedUnpaid(env: Env, cfg: Config, names: set<Address>, from: nat, paid: seq<Look>, r: Address)
    requires AllKnown(env, cfg, names, from, paid) && AllPaidRegistered(env, cfg, from, paid, r) && r !in names
    ensures ChainPaid(env, cfg, from, paid, r) == 0
  {
    forall i | 0 <= i < |paid| ensures Paid(cfg, env.Logs(paid[i].time, from + i), r) == 0 {
      assert KnownAt(env, cfg, names, from, paid, i);
    }
    NothingPaid(env, cfg, from, paid, r);
  }

  lemma {:induction false} NothingPaid(env: Env, cfg: Config, lo: nat, looks: seq<Look>, r: Address)
    requires forall i :: 0 <= i < |looks| ==> Paid(cfg, env.Logs(looks[i].time, lo + i), r) == 0
    ensures ChainPaid(env, cfg, lo, looks, r) == 0
  {
    if looks != [] {
      var n := |looks| - 1;
      assert forall i :: 0 <= i < n ==> looks[..n][i] == looks[i];
      NothingPaid(env, cfg, lo, looks[..n], r);
    }
  }

  lemma StepDelivers(env: Env, cfg: Config, log: seq<Happening>, details: seq<Detail>, trail: seq<Moment>, j: nat,
                     r: Address)
    requires j < |log| == |details| && |trail| == |log| + 1 && Told(log[j])
    requires Complete(env, cfg, log[j], details[j], trail[j], trail[j + 1])
    requires PaidRegistered(env, cfg, details[j], trail[j], r)
    ensures StepServes(env, cfg, log, details, trail, j, r)
  {
    var names := StepNames(env, cfg, log[j], details[j], trail[j + 1]);
    if r !in names {
      UnlookedUnpaid(env, cfg, names, DepositsFrom(cfg, trail[j].picture), details[j].paid, r);
    }
  }

  /** A receiver that is paid only once it is registered gets everything the
      scanned blocks paid it, over any stretch of a run whose steps overlook no
      registry block and come to their end. */
  lemma RunDelivers(env: Env, cfg: Config, script: seq<Action>, log: seq<Happening>, details: seq<Detail>,
                    trail: seq<Moment>, i: nat, k: nat, r: Address)
    requires Trail(env, cfg, script, log, details, trail) && i <= k <= |log|
    requires forall j :: i <= j < k ==>
      Told(log[j]) && (log[j].TipDone? ==> Healthy(log[..j])) && PaidRegistered(env, cfg, details[j], trail[j], r)
    requires forall j :: i <= j < k ==> Attentive(env, cfg, log[j], details[j], trail[j], trail[j + 1])
    ensures PaidSince(env, cfg, trail[i].picture, trail[k].picture, r, 0)
  {
    forall j | i <= j < k ensures StepServes(env, cfg, log, details, trail, j, r) {
      assert Told(log[j]);
      RunCompleteIff(env, cfg, script, log, details, trail, j);
      StepDelivers(env, cfg, log, details, trail, j, r);
    }
    RunPaysIff(env, cfg, script, log, details, trail, i, k, r);
  }
}
