/** Two EVM workers over one store: the backend runs one worker per chain and
    gives all of them the same log cache. */
module EvmShared {
  import opened Wrappers
  import opened Positional
  import opened Hex
  import opened Scanning
  import opened Portal
  import opened EvmRegistry
  import opened EvmIndexer
  import opened EvmDeposits
  import opened EvmWorker
  import opened EvmGaps
  import LogCache

  /** Two chains that share neither their name nor both of their contracts. */
  predicate Apart(a: Config, b: Config) {
    a.chainName != b.chainName && (a.factory != b.factory || a.webhookRegistry != b.webhookRegistry)
  }

  lemma OwnKeysApart(a: Config, b: Config, key: string)
    requires Apart(a, b) && OwnKey(a, key)
    ensures !OwnKey(b, key)
  {
    ChunksScoped(a, b);
    var x, y := ChunkScanId(a) + ":", ChunkScanId(b) + ":";
    assert x[..|x| - 1] == ChunkScanId(a) && y[..|y| - 1] == ChunkScanId(b);
  }

  /** What one worker writes leaves the other one's chunks alone. */
  lemma SoundBeside(env: Env, cfg: Config, other: Config, t: nat, was: map<string, LogCache.Stored<RegistryChunk>>,
                    now: map<string, LogCache.Stored<RegistryChunk>>)
    requires Apart(cfg, other) && SoundCache(env, cfg, t, was) && OwnChunks(other, was, now)
    ensures SoundCache(env, cfg, t, now)
  {
    var id := ChunkScanId(cfg);
    forall lo: nat, hi: nat | lo <= hi < LogCache.U64_END && LogCache.ChunkKey(id, lo, hi) in now
      ensures SoundChunk(env, cfg, t, lo, hi, now[LogCache.ChunkKey(id, lo, hi)])
    {
      var key := LogCache.ChunkKey(id, lo, hi);
      ChunkKeyOwn(cfg, lo, hi);
      OwnKeysApart(cfg, other, key);
      assert SameAt(was, now, key);
    }
  }

  /** ... and its checkpoints. */
  lemma CheckpointsBeside(cfg: Config, other: Config, was: map<string, nat>, now: map<string, nat>)
    requires Apart(cfg, other) && OwnCheckpoints(other, was, now)
    ensures Entry(now, RegistryScanId(cfg)) == Entry(was, RegistryScanId(cfg))
    ensures Entry(now, DepositsScanId(cfg)) == Entry(was, DepositsScanId(cfg))
  {
    CheckpointsScoped(cfg, other);
    CheckpointsScoped(other, cfg);
  }

  lemma StepOwn(env: Env, cfg: Config, action: Action, h: Happening, d: Detail, m: Moment, m': Moment)
    requires Stepped(env, cfg, action, h, d, m, m')
    ensures OwnCheckpoints(cfg, m.picture.saved, m'.picture.saved) && m.time <= m'.time
  {
  }

  /** The part of a picture another worker cannot touch. */
  ghost predicate SameBut(p: Picture, p': Picture) {
    p' == p.(saved := p'.saved)
  }

  lemma BesideKeeps(env: Env, cfg: Config, other: Config, p: Picture, p': Picture, t: nat, t': nat)
    requires Apart(cfg, other) && OwnCheckpoints(other, p.saved, p'.saved) && SameBut(p, p') && t <= t'
    ensures Accounts(env, cfg, p, t) ==> Accounts(env, cfg, p', t')
    ensures Mirrors(env, cfg, p, t) ==> Mirrors(env, cfg, p', t')
  {
    CheckpointsBeside(cfg, other, p.saved, p'.saved);
    if Accounts(env, cfg, p, t) {
      AccountsLater(env, cfg, p, p', t, t');
    }
    if Mirrors(env, cfg, p, t) {
      LookedWider(env, RegistryStart(cfg), p.looks, RegistryFilter(cfg), 0, t, 0, t');
    }
  }

  /** What holds for one worker at any moment, whatever the other one does. */
  ghost predicate InOrder(env: Env, cfg: Config, p: Picture, chunks: map<string, LogCache.Stored<RegistryChunk>>,
                          log: seq<Happening>, now: nat)
  {
    && SoundCache(env, cfg, now, chunks) && Accounts(env, cfg, p, now)
    && (Healthy(log) ==> Mirrors(env, cfg, p, now))
  }

  lemma InOrderBeside(env: Env, cfg: Config, other: Config, p: Picture, p': Picture,
                      was: map<string, LogCache.Stored<RegistryChunk>>,
                      now: map<string, LogCache.Stored<RegistryChunk>>, log: seq<Happening>, t: nat, t': nat)
    requires Sane(env) && Apart(cfg, other) && InOrder(env, cfg, p, was, log, t) && t <= t'
    requires OwnChunks(other, was, now) && OwnCheckpoints(other, p.saved, p'.saved) && SameBut(p, p')
    ensures InOrder(env, cfg, p', now, log, t')
  {
    SoundBeside(env, cfg, other, t, was, now);
    SoundLater(env, cfg, t, t', now);
    BesideKeeps(env, cfg, other, p, p', t, t');
  }

  lemma HealthyOn(log: seq<Happening>, h: Happening)
    requires Healthy(log + [h])
    ensures match h
            case TipDone(discovered, _) => discovered && Healthy(log)
            case Started(ok, upTo, saved) => ok && Reaches(upTo, saved)
            case Waited => Healthy(log)
  {
    assert (log + [h])[..|log|] == log;
  }

  lemma MirrorsOn(env: Env, cfg: Config, action: Action, h: Happening, d: Detail, m: Moment, m': Moment,
                  log: seq<Happening>)
    requires Stepped(env, cfg, action, h, d, m, m') && (Healthy(log) ==> Mirrors(env, cfg, m.picture, m.time))
    ensures Healthy(log + [h]) ==> Mirrors(env, cfg, m'.picture, m'.time)
  {
    if Healthy(log + [h]) {
      HealthyOn(log, h);
      StepKeepsMirrors(env, cfg, action, h, d, m, m');
    }
  }

  lemma InOrderOn(env: Env, cfg: Config, action: Action, h: Happening, d: Detail, m: Moment, m': Moment,
                  was: map<string, LogCache.Stored<RegistryChunk>>, now: map<string, LogCache.Stored<RegistryChunk>>,
                  log: seq<Happening>)
    requires Stepped(env, cfg, action, h, d, m, m') && InOrder(env, cfg, m.picture, was, log, m.time)
    requires SoundCache(env, cfg, m'.time, now)
    ensures InOrder(env, cfg, m'.picture, now, log + [h], m'.time)
  {
    StepKeepsAccounts(env, cfg, action, h, d, m, m');
    MirrorsOn(env, cfg, action, h, d, m, m', log);
  }

  lemma OtherBeside(env: Env, other: Env, cfg: Config, otherCfg: Config, action: Action, h: Happening, d: Detail,
                    m: Moment, m': Moment, p: Picture, p': Picture, was: map<string, LogCache.Stored<RegistryChunk>>,
                    now: map<string, LogCache.Stored<RegistryChunk>>, log: seq<Happening>)
    requires Sane(other) && Apart(otherCfg, cfg) && Stepped(env, cfg, action, h, d, m, m')
    requires InOrder(other, otherCfg, p, was, log, m.time) && OwnChunks(cfg, was, now) && SameBut(p, p')
    requires p.saved == m.picture.saved && p'.saved == m'.picture.saved
    ensures InOrder(other, otherCfg, p', now, log, m'.time)
  {
    StepOwn(env, cfg, action, h, d, m, m');
    InOrderBeside(other, otherCfg, cfg, p, p', was, now, log, m.time, m'.time);
  }

  /** One step of one of the two, seen from both. */
  method ActBeside(env: Env, other: Env, cache: Cache, cfg: Config, otherCfg: Config, state: EvmState,
                   beside: EvmState, action: Action, start: nat, log: seq<Happening>, otherLog: seq<Happening>)
    returns (h: Happening, now: nat)
    requires Sane(env) && Sane(other) && Apart(cfg, otherCfg) && Apart(otherCfg, cfg) && state != beside
    requires InOrder(env, cfg, state.View(cache), cache.chunks, log, start)
    requires InOrder(other, otherCfg, beside.View(cache), cache.chunks, otherLog, start)
    modifies state, cache
    ensures InOrder(env, cfg, state.View(cache), cache.chunks, log + [h], now)
    ensures InOrder(other, otherCfg, beside.View(cache), cache.chunks, otherLog, now)
  {
    ghost var m, p, was := Moment(state.View(cache), start), beside.View(cache), cache.chunks;
    ghost var d;
    h, now, d := Act(env, cache, cfg, state, action, start);
    ghost var m' := Moment(state.View(cache), now);
    InOrderOn(env, cfg, action, h, d, m, m', was, cache.chunks, log);
    OtherBeside(env, other, cfg, otherCfg, action, h, d, m, m', p, beside.View(cache), was, cache.chunks, otherLog);
  }

  /** Two workers over one store, taking turns in any order: both caches stay
      correct, both accounts of deposits hold, and while a worker's own run is
      healthy its maps match its checkpoint. */
  method RunBoth(envA: Env, envB: Env, cache: Cache, cfgA: Config, cfgB: Config, a: EvmState, b: EvmState,
                 script: seq<(bool, Action)>, start: nat)
    returns (logA: seq<Happening>, logB: seq<Happening>, now: nat)
    requires Sane(envA) && Sane(envB) && Apart(cfgA, cfgB) && a != b
    requires cache.chunks == map[] && cache.checkpoints == map[]
    requires a.View(cache) == Blank() == b.View(cache)
    modifies a, b, cache
    ensures |logA| + |logB| == |script|
    ensures InOrder(envA, cfgA, a.View(cache), cache.chunks, logA, now)
    ensures InOrder(envB, cfgB, b.View(cache), cache.chunks, logB, now)
  {
    logA, logB, now := [], [], start;
    for i := 0 to |script|
      invariant |logA| + |logB| == i
      invariant InOrder(envA, cfgA, a.View(cache), cache.chunks, logA, now)
      invariant InOrder(envB, cfgB, b.View(cache), cache.chunks, logB, now)
    {
      var (first, action) := script[i];
      var h;
      if first {
        h, now := ActBeside(envA, envB, cache, cfgA, cfgB, a, b, action, now, logA, logB);
        logA := logA + [h];
      } else {
        h, now := ActBeside(envB, envA, cache, cfgB, cfgA, b, a, action, now, logB, logA);
        logB := logB + [h];
      }
    }
  }

  // ---- two chains with the same contract addresses -------------------------------

  const LAST: nat := 199_999

  /** A chain that never changes and is deep enough to have its first chunk kept. */
  ghost function Deep(logs: seq<Log>): Env {
    Env(imap k: (nat, nat) | AtLast(k) :: logs, imap t: nat | Always(t) :: LAST + REORG_SAFETY_BLOCKS, imap[], iset{}, iset{}, imap[])
  }

  ghost predicate Always(t: nat) {
    true
  }

  ghost predicate AtLast(k: (nat, nat)) {
    k.1 == LAST
  }

  lemma DeepSane(logs: seq<Log>)
    ensures Sane(Deep(logs))
  {
  }

  lemma QuietBelow(logs: seq<Log>, f: LogFilter)
    ensures forall c :: 0 <= c < LAST ==> f.Pick(Deep(logs).Logs(0, c)) == []
  {
  }

  /** All the first chunk holds is what its last block does. */
  lemma DeepChunk(logs: seq<Log>, f: LogFilter)
    ensures At(Deep(logs), 0, f, 0, LAST) == Tag(LAST, f.Pick(logs))
  {
    var env := Deep(logs);
    assert env.Logs(0, LAST) == logs;
    QuietBelow(logs, f);
    LineStep(env, Look(0, f), 0, 0, LAST);
    assert Steady(Look(0, f), 0) == [];
  }

  const OTHER: Config := CFG.(chainName := "other")

  ghost function OnlyChunk(chunk: RegistryChunk): map<string, LogCache.Stored<RegistryChunk>> {
    map[][LogCache.ChunkKey(ChunkScanId(CFG), 0, LAST) := LogCache.Readable(chunk)]
  }

  lemma ThereSound(r: Address) returns (chunk: RegistryChunk)
    ensures SoundCache(Deep([Announce(r)]), CFG, 0, OnlyChunk(chunk)) && Named(IntoFound(chunk).0) == {r}
  {
    var there, f := Deep([Announce(r)]), RegistryFilter(CFG);
    DeepChunk([Announce(r)], f);
    RegistryPick(r);
    var seen := At(there, 0, f, 0, LAST);
    chunk := FromFound(Receivers(CFG, seen), Webhooks(CFG, seen));
    ChunkRoundTrip(Receivers(CFG, seen), Webhooks(CFG, seen));
    SoundPut(there, CFG, 0, map[], 0, LAST, LogCache.Readable(chunk));
    AnnounceNames(LAST, r);
  }

  lemma HereBroken(chunk: RegistryChunk, r: Address)
    requires Named(IntoFound(chunk).0) == {r}
    ensures !SoundCache(Deep([]), OTHER, 0, OnlyChunk(chunk))
  {
    HereNothing();
    assert Named([]) == {};
    var stored: LogCache.Stored<RegistryChunk> := LogCache.Readable(chunk);
    assert !SoundChunk(Deep([]), OTHER, 0, 0, LAST, stored);
    ForeignChunk(Deep([]), OTHER, 0, map[], CFG, 0, LAST, stored);
  }

  lemma HereNothing()
    ensures Receivers(OTHER, At(Deep([]), 0, RegistryFilter(OTHER), 0, LAST)) == []
  {
    DeepChunk([], RegistryFilter(OTHER));
  }

  /** Two chains whose contracts have the same addresses: the chunk the one
      worker rightly keeps for its chain is wrong for the other's, under the very
      key the other one looks up, and names a receiver that chain never had. */
  lemma SharedChunk(r: Address) returns (chunk: RegistryChunk)
    ensures
      var here, there := Deep([]), Deep([Announce(r)]);
      && Sane(here) && Sane(there)
      && OnlyChunk(chunk).Keys == {LogCache.ChunkKey(ChunkScanId(OTHER), 0, LAST)}
      && SoundCache(there, CFG, 0, OnlyChunk(chunk)) && !SoundCache(here, OTHER, 0, OnlyChunk(chunk))
      && Named(IntoFound(chunk).0) == {r}
      && Receivers(OTHER, At(here, 0, RegistryFilter(OTHER), 0, LAST)) == []
  {
    DeepSane([]);
    DeepSane([Announce(r)]);
    chunk := ThereSound(r);
    HereBroken(chunk, r);
    HereNothing();
  }
}
