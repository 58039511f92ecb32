/** Registry and deposit discovery on one EVM chain, over the cached chunks. */
module EvmIndexer {
  import opened Wrappers
  import opened Positional
  import opened Hex
  import opened Scanning
  import opened Portal
  import opened EvmRegistry
  import LogCache

  type Cache = LogCache.Store<RegistryChunk>

  function RegistryScanId(cfg: Config): string {
    "evm:" + cfg.chainName + ":registry_webhook"
  }

  function DepositsScanId(cfg: Config): string {
    "evm:" + cfg.chainName + ":deposits:v2"
  }

  function ChunkScanId(cfg: Config): string {
    "evm:registry_chunks:" + AddressText(cfg.factory) + ":" + AddressText(cfg.webhookRegistry)
  }

  /** The two scans of one chain never share a checkpoint. */
  lemma ScanIdsDiffer(cfg: Config)
    ensures RegistryScanId(cfg) != DepositsScanId(cfg)
  {
    assert |RegistryScanId(cfg)| != |DepositsScanId(cfg)|;
  }

  function RegistryStart(cfg: Config): nat {
    LogCache.Min(cfg.registryStart, cfg.webhookRegistryStart)
  }

  /** Where a scan resumes: right after its checkpoint, or at its start. */
  function Resume(saved: Option<nat>, start: nat): nat {
    if saved.Some? then saved.value + 1 else start
  }

  ghost function Entry(m: map<string, nat>, id: string): Option<nat> {
    if id in m then Some(m[id]) else None
  }

  /** Every other checkpoint is where it was. */
  ghost predicate OnlyMoves(id: string, was: map<string, nat>, now: map<string, nat>) {
    forall other :: other != id ==> Entry(now, other) == Entry(was, other)
  }

  // ---- sound chunks --------------------------------------------------------

  /** The plain scan of `lo..=hi` as the chain stands at one moment. */
  ghost function At(env: Env, time: nat, f: LogFilter, lo: nat, hi: nat): seq<Sighting>
    requires lo <= hi
  {
    Scan(Eye(env), lo, Steady(Look(time, f), hi + 1 - lo))
  }

  /** What the two contracts said in `lo..=hi`, as the chain stands at one moment;
      no filter comes into it. */
  ghost function Said(env: Env, cfg: Config, time: nat, lo: nat, hi: nat): seq<Sighting>
    requires lo <= hi
  {
    Scan(Ear(env, cfg), lo, Steady(Look(time, RegistryFilter(cfg)), hi + 1 - lo))
  }

  /** A readable chunk is buried and holds exactly the events of its range on
      the current chain; an unreadable one claims nothing. */
  ghost predicate SoundChunk(env: Env, cfg: Config, time: nat, lo: nat, hi: nat, stored: LogCache.Stored<RegistryChunk>)
    requires lo <= hi
  {
    stored.Readable? ==>
      && hi + REORG_SAFETY_BLOCKS <= env.Head(time)
      && var seen := At(env, time, RegistryFilter(cfg), lo, hi);
         IntoFound(stored.value) == (Receivers(cfg, seen), Webhooks(cfg, seen))
  }

  ghost predicate SoundCache(env: Env, cfg: Config, time: nat, chunks: map<string, LogCache.Stored<RegistryChunk>>) {
    forall lo: nat, hi: nat {:trigger LogCache.ChunkKey(ChunkScanId(cfg), lo, hi)} ::
      lo <= hi < LogCache.U64_END && LogCache.ChunkKey(ChunkScanId(cfg), lo, hi) in chunks ==>
        SoundChunk(env, cfg, time, lo, hi, chunks[LogCache.ChunkKey(ChunkScanId(cfg), lo, hi)])
  }

  /** The first `n` blocks hold at `t` what they held when they were looked at. */
  ghost predicate Unchanged(env: Env, lo: nat, looks: seq<Look>, n: nat, t: nat)
    requires n <= |looks|
  {
    forall i :: 0 <= i < n ==> env.Logs(looks[i].time, lo + i) == env.Logs(t, lo + i)
  }

  /** Looks at blocks as they stand at `t` scan to what a scan at `t` finds. */
  lemma UnchangedSame(env: Env, lo: nat, looks: seq<Look>, f: LogFilter, t: nat)
    requires looks != [] && Unchanged(env, lo, looks, |looks|, t)
    requires forall i :: 0 <= i < |looks| ==> looks[i].filter == f
    ensures Scan(Eye(env), lo, looks) == At(env, t, f, lo, lo + |looks| - 1)
  {
    var steady := Steady(Look(t, f), |looks|);
    forall i | 0 <= i < |looks| ensures Eye(env)(lo + i, looks[i]) == Eye(env)(lo + i, steady[i]) {
      assert env.Logs(looks[i].time, lo + i) == env.Logs(t, lo + i);
      assert looks[i] == Look(looks[i].time, f);
    }
    ScanSame(Eye(env), lo, looks, steady);
  }

  /** Blocks buried at `t` look the same through the same filter ever after. */
  lemma BuriedScan(env: Env, t: nat, f: LogFilter, lo: nat, looks: seq<Look>, t': nat)
    requires Sane(env) && looks != [] && LookedBetween(looks, f, t, t' + 1)
    requires lo + |looks| - 1 + REORG_SAFETY_BLOCKS <= env.Head(t)
    ensures Scan(Eye(env), lo, looks) == At(env, t', f, lo, lo + |looks| - 1)
  {
    forall i | 0 <= i < |looks| ensures env.Logs(looks[i].time, lo + i) == env.Logs(t', lo + i) {
      SameBlock(env, t, lo + i, looks[i].time, t');
    }
    UnchangedSame(env, lo, looks, f, t');
  }

  /** What an uncached scan at any one moment finds, as long as the blocks in
      question did not change while the looks were taken. */
  lemma StillScan(env: Env, f: LogFilter, lo: nat, looks: seq<Look>, from: nat, to: nat, t: nat)
    requires looks != [] && LookedBetween(looks, f, from, to) && from <= t < to
    requires forall b: nat, u: nat :: lo <= b < lo + |looks| && from <= u < to ==> env.Logs(u, b) == env.Logs(t, b)
    ensures Scan(Eye(env), lo, looks) == At(env, t, f, lo, lo + |looks| - 1)
  {
    UnchangedSame(env, lo, looks, f, t);
  }

  lemma SameBlock(env: Env, t: nat, b: nat, u: nat, u': nat)
    requires Sane(env) && t <= u && t <= u' && b + REORG_SAFETY_BLOCKS <= env.Head(t)
    ensures env.Logs(u, b) == env.Logs(u', b)
  {
    assert Calm(env, t, u) && Calm(env, t, u');
  }

  /** A buried range scans the same later. */
  lemma AtLater(env: Env, t: nat, t': nat, f: LogFilter, lo: nat, hi: nat)
    requires Sane(env) && t <= t' && lo <= hi && hi + REORG_SAFETY_BLOCKS <= env.Head(t)
    ensures At(env, t, f, lo, hi) == At(env, t', f, lo, hi)
  {
    BuriedScan(env, t, f, lo, Steady(Look(t, f), hi + 1 - lo), t');
  }

  lemma SoundChunkLater(env: Env, cfg: Config, t: nat, t': nat, lo: nat, hi: nat,
                        stored: LogCache.Stored<RegistryChunk>)
    requires Sane(env) && t <= t' && lo <= hi && SoundChunk(env, cfg, t, lo, hi, stored)
    ensures SoundChunk(env, cfg, t', lo, hi, stored)
  {
    assert Calm(env, t, t');
    if stored.Readable? {
      AtLater(env, t, t', RegistryFilter(cfg), lo, hi);
    }
  }

  /** Time passing, with all the growth and reorganisation it brings, cannot
      make a stored chunk wrong. */
  lemma SoundLater(env: Env, cfg: Config, t: nat, t': nat, chunks: map<string, LogCache.Stored<RegistryChunk>>)
    requires Sane(env) && t <= t' && SoundCache(env, cfg, t, chunks)
    ensures SoundCache(env, cfg, t', chunks)
  {
    forall lo: nat, hi: nat | lo <= hi < LogCache.U64_END && LogCache.ChunkKey(ChunkScanId(cfg), lo, hi) in chunks
      ensures SoundChunk(env, cfg, t', lo, hi, chunks[LogCache.ChunkKey(ChunkScanId(cfg), lo, hi)])
    {
      SoundChunkLater(env, cfg, t, t', lo, hi, chunks[LogCache.ChunkKey(ChunkScanId(cfg), lo, hi)]);
    }
  }

  /** Storing one sound chunk leaves every other key alone. */
  lemma SoundPut(env: Env, cfg: Config, t: nat, chunks: map<string, LogCache.Stored<RegistryChunk>>,
                 lo: nat, hi: nat, stored: LogCache.Stored<RegistryChunk>)
    requires SoundCache(env, cfg, t, chunks) && lo <= hi < LogCache.U64_END
    requires SoundChunk(env, cfg, t, lo, hi, stored)
    ensures SoundCache(env, cfg, t, chunks[LogCache.ChunkKey(ChunkScanId(cfg), lo, hi) := stored])
  {
    var id := ChunkScanId(cfg);
    var key := LogCache.ChunkKey(id, lo, hi);
    forall lo': nat, hi': nat | lo' <= hi' < LogCache.U64_END && LogCache.ChunkKey(id, lo', hi') in chunks[key := stored]
      ensures SoundChunk(env, cfg, t, lo', hi', chunks[key := stored][LogCache.ChunkKey(id, lo', hi')])
    {
      if LogCache.ChunkKey(id, lo', hi') == key {
        LogCache.ChunkKeyInjective(id, lo, hi, id, lo', hi');
      }
    }
  }

  // ---- one store for several chains ------------------------------------------

  /** Checkpoints are told apart by chain and by scan. */
  lemma CheckpointsScoped(cfg: Config, other: Config)
    ensures RegistryScanId(cfg) == RegistryScanId(other) <==> cfg.chainName == other.chainName
    ensures DepositsScanId(cfg) == DepositsScanId(other) <==> cfg.chainName == other.chainName
    ensures RegistryScanId(cfg) != DepositsScanId(other)
  {
    var a, b := RegistryScanId(cfg), RegistryScanId(other);
    var c, d := DepositsScanId(cfg), DepositsScanId(other);
    if a == b {
      assert a[4..|a| - 17] == cfg.chainName && b[4..|b| - 17] == other.chainName;
    }
    if c == d {
      assert c[4..|c| - 12] == cfg.chainName && d[4..|d| - 12] == other.chainName;
    }
    assert a[|a| - 1] == 'k' && d[|d| - 1] == '2';
  }

  /** Chunks are told apart by their contracts, and by nothing else. */
  lemma ChunksScoped(cfg: Config, other: Config)
    ensures ChunkScanId(cfg) == ChunkScanId(other) <==> cfg.factory == other.factory && cfg.webhookRegistry == other.webhookRegistry
  {
    var a, b := ChunkScanId(cfg), ChunkScanId(other);
    if a == b {
      assert a[20..62] == AddressText(cfg.factory) && b[20..62] == AddressText(other.factory);
      assert a[63..] == AddressText(cfg.webhookRegistry) && b[63..] == AddressText(other.webhookRegistry);
      AddressTextInjective(cfg.factory, other.factory);
      AddressTextInjective(cfg.webhookRegistry, other.webhookRegistry);
    }
  }

  /** A chunk stored for another chain leaves this chain's cache correct exactly
      when the contracts differ or the chunk happens to be right here too. */
  lemma ForeignChunk(env: Env, cfg: Config, t: nat, chunks: map<string, LogCache.Stored<RegistryChunk>>,
                     other: Config, lo: nat, hi: nat, stored: LogCache.Stored<RegistryChunk>)
    requires SoundCache(env, cfg, t, chunks) && lo <= hi < LogCache.U64_END
    ensures SoundCache(env, cfg, t, chunks[LogCache.ChunkKey(ChunkScanId(other), lo, hi) := stored]) <==>
      cfg.factory != other.factory || cfg.webhookRegistry != other.webhookRegistry || SoundChunk(env, cfg, t, lo, hi, stored)
  {
    var key := LogCache.ChunkKey(ChunkScanId(other), lo, hi);
    var id := ChunkScanId(cfg);
    ChunksScoped(cfg, other);
    if ChunkScanId(other) == id {
      if SoundChunk(env, cfg, t, lo, hi, stored) {
        SoundPut(env, cfg, t, chunks, lo, hi, stored);
      } else {
        assert LogCache.ChunkKey(id, lo, hi) in chunks[key := stored];
      }
    } else {
      forall lo': nat, hi': nat | lo' <= hi' < LogCache.U64_END && LogCache.ChunkKey(id, lo', hi') in chunks[key := stored]
        ensures SoundChunk(env, cfg, t, lo', hi', chunks[key := stored][LogCache.ChunkKey(id, lo', hi')])
      {
        if LogCache.ChunkKey(id, lo', hi') == key {
          LogCache.ChunkKeyInjective(ChunkScanId(other), lo, hi, id, lo', hi');
        }
      }
    }
  }

  /** A key for a chunk of these contracts. */
  predicate OwnKey(cfg: Config, key: string) {
    var id := ChunkScanId(cfg) + ":";
    |key| == |id| + 41 && key[..|id|] == id
  }

  ghost predicate SameAt<T>(was: map<string, T>, now: map<string, T>, key: string) {
    (key in was <==> key in now) && (key in was ==> was[key] == now[key])
  }

  /** Nothing but chunks of these contracts has changed. */
  ghost predicate OwnChunks(cfg: Config, was: map<string, LogCache.Stored<RegistryChunk>>,
                            now: map<string, LogCache.Stored<RegistryChunk>>)
  {
    forall key :: !OwnKey(cfg, key) ==> SameAt(was, now, key)
  }

  lemma OwnChunksJoin(cfg: Config, a: map<string, LogCache.Stored<RegistryChunk>>,
                      b: map<string, LogCache.Stored<RegistryChunk>>, c: map<string, LogCache.Stored<RegistryChunk>>)
    requires OwnChunks(cfg, a, b) && OwnChunks(cfg, b, c)
    ensures OwnChunks(cfg, a, c)
  {
    forall key | !OwnKey(cfg, key) ensures SameAt(a, c, key) {
      assert SameAt(a, b, key) && SameAt(b, c, key);
    }
  }

  lemma ChunkKeyOwn(cfg: Config, lo: nat, hi: nat)
    ensures OwnKey(cfg, LogCache.ChunkKey(ChunkScanId(cfg), lo, hi))
  {
    var key := LogCache.ChunkKey(ChunkScanId(cfg), lo, hi);
    assert key[..|ChunkScanId(cfg)| + 1] == ChunkScanId(cfg) + ":";
  }

  // ---- discovery -----------------------------------------------------------

  /** What was found is what the looks show. */
  ghost predicate Found(env: Env, cfg: Config, lo: nat, looks: seq<Look>, receivers: seq<Receiver>,
                        webhooks: seq<(Address, string)>)
  {
    var seen := Scan(Eye(env), lo, looks);
    receivers == Receivers(cfg, seen) && webhooks == Webhooks(cfg, seen)
  }

  lemma FoundAppend(env: Env, cfg: Config, lo: nat,
                    a: seq<Look>, r: seq<Receiver>, w: seq<(Address, string)>,
                    mid: nat, b: seq<Look>, r': seq<Receiver>, w': seq<(Address, string)>)
    requires mid == lo + |a| && Found(env, cfg, lo, a, r, w) && Found(env, cfg, mid, b, r', w')
    ensures Found(env, cfg, lo, a + b, r + r', w + w')
  {
    ScanJoin(Eye(env), lo, a, mid, b);
    ReceiversAppend(cfg, Scan(Eye(env), lo, a), Scan(Eye(env), mid, b));
    WebhooksAppend(cfg, Scan(Eye(env), lo, a), Scan(Eye(env), mid, b));
  }

  /** What was found is what the two contracts said in the looked-at blocks: every
      event of theirs, whatever it is about. */
  ghost predicate Heard(env: Env, cfg: Config, lo: nat, looks: seq<Look>, receivers: seq<Receiver>,
                        webhooks: seq<(Address, string)>)
  {
    var said := Scan(Ear(env, cfg), lo, looks);
    receivers == Receivers(cfg, said) && webhooks == Webhooks(cfg, said)
  }

  lemma FoundHeard(env: Env, cfg: Config, lo: nat, looks: seq<Look>, receivers: seq<Receiver>,
                   webhooks: seq<(Address, string)>)
    requires ForRegistry(cfg, looks)
    ensures Found(env, cfg, lo, looks, receivers, webhooks) <==> Heard(env, cfg, lo, looks, receivers, webhooks)
  {
    ScanHears(env, cfg, lo, looks);
  }

  lemma AtHears(env: Env, cfg: Config, time: nat, lo: nat, hi: nat)
    requires lo <= hi
    ensures
      var seen, said := At(env, time, RegistryFilter(cfg), lo, hi), Said(env, cfg, time, lo, hi);
      Receivers(cfg, seen) == Receivers(cfg, said) && Webhooks(cfg, seen) == Webhooks(cfg, said)
  {
    ScanHears(env, cfg, lo, Steady(Look(time, RegistryFilter(cfg)), hi + 1 - lo));
  }

  /** A correct chunk holds everything the two contracts said in its blocks. */
  lemma SoundChunkHeard(env: Env, cfg: Config, time: nat, lo: nat, hi: nat, stored: LogCache.Stored<RegistryChunk>)
    requires lo <= hi && stored.Readable? && SoundChunk(env, cfg, time, lo, hi, stored)
    ensures
      var said := Said(env, cfg, time, lo, hi);
      IntoFound(stored.value) == (Receivers(cfg, said), Webhooks(cfg, said))
  {
    AtHears(env, cfg, time, lo, hi);
  }

  lemma FoundNothing(env: Env, cfg: Config, lo: nat)
    ensures Found(env, cfg, lo, [], [], [])
  {
  }

  /** The scanner behind both discovery paths. */
  method DiscoverRegistryRange(
    env: Env, cache: Cache, cfg: Config, from: nat, to: nat, maxWindow: nat, persist: bool, start: nat
  ) returns (out: Outcome, receivers: seq<Receiver>, webhooks: seq<(Address, string)>, now: nat, ghost looks: seq<Look>)
    requires Sane(env) && maxWindow >= MIN_BLOCKS_PER_REQUEST
    modifies cache`checkpoints
    ensures now >= start && Looked(env, from, looks, RegistryFilter(cfg), start, now)
    ensures looks != [] ==> from + |looks| <= to + 1
    ensures out.Streamed? ==> Found(env, cfg, from, looks, receivers, webhooks)
    ensures out.Streamed? ==> Heard(env, cfg, from, looks, receivers, webhooks)
    ensures out.Streamed? && from + |looks| <= to ==> Behind(env, RegistryFilter(cfg), from + |looks|, start, now)
    ensures !out.Streamed? ==> Trouble(env, RegistryFilter(cfg), persist, start, now)
    ensures out.Streamed? ==> out.last == Reached(from, looks, persist, cache.Checkpoint(RegistryScanId(cfg)))
    ensures cache.checkpoints == Marked(old(cache.checkpoints), RegistryScanId(cfg), persist, from, |looks|)
  {
    var found;
    ghost var asked;
    out, found, now, looks, asked :=
      StreamLogs(env, cache, RegistryScanId(cfg), from, to, RegistryFilter(cfg), maxWindow, persist, start);
    receivers, webhooks := [], [];
    if out.Streamed? {
      receivers, webhooks := Collect(cfg, found);
      FoundHeard(env, cfg, from, looks, receivers, webhooks);
    }
  }

  /** Resumes at the saved checkpoint; every finished batch moves it. */
  method DiscoverRegistryActivity(env: Env, cache: Cache, cfg: Config, to: nat, start: nat)
    returns (out: Outcome, receivers: seq<Receiver>, webhooks: seq<(Address, string)>, now: nat, ghost looks: seq<Look>)
    requires Sane(env)
    modifies cache`checkpoints
    ensures now >= start && (!out.Streamed? ==> Trouble(env, RegistryFilter(cfg), true, start, now))
    ensures looks != [] ==> Resume(old(cache.Checkpoint(RegistryScanId(cfg))), RegistryStart(cfg)) + |looks| <= to + 1
    ensures
      var from := Resume(old(cache.Checkpoint(RegistryScanId(cfg))), RegistryStart(cfg));
      && Looked(env, from, looks, RegistryFilter(cfg), start, now)
      && (out.Streamed? ==> Found(env, cfg, from, looks, receivers, webhooks))
      && (out.Streamed? && from + |looks| <= to ==> Behind(env, RegistryFilter(cfg), from + |looks|, start, now))
      && cache.checkpoints == Marked(old(cache.checkpoints), RegistryScanId(cfg), true, from, |looks|)
  {
    var saved := cache.GetCheckpoint(RegistryScanId(cfg));
    var from := Resume(saved, RegistryStart(cfg));
    if from > to {
      FoundNothing(env, cfg, from);
      return Streamed(None), [], [], start, [];
    }
    out, receivers, webhooks, now, looks :=
      DiscoverRegistryRange(env, cache, cfg, from, to, MAX_BLOCKS_PER_REQUEST, true, start);
  }

  // ---- full rebuild --------------------------------------------------------

  datatype ChunkResult =
    | Whole                      // the chunk is covered
    | Part(last: nat)            // Portal is behind: stop after what there is
    | Nothing                    // Portal has none of it: stop
    | Gave(out: Outcome)         // error or crash

  ghost predicate Settled(to: nat, lo: nat, hi: nat) {
    hi + 1 == lo + REGISTRY_CHUNK_BLOCKS && hi + REORG_SAFETY_BLOCKS <= to
  }

  /** A chunk that can be read off the disk. */
  ghost predicate OnDisk(cfg: Config, chunks: map<string, LogCache.Stored<RegistryChunk>>, lo: nat, hi: nat) {
    var key := LogCache.ChunkKey(ChunkScanId(cfg), lo, hi);
    key in chunks && chunks[key].Readable?
  }

  /** Whatever could be read before can be read still. */
  ghost predicate StaysOnDisk(cfg: Config, was: map<string, LogCache.Stored<RegistryChunk>>,
                              now: map<string, LogCache.Stored<RegistryChunk>>)
  {
    forall lo: nat, hi: nat :: OnDisk(cfg, was, lo, hi) ==> OnDisk(cfg, now, lo, hi)
  }

  /** The disk refused a write. */
  ghost predicate Refusing(env: Env, t0: nat, t1: nat) {
    exists t :: t0 <= t <= t1 && t in env.diskFull
  }

  /** The first and last block of the rebuild's chunk `i`. */
  ghost function ChunkAt(cfg: Config, i: nat): (nat, nat) {
    var lo := RegistryStart(cfg) + i * REGISTRY_CHUNK_BLOCKS;
    (lo, lo + REGISTRY_CHUNK_BLOCKS - 1)
  }

  /** The first `n` chunks are settled and can be read off the disk. */
  ghost predicate Stocked(cfg: Config, to: nat, chunks: map<string, LogCache.Stored<RegistryChunk>>, n: nat) {
    forall i: nat :: i < n ==>
      var c := ChunkAt(cfg, i);
      Settled(to, c.0, c.1) && OnDisk(cfg, chunks, c.0, c.1)
  }

  lemma StockedStill(cfg: Config, to: nat, was: map<string, LogCache.Stored<RegistryChunk>>,
                     now: map<string, LogCache.Stored<RegistryChunk>>, n: nat)
    requires Stocked(cfg, to, was, n) && StaysOnDisk(cfg, was, now)
    ensures Stocked(cfg, to, now, n)
  {
  }

  /** A rebuild that saw `n` blocks was not stopped short of any chunk in stock. */
  ghost predicate UsesStock(cfg: Config, to: nat, chunks: map<string, LogCache.Stored<RegistryChunk>>, n: nat) {
    forall m: nat :: Stocked(cfg, to, chunks, m) ==> m * REGISTRY_CHUNK_BLOCKS <= n
  }

  /** Every settled chunk among the `n` blocks of a rebuild is in stock. */
  ghost predicate FillsStock(cfg: Config, to: nat, chunks: map<string, LogCache.Stored<RegistryChunk>>, n: nat) {
    forall m: nat :: 0 < m && m * REGISTRY_CHUNK_BLOCKS <= n && ChunkAt(cfg, m - 1).1 + REORG_SAFETY_BLOCKS <= to ==>
      Stocked(cfg, to, chunks, m)
  }

  /** How many blocks `from..=to` are. */
  ghost function Length(from: nat, to: nat): nat {
    if from <= to then to + 1 - from else 0
  }

  /** Chunk `i` of the drained iterator is chunk `i` of the grid, cut off at `to`. */
  lemma OnGrid(cfg: Config, to: nat, i: nat)
    requires i < |LogCache.Chunks(RegistryStart(cfg), to, REGISTRY_CHUNK_BLOCKS)|
    ensures
      var r := LogCache.Chunks(RegistryStart(cfg), to, REGISTRY_CHUNK_BLOCKS);
      var c := ChunkAt(cfg, i);
      && r[i].0 == c.0 && c.0 <= r[i].1 == LogCache.Min(c.1, to)
      && (if i + 1 < |r| then r[i].1 == c.1 else r[i].1 == to)
  {
    LogCache.ChunksTile(RegistryStart(cfg), to, REGISTRY_CHUNK_BLOCKS, i);
  }

  /** A rebuild that saw every block used the whole stock. */
  lemma AllInStock(cfg: Config, to: nat, chunks: map<string, LogCache.Stored<RegistryChunk>>, n: nat)
    requires RegistryStart(cfg) + n > to
    ensures UsesStock(cfg, to, chunks, n)
  {
    forall m: nat | Stocked(cfg, to, chunks, m) ensures m * REGISTRY_CHUNK_BLOCKS <= n {
      if m > 0 {
        var c := ChunkAt(cfg, m - 1);
        assert Settled(to, c.0, c.1);
      }
    }
  }

  /** The stock ends at chunk `i`. */
  lemma StockEnds(cfg: Config, to: nat, chunks: map<string, LogCache.Stored<RegistryChunk>>, i: nat, n: nat)
    requires i * REGISTRY_CHUNK_BLOCKS <= n
    requires var c := ChunkAt(cfg, i); !(Settled(to, c.0, c.1) && OnDisk(cfg, chunks, c.0, c.1))
    ensures UsesStock(cfg, to, chunks, n)
  {
    forall m: nat | Stocked(cfg, to, chunks, m) ensures m * REGISTRY_CHUNK_BLOCKS <= n {
      assert m <= i;
    }
  }

  /** Chunk `i` was covered whole and is in stock, or it was not covered whole. */
  lemma FillsMore(cfg: Config, to: nat, was: map<string, LogCache.Stored<RegistryChunk>>,
                  now: map<string, LogCache.Stored<RegistryChunk>>, i: nat, n: nat)
    requires FillsStock(cfg, to, was, i * REGISTRY_CHUNK_BLOCKS) && StaysOnDisk(cfg, was, now)
    requires n <= (i + 1) * REGISTRY_CHUNK_BLOCKS
    requires
      var c := ChunkAt(cfg, i);
      n == (i + 1) * REGISTRY_CHUNK_BLOCKS && Settled(to, c.0, c.1) ==> OnDisk(cfg, now, c.0, c.1)
    ensures FillsStock(cfg, to, now, n)
  {
    forall m: nat | 0 < m && m * REGISTRY_CHUNK_BLOCKS <= n && ChunkAt(cfg, m - 1).1 + REORG_SAFETY_BLOCKS <= to
      ensures Stocked(cfg, to, now, m)
    {
      var whole := LogCache.Min(m, i);
      if whole > 0 {
        assert Stocked(cfg, to, was, whole);
        StockedStill(cfg, to, was, now, whole);
      }
    }
  }

  /** The stock is filled as far as `n` blocks go, or the disk refused a write. */
  ghost predicate Filled(env: Env, cfg: Config, to: nat, chunks: map<string, LogCache.Stored<RegistryChunk>>, n: nat,
                         t0: nat, t1: nat)
  {
    FillsStock(cfg, to, chunks, n) || Refusing(env, t0, t1)
  }

  /** One more chunk `i` of the rebuild, covered whole or the last one looked at. */
  lemma OneMoreChunk(
    env: Env, cfg: Config, to: nat, first: map<string, LogCache.Stored<RegistryChunk>>,
    was: map<string, LogCache.Stored<RegistryChunk>>, now: map<string, LogCache.Stored<RegistryChunk>>,
    i: nat, hi: nat, whole: bool, n: nat, start: nat, t0: nat, t1: nat)
    requires StaysOnDisk(cfg, first, was) && StaysOnDisk(cfg, was, now) && t0 <= t1
    requires Filled(env, cfg, to, was, i * REGISTRY_CHUNK_BLOCKS, start, t0)
    requires hi == LogCache.Min(ChunkAt(cfg, i).1, to)
    requires if whole then n == hi + 1 - RegistryStart(cfg) else i * REGISTRY_CHUNK_BLOCKS <= n <= hi - RegistryStart(cfg)
    requires Settled(to, ChunkAt(cfg, i).0, hi) && OnDisk(cfg, was, ChunkAt(cfg, i).0, hi) ==> whole
    requires whole && Settled(to, ChunkAt(cfg, i).0, hi) ==>
      OnDisk(cfg, now, ChunkAt(cfg, i).0, hi) || Refusing(env, start, t1)
    ensures Filled(env, cfg, to, now, n, start, t1)
    ensures !whole ==> UsesStock(cfg, to, first, n)
  {
    if !Refusing(env, start, t1) {
      assert !Refusing(env, start, t0);
      FillsMore(cfg, to, was, now, i, n);
    }
    if !whole {
      StockEnds(cfg, to, first, i, n);
    }
  }

  /** A chunk fetched whole and settled goes to the cache; a refused write is
      only a warning. */
  method KeepChunk(env: Env, cache: Cache, cfg: Config, to: nat, lo: nat, hi: nat,
                   receivers: seq<Receiver>, webhooks: seq<(Address, string)>, start: nat, now: nat, ghost looks: seq<Look>)
    requires Sane(env) && lo <= hi && Settled(to, lo, hi) && start <= now && to <= env.Head(start)
    requires |looks| == hi + 1 - lo && LookedBetween(looks, RegistryFilter(cfg), start, now)
    requires Found(env, cfg, lo, looks, receivers, webhooks)
    requires SoundCache(env, cfg, now, cache.chunks)
    modifies cache`chunks
    ensures SoundCache(env, cfg, now, cache.chunks)
    ensures
      var key := LogCache.ChunkKey(ChunkScanId(cfg), lo, hi);
      cache.chunks == if now in env.diskFull then old(cache.chunks)
                      else old(cache.chunks)[key := LogCache.Readable(FromFound(receivers, webhooks))]
    ensures OwnChunks(cfg, old(cache.chunks), cache.chunks) && StaysOnDisk(cfg, old(cache.chunks), cache.chunks)
    ensures OnDisk(cfg, cache.chunks, lo, hi) || now in env.diskFull
  {
    ChunkKeyOwn(cfg, lo, hi);
    assert Calm(env, start, now);
    BuriedScan(env, start, RegistryFilter(cfg), lo, looks, now);
    ChunkRoundTrip(receivers, webhooks);
    ghost var stored := LogCache.Readable(FromFound(receivers, webhooks));
    assert SoundChunk(env, cfg, now, lo, hi, stored);
    SoundPut(env, cfg, now, cache.chunks, lo, hi, stored);
    var _ := cache.PutChunk(ChunkScanId(cfg), lo, hi, FromFound(receivers, webhooks), now !in env.diskFull);
  }

  /** A settled chunk out of the cache, if it is there and readable. */
  method CachedChunk(env: Env, cache: Cache, cfg: Config, to: nat, lo: nat, hi: nat, start: nat)
    returns (hit: bool, receivers: seq<Receiver>, webhooks: seq<(Address, string)>, ghost looks: seq<Look>)
    requires Sane(env) && lo <= hi <= to <= env.Head(start) && SoundCache(env, cfg, start, cache.chunks)
    ensures hit <==> Settled(to, lo, hi) && OnDisk(cfg, cache.chunks, lo, hi)
    ensures hit ==> |looks| == hi + 1 - lo && Looked(env, lo, looks, RegistryFilter(cfg), start, start + 1)
    ensures hit ==> Found(env, cfg, lo, looks, receivers, webhooks)
  {
    hit, receivers, webhooks, looks := false, [], [], [];
    var isFull := hi - lo + 1 == REGISTRY_CHUNK_BLOCKS;
    if isFull && hi + REORG_SAFETY_BLOCKS <= to {
      assert Calm(env, start, start);
      var r := cache.GetChunk(ChunkScanId(cfg), lo, hi);
      if r.Hit? {
        var found := IntoFound(r.value);
        hit, receivers, webhooks := true, found.0, found.1;
        looks := Steady(Look(start, RegistryFilter(cfg)), hi + 1 - lo);
        assert SoundChunk(env, cfg, start, lo, hi, LogCache.Readable(r.value));
      }
    }
  }

  /** One chunk of the rebuild: from the cache, or fetched and then kept. */
  method RebuildChunk(env: Env, cache: Cache, cfg: Config, to: nat, lo: nat, hi: nat, start: nat)
    returns (r: ChunkResult, receivers: seq<Receiver>, webhooks: seq<(Address, string)>, now: nat, ghost looks: seq<Look>)
    requires Sane(env) && lo <= hi <= to <= env.Head(start) && SoundCache(env, cfg, start, cache.chunks)
    modifies cache`chunks, cache`checkpoints
    ensures now >= start && SoundCache(env, cfg, now, cache.chunks) && cache.checkpoints == old(cache.checkpoints)
    ensures Looked(env, lo, looks, RegistryFilter(cfg), start, now)
    ensures r.Gave? ==> !r.out.Streamed? && Trouble(env, RegistryFilter(cfg), false, start, now)
    ensures !r.Gave? ==> Found(env, cfg, lo, looks, receivers, webhooks)
    ensures r.Nothing? ==> looks == []
    ensures r.Part? ==> 0 < |looks| < hi + 1 - lo && r.last == lo + |looks| - 1
    ensures r.Whole? ==> |looks| == hi + 1 - lo
    ensures r.Nothing? || r.Part? ==> Behind(env, RegistryFilter(cfg), lo + |looks|, start, now)
    ensures OwnChunks(cfg, old(cache.chunks), cache.chunks) && StaysOnDisk(cfg, old(cache.chunks), cache.chunks)
    ensures Settled(to, lo, hi) && OnDisk(cfg, old(cache.chunks), lo, hi) ==>
      r.Whole? && now == start + 1 && cache.chunks == old(cache.chunks)
    ensures r.Whole? && Settled(to, lo, hi) ==> OnDisk(cfg, cache.chunks, lo, hi) || Refusing(env, start, now)
  {
    var hit;
    hit, receivers, webhooks, looks := CachedChunk(env, cache, cfg, to, lo, hi, start);
    if hit {
      now := start + 1;
      SoundLater(env, cfg, start, now, cache.chunks);
      return Whole, receivers, webhooks, now, looks;
    }
    var out;
    out, receivers, webhooks, now, looks :=
      DiscoverRegistryRange(env, cache, cfg, lo, hi, REGISTRY_CHUNK_BLOCKS, false, start);
    SoundLater(env, cfg, start, now, cache.chunks);
    if !out.Streamed? {
      return Gave(out), [], [], now, looks;
    }
    if out.last.None? {
      return Nothing, receivers, webhooks, now, looks;
    }
    var last := out.last.value;
    if hi - lo + 1 == REGISTRY_CHUNK_BLOCKS && hi + REORG_SAFETY_BLOCKS <= to && last >= hi {
      if now in env.killed {
        TroubleNow(env, RegistryFilter(cfg), false, start, now);
        return Gave(Killed), [], [], now, looks;
      }
      KeepChunk(env, cache, cfg, to, lo, hi, receivers, webhooks, start, now, looks);
    }
    r := if last < hi then Part(last) else Whole;
  }

  datatype Rebuilt =
    | Snapshot(receivers: seq<Receiver>, webhooks: seq<(Address, string)>, scannedTo: nat)
    | NotRebuilt(out: Outcome)

  /** Where the registry checkpoint stands after a rebuild: never further back. */
  function Forward(saved: Option<nat>, to: nat): Option<nat> {
    if saved.Some? && saved.value >= to then saved else Some(to)
  }

  /** Keeps the live path's checkpoint in step, forward only. */
  method AdvanceRegistry(env: Env, cache: Cache, cfg: Config, scannedTo: nat, now: nat) returns (out: Outcome)
    modifies cache`checkpoints
    ensures out.Streamed? ==> cache.Checkpoint(RegistryScanId(cfg)) == Forward(old(cache.Checkpoint(RegistryScanId(cfg))), scannedTo)
    ensures !out.Streamed? ==> cache.checkpoints == old(cache.checkpoints) && (now in env.killed || now in env.diskFull)
    ensures OnlyMoves(RegistryScanId(cfg), old(cache.checkpoints), cache.checkpoints)
  {
    var existing := cache.GetCheckpoint(RegistryScanId(cfg));
    if existing.None? || existing.value < scannedTo {
      if now in env.killed {
        return Killed;
      }
      var ok := cache.SetCheckpoint(RegistryScanId(cfg), scannedTo, now !in env.diskFull);
      if !ok {
        return Failed;
      }
    }
    out := Streamed(Some(scannedTo));
  }

  /** What the rebuild has put together so far. */
  datatype Gathered = Gathered(receivers: seq<Receiver>, webhooks: seq<(Address, string)>, scannedTo: Option<nat>, now: nat)

  ghost predicate OnRecord(env: Env, cfg: Config, start: nat, to: nat, g: Gathered, looks: seq<Look>) {
    var from := RegistryStart(cfg);
    && start <= g.now && Looked(env, from, looks, RegistryFilter(cfg), start, g.now)
    && Found(env, cfg, from, looks, g.receivers, g.webhooks)
    && g.scannedTo == (if looks == [] then None else Some(from + |looks| - 1))
    && (looks != [] ==> from + |looks| <= to + 1)
  }

  lemma OnRecordMore(env: Env, cfg: Config, start: nat, to: nat, g: Gathered, looks: seq<Look>, lo: nat,
                     m: seq<Receiver>, w: seq<(Address, string)>, more: seq<Look>, scannedTo: Option<nat>, now: nat)
    requires OnRecord(env, cfg, start, to, g, looks)
    requires lo == RegistryStart(cfg) + |looks| && Found(env, cfg, lo, more, m, w)
    requires g.now <= now && Looked(env, lo, more, RegistryFilter(cfg), g.now, now)
    requires more == [] ==> scannedTo == g.scannedTo
    requires more != [] ==> scannedTo.Some? && scannedTo.value + 1 == lo + |more| && scannedTo.value <= to
    ensures OnRecord(env, cfg, start, to, Gathered(g.receivers + m, g.webhooks + w, scannedTo, now), looks + more)
  {
    var from := RegistryStart(cfg);
    LookedJoin(env, from, looks, lo, more, RegistryFilter(cfg), start, g.now, now);
    FoundAppend(env, cfg, from, looks, g.receivers, g.webhooks, lo, more, m, w);
    Recorded(env, cfg, start, to, Gathered(g.receivers + m, g.webhooks + w, scannedTo, now), looks + more);
  }

  lemma Recorded(env: Env, cfg: Config, start: nat, to: nat, g: Gathered, looks: seq<Look>)
    requires start <= g.now && Looked(env, RegistryStart(cfg), looks, RegistryFilter(cfg), start, g.now)
    requires Found(env, cfg, RegistryStart(cfg), looks, g.receivers, g.webhooks)
    requires looks == [] ==> g.scannedTo.None?
    requires looks != [] ==> g.scannedTo.Some? && g.scannedTo.value + 1 == RegistryStart(cfg) + |looks| <= to + 1
    ensures OnRecord(env, cfg, start, to, g, looks)
  {
  }

  /** One more chunk on top of what was gathered. */
  method GatherChunk(env: Env, cache: Cache, cfg: Config, to: nat, lo: nat, hi: nat, start: nat, g: Gathered,
                     ghost looks: seq<Look>)
    returns (r: ChunkResult, g': Gathered, ghost looks': seq<Look>)
    requires Sane(env) && OnRecord(env, cfg, start, to, g, looks) && lo == RegistryStart(cfg) + |looks|
    requires lo <= hi <= to <= env.Head(start) && SoundCache(env, cfg, g.now, cache.chunks)
    modifies cache`chunks, cache`checkpoints
    ensures SoundCache(env, cfg, g'.now, cache.chunks) && cache.checkpoints == old(cache.checkpoints)
    ensures g'.now >= g.now && (r.Gave? ==> !r.out.Streamed? && looks' == looks)
    ensures r.Gave? ==> Trouble(env, RegistryFilter(cfg), false, start, g'.now)
    ensures !r.Gave? ==> OnRecord(env, cfg, start, to, g', looks')
    ensures r.Whole? ==> RegistryStart(cfg) + |looks'| == hi + 1
    ensures r.Nothing? || r.Part? ==> Behind(env, RegistryFilter(cfg), RegistryStart(cfg) + |looks'|, start, g'.now)
    ensures OwnChunks(cfg, old(cache.chunks), cache.chunks) && StaysOnDisk(cfg, old(cache.chunks), cache.chunks)
    ensures Settled(to, lo, hi) && OnDisk(cfg, old(cache.chunks), lo, hi) ==> r.Whole?
    ensures r.Whole? && Settled(to, lo, hi) ==> OnDisk(cfg, cache.chunks, lo, hi) || Refusing(env, start, g'.now)
    ensures !r.Whole? ==> |looks| <= |looks'| <= hi - RegistryStart(cfg)
  {
    assert Calm(env, start, g.now);
    var m, w, now;
    ghost var more;
    r, m, w, now, more := RebuildChunk(env, cache, cfg, to, lo, hi, g.now);
    if r.Gave? {
      TroubleWider(env, RegistryFilter(cfg), false, g.now, now, start, now);
      return r, g.(now := now), looks;
    }
    looks' := looks + more;
    var scannedTo := if r.Whole? then Some(hi) else if r.Part? then Some(r.last) else g.scannedTo;
    OnRecordMore(env, cfg, start, to, g, looks, lo, m, w, more, scannedTo, now);
    g' := Gathered(g.receivers + m, g.webhooks + w, scannedTo, now);
    if r.Nothing? || r.Part? {
      BehindSince(env, RegistryFilter(cfg), lo + |more|, g.now, now, start);
    }
  }

  /** What a rebuild has gathered after `n` blocks, and what that did to the cache. */
  ghost predicate InStock(env: Env, cfg: Config, to: nat, first: map<string, LogCache.Stored<RegistryChunk>>,
                          chunks: map<string, LogCache.Stored<RegistryChunk>>, n: nat, t0: nat, t1: nat)
  {
    OwnChunks(cfg, first, chunks) && StaysOnDisk(cfg, first, chunks) && Filled(env, cfg, to, chunks, n, t0, t1)
  }

  /** Chunk `i` of the iterator; `first` is the cache the rebuild started with. */
  method GatherNext(env: Env, cache: Cache, cfg: Config, to: nat, chunks: seq<(nat, nat)>, i: nat, start: nat,
                    g: Gathered, ghost looks: seq<Look>, ghost first: map<string, LogCache.Stored<RegistryChunk>>)
    returns (r: ChunkResult, g': Gathered, ghost looks': seq<Look>)
    requires chunks == LogCache.Chunks(RegistryStart(cfg), to, REGISTRY_CHUNK_BLOCKS) && i < |chunks|
    requires Sane(env) && OnRecord(env, cfg, start, to, g, looks) && |looks| == i * REGISTRY_CHUNK_BLOCKS
    requires to <= env.Head(start) && SoundCache(env, cfg, g.now, cache.chunks)
    requires InStock(env, cfg, to, first, cache.chunks, |looks|, start, g.now)
    modifies cache`chunks, cache`checkpoints
    ensures SoundCache(env, cfg, g'.now, cache.chunks) && cache.checkpoints == old(cache.checkpoints)
    ensures g'.now >= g.now && (r.Gave? ==> !r.out.Streamed? && looks' == looks)
    ensures r.Gave? ==> Trouble(env, RegistryFilter(cfg), false, start, g'.now)
    ensures !r.Gave? ==> OnRecord(env, cfg, start, to, g', looks')
    ensures r.Whole? ==>
      |looks'| == if i + 1 < |chunks| then (i + 1) * REGISTRY_CHUNK_BLOCKS else Length(RegistryStart(cfg), to)
    ensures r.Nothing? || r.Part? ==> Behind(env, RegistryFilter(cfg), RegistryStart(cfg) + |looks'|, start, g'.now)
    ensures InStock(env, cfg, to, first, cache.chunks, |looks'|, start, g'.now)
    ensures !r.Whole? ==> UsesStock(cfg, to, first, |looks'|)
  {
    OnGrid(cfg, to, i);
    var (lo, hi) := chunks[i];
    ghost var was := cache.chunks;
    r, g', looks' := GatherChunk(env, cache, cfg, to, lo, hi, start, g, looks);
    OwnChunksJoin(cfg, first, was, cache.chunks);
    OneMoreChunk(env, cfg, to, first, was, cache.chunks, i, hi, r.Whole?, |looks'|, start, g.now, g'.now);
  }

  lemma BehindSince(env: Env, f: LogFilter, next: nat, t0: nat, t1: nat, start: nat)
    requires start <= t0 && Behind(env, f, next, t0, t1)
    ensures Behind(env, f, next, start, t1)
  {
    var q: Request :| t0 <= q.time < t1 && Unanswered(env, f, q, next);
    assert start <= q.time < t1 && Unanswered(env, f, q, next);
  }

  /** Chunk after chunk until one is short. `gave` tells why it gave up. */
  method GatherAll(env: Env, cache: Cache, cfg: Config, to: nat, start: nat)
    returns (gave: Option<Outcome>, g: Gathered, ghost looks: seq<Look>)
    requires Sane(env) && to <= env.Head(start) && SoundCache(env, cfg, start, cache.chunks)
    modifies cache`chunks, cache`checkpoints
    ensures SoundCache(env, cfg, g.now, cache.chunks) && cache.checkpoints == old(cache.checkpoints)
    ensures g.now >= start && Looked(env, RegistryStart(cfg), looks, RegistryFilter(cfg), start, g.now)
    ensures gave.Some? ==> !gave.value.Streamed? && Trouble(env, RegistryFilter(cfg), false, start, g.now)
    ensures gave.None? ==> OnRecord(env, cfg, start, to, g, looks)
    ensures gave.None? && RegistryStart(cfg) + |looks| <= to ==>
      Behind(env, RegistryFilter(cfg), RegistryStart(cfg) + |looks|, start, g.now)
    ensures OwnChunks(cfg, old(cache.chunks), cache.chunks)
    ensures UsesStock(cfg, to, old(cache.chunks), |looks|)
    ensures Filled(env, cfg, to, cache.chunks, |looks|, start, g.now)
  {
    var from := RegistryStart(cfg);
    var chunks := LogCache.ChunkRanges(from, to, REGISTRY_CHUNK_BLOCKS);
    gave, g, looks := None, Gathered([], [], None, start), [];
    FoundNothing(env, cfg, from);
    var stop := false;
    var i := 0;
    while i < |chunks| && !stop
      invariant 0 <= i <= |chunks|
      invariant SoundCache(env, cfg, g.now, cache.chunks) && cache.checkpoints == old(cache.checkpoints)
      invariant OnRecord(env, cfg, start, to, g, looks)
      invariant !stop ==> |looks| == if i < |chunks| then i * REGISTRY_CHUNK_BLOCKS else Length(from, to)
      invariant stop ==> UsesStock(cfg, to, old(cache.chunks), |looks|)
      invariant InStock(env, cfg, to, old(cache.chunks), cache.chunks, |looks|, start, g.now)
      invariant stop ==> Behind(env, RegistryFilter(cfg), from + |looks|, start, g.now)
      decreases |chunks| - i, !stop
    {
      var res;
      res, g, looks := GatherNext(env, cache, cfg, to, chunks, i, start, g, looks, old(cache.chunks));
      if res.Gave? {
        gave := Some(res.out);
        return;
      }
      stop := !res.Whole?;
      i := i + 1;
    }
    if !stop {
      AllInStock(cfg, to, old(cache.chunks), |looks|);
    }
  }

  /** No registry block at all could be had: there is none yet, or the Portal
      had nothing to show from the first one on. */
  ghost predicate NothingToShow(env: Env, cfg: Config, to: nat, t0: nat, t1: nat) {
    RegistryStart(cfg) <= to ==> Behind(env, RegistryFilter(cfg), RegistryStart(cfg), t0, t1)
  }

  /** The complete registry as of `scannedTo`, whatever checkpoint was saved:
      exactly what a plain scan of the looked-at blocks finds, from the start
      block to `scannedTo` without a gap; short of `to` only where the Portal is
      behind. */
  method RebuildRegistryState(env: Env, cache: Cache, cfg: Config, to: nat, start: nat)
    returns (r: Rebuilt, now: nat, ghost looks: seq<Look>)
    requires Sane(env) && to <= env.Head(start) && SoundCache(env, cfg, start, cache.chunks)
    modifies cache`chunks, cache`checkpoints
    ensures now >= start && SoundCache(env, cfg, now, cache.chunks)
    ensures Looked(env, RegistryStart(cfg), looks, RegistryFilter(cfg), start, now)
    ensures r.Snapshot? ==> Found(env, cfg, RegistryStart(cfg), looks, r.receivers, r.webhooks)
    ensures r.Snapshot? ==> Heard(env, cfg, RegistryStart(cfg), looks, r.receivers, r.webhooks)
    ensures r.Snapshot? ==> looks != [] && r.scannedTo == RegistryStart(cfg) + |looks| - 1 <= to
    ensures r.Snapshot? && r.scannedTo < to ==> Behind(env, RegistryFilter(cfg), r.scannedTo + 1, start, now)
    ensures UsesStock(cfg, to, old(cache.chunks), |looks|)
    ensures Filled(env, cfg, to, cache.chunks, |looks|, start, now)
    ensures r.Snapshot? ==> cache.Checkpoint(RegistryScanId(cfg)) == Forward(old(cache.Checkpoint(RegistryScanId(cfg))), r.scannedTo)
    ensures !r.Snapshot? ==> cache.checkpoints == old(cache.checkpoints)
    ensures OwnChunks(cfg, old(cache.chunks), cache.chunks)
    ensures !r.Snapshot? ==>
      || NothingToShow(env, cfg, to, start, now) || Trouble(env, RegistryFilter(cfg), false, start, now)
      || now in env.diskFull
    ensures OnlyMoves(RegistryScanId(cfg), old(cache.checkpoints), cache.checkpoints)
  {
    var gave, g;
    gave, g, looks := GatherAll(env, cache, cfg, to, start);
    now := g.now;
    if gave.Some? {
      return NotRebuilt(gave.value), now, looks;
    }
    if g.scannedTo.None? {
      return NotRebuilt(Failed), now, looks;
    }
    var out := AdvanceRegistry(env, cache, cfg, g.scannedTo.value, now);
    if !out.Streamed? && now in env.killed {
      TroubleNow(env, RegistryFilter(cfg), false, start, now);
    }
    FoundHeard(env, cfg, RegistryStart(cfg), looks, g.receivers, g.webhooks);
    r := if out.Streamed? then Snapshot(g.receivers, g.webhooks, g.scannedTo.value) else NotRebuilt(out);
  }
}
