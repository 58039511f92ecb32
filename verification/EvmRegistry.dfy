/** Registry events: how they are read out of logs, kept in cached chunks and
    folded into the receiver and webhook maps. */
module EvmRegistry {
  import opened Wrappers
  import opened Positional
  import opened Hex
  import opened Scanning
  import opened Portal

  datatype Route = Route(chain: Bytes32, recipient: Bytes32)

  /** One receiver the registry told about; `ReceiverRegistered` brings no route. */
  datatype Receiver = Receiver(merchant: Address, receiver: Address, route: Option<Route>)

  datatype Config = Config(
    chainName: string, factory: Address, webhookRegistry: Address, token: Address,
    registryStart: nat, webhookRegistryStart: nat, depositStart: nat,
    registeredTopic: Bytes32, announcedTopic: Bytes32, webhookTopic: Bytes32, transferTopic: Bytes32,
    abiStrings: imap<seq<byte>, string>     // the payloads that decode as one string
  )

  function RegistryFilter(cfg: Config): LogFilter {
    LogFilter({cfg.factory, cfg.webhookRegistry}, {cfg.registeredTopic, cfg.announcedTopic, cfg.webhookTopic}, {})
  }

  // ---- reading logs --------------------------------------------------------

  datatype Event = ReceiverSeen(record: Receiver) | WebhookSet(merchant: Address, url: string)

  /** An address in a topic: 32 bytes, of which the last twenty count. */
  function TopicAddress(topic: seq<byte>): Option<Address> {
    if |topic| != 32 then None else Some(topic[12..32])
  }

  /** What one log says; malformed and foreign logs say nothing. */
  function ReadLog(cfg: Config, log: Log): Option<Event> {
    if |log.topics| == 0 then None
    else if log.topics[0] == cfg.registeredTopic then
      if |log.topics| < 2 || |log.data| < 32 then None
      else
        match TopicAddress(log.topics[1])
        case Some(m) => Some(ReceiverSeen(Receiver(m, log.data[12..32], None)))
        case None => None
    else if log.topics[0] == cfg.announcedTopic then
      if |log.topics| < 3 || |log.data| < 64 then None
      else
        match (TopicAddress(log.topics[1]), TopicAddress(log.topics[2]))
        case (Some(m), Some(r)) => Some(ReceiverSeen(Receiver(m, r, Some(Route(log.data[0..32], log.data[32..64])))))
        case _ => None
    else if log.topics[0] == cfg.webhookTopic then
      if |log.topics| < 2 then None
      else
        match TopicAddress(log.topics[1])
        case Some(m) => if log.data in cfg.abiStrings then Some(WebhookSet(m, cfg.abiStrings[log.data])) else None
        case None => None
    else None
  }

  /** The record a log adds, if any. */
  function ReceiverIn(cfg: Config, log: Log): seq<Receiver> {
    match ReadLog(cfg, log)
    case Some(ReceiverSeen(rec)) => [rec]
    case _ => []
  }

  function WebhookIn(cfg: Config, log: Log): seq<(Address, string)> {
    match ReadLog(cfg, log)
    case Some(WebhookSet(m, url)) => [(m, url)]
    case _ => []
  }

  function Receivers(cfg: Config, seen: seq<Sighting>): seq<Receiver> {
    if seen == [] then []
    else Receivers(cfg, seen[..|seen| - 1]) + ReceiverIn(cfg, seen[|seen| - 1].log)
  }

  function Webhooks(cfg: Config, seen: seq<Sighting>): seq<(Address, string)> {
    if seen == [] then []
    else Webhooks(cfg, seen[..|seen| - 1]) + WebhookIn(cfg, seen[|seen| - 1].log)
  }

  lemma ReceiversNext(cfg: Config, seen: seq<Sighting>, s: Sighting)
    ensures Receivers(cfg, seen + [s]) == Receivers(cfg, seen) + ReceiverIn(cfg, s.log)
  {
    assert (seen + [s])[..|seen|] == seen;
  }

  lemma {:induction false} ReceiversAppend(cfg: Config, a: seq<Sighting>, b: seq<Sighting>)
    ensures Receivers(cfg, a + b) == Receivers(cfg, a) + Receivers(cfg, b)
  {
    if b == [] {
      assert a + b == a;
    } else {
      var before, last := b[..|b| - 1], b[|b| - 1];
      assert b == before + [last] && a + b == (a + before) + [last];
      ReceiversAppend(cfg, a, before);
      ReceiversNext(cfg, before, last);
      ReceiversNext(cfg, a + before, last);
      Assoc(Receivers(cfg, a), Receivers(cfg, before), ReceiverIn(cfg, last.log));
    }
  }

  lemma WebhooksNext(cfg: Config, seen: seq<Sighting>, s: Sighting)
    ensures Webhooks(cfg, seen + [s]) == Webhooks(cfg, seen) + WebhookIn(cfg, s.log)
  {
    assert (seen + [s])[..|seen|] == seen;
  }

  lemma {:induction false} WebhooksAppend(cfg: Config, a: seq<Sighting>, b: seq<Sighting>)
    ensures Webhooks(cfg, a + b) == Webhooks(cfg, a) + Webhooks(cfg, b)
  {
    if b == [] {
      assert a + b == a;
    } else {
      var before, last := b[..|b| - 1], b[|b| - 1];
      assert b == before + [last] && a + b == (a + before) + [last];
      WebhooksAppend(cfg, a, before);
      WebhooksNext(cfg, before, last);
      WebhooksNext(cfg, a + before, last);
      Assoc(Webhooks(cfg, a), Webhooks(cfg, before), WebhookIn(cfg, last.log));
    }
  }

  lemma CollectNext(cfg: Config, seen: seq<Sighting>, i: nat)
    requires i < |seen|
    ensures Receivers(cfg, seen[..i + 1]) == Receivers(cfg, seen[..i]) + ReceiverIn(cfg, seen[i].log)
    ensures Webhooks(cfg, seen[..i + 1]) == Webhooks(cfg, seen[..i]) + WebhookIn(cfg, seen[i].log)
  {
    assert seen[..i + 1][..i] == seen[..i];
  }

  /** The collecting closure: pushes what each log says, in order. */
  method Collect(cfg: Config, seen: seq<Sighting>) returns (receivers: seq<Receiver>, webhooks: seq<(Address, string)>)
    ensures receivers == Receivers(cfg, seen) && webhooks == Webhooks(cfg, seen)
  {
    receivers, webhooks := [], [];
    for i := 0 to |seen|
      invariant receivers == Receivers(cfg, seen[..i])
      invariant webhooks == Webhooks(cfg, seen[..i])
    {
      CollectNext(cfg, seen, i);
      match ReadLog(cfg, seen[i].log)
      case Some(ReceiverSeen(rec)) => receivers := receivers + [rec];
      case Some(WebhookSet(m, url)) => webhooks := webhooks + [(m, url)];
      case None =>
    }
    assert seen[..|seen|] == seen;
  }

  // ---- nothing the contracts say is filtered out -----------------------------

  /** The factory or the webhook registry logged this. */
  predicate FromContracts(cfg: Config, log: Log) {
    log.address == cfg.factory || log.address == cfg.webhookRegistry
  }

  /** Everything the two contracts logged in a block, whatever it is about. */
  function Spoken(cfg: Config, logs: seq<Log>): seq<Log> {
    if logs == [] then []
    else
      var rest, log := Spoken(cfg, logs[..|logs| - 1]), logs[|logs| - 1];
      if FromContracts(cfg, log) then rest + [log] else rest
  }

  /** Two lists of logs that tell the same. */
  ghost predicate TellSame(cfg: Config, block: nat, a: seq<Log>, b: seq<Log>) {
    && Receivers(cfg, Tag(block, a)) == Receivers(cfg, Tag(block, b))
    && Webhooks(cfg, Tag(block, a)) == Webhooks(cfg, Tag(block, b))
  }

  lemma HeardNext(cfg: Config, block: nat, logs: seq<Log>, log: Log)
    ensures Receivers(cfg, Tag(block, logs + [log])) == Receivers(cfg, Tag(block, logs)) + ReceiverIn(cfg, log)
    ensures Webhooks(cfg, Tag(block, logs + [log])) == Webhooks(cfg, Tag(block, logs)) + WebhookIn(cfg, log)
  {
    var before, s := Tag(block, logs), Sighting(block, log);
    assert (logs + [log])[..|logs|] == logs;
    assert (before + [s])[..|before|] == before;
  }

  lemma TellSameNext(cfg: Config, block: nat, a: seq<Log>, b: seq<Log>, log: Log, inA: bool, inB: bool)
    requires TellSame(cfg, block, a, b)
    requires inA != inB ==> ReceiverIn(cfg, log) == [] && WebhookIn(cfg, log) == []
    ensures TellSame(cfg, block, if inA then a + [log] else a, if inB then b + [log] else b)
  {
    HeardNext(cfg, block, a, log);
    HeardNext(cfg, block, b, log);
  }

  /** A log the filter leaves out says nothing, unless somebody else wrote it. */
  lemma FilterFair(cfg: Config, log: Log)
    ensures RegistryFilter(cfg).Selects(log) ==> FromContracts(cfg, log)
    ensures FromContracts(cfg, log) && !RegistryFilter(cfg).Selects(log) ==>
      ReceiverIn(cfg, log) == [] && WebhookIn(cfg, log) == []
  {
    var f := RegistryFilter(cfg);
    assert cfg.factory in f.address && cfg.registeredTopic in f.topic0;
  }

  /** The filter loses nothing: what it picks from a block says exactly what all
      logs of the two contracts say. */
  lemma {:induction false} FilterHears(cfg: Config, block: nat, logs: seq<Log>)
    ensures TellSame(cfg, block, RegistryFilter(cfg).Pick(logs), Spoken(cfg, logs))
  {
    if logs != [] {
      var rest, log := logs[..|logs| - 1], logs[|logs| - 1];
      var f := RegistryFilter(cfg);
      FilterHears(cfg, block, rest);
      FilterFair(cfg, log);
      TellSameNext(cfg, block, f.Pick(rest), Spoken(cfg, rest), log, f.Selects(log), FromContracts(cfg, log));
    }
  }

  /** Listening to a block: everything the two contracts logged there, through no
      filter at all. */
  ghost function Ear(env: Env, cfg: Config): (nat, Look) -> seq<Sighting> {
    (block: nat, look: Look) => Tag(block, Spoken(cfg, env.Logs(look.time, block)))
  }

  ghost predicate ForRegistry(cfg: Config, looks: seq<Look>) {
    forall i :: 0 <= i < |looks| ==> looks[i].filter == RegistryFilter(cfg)
  }

  lemma HearsNext(env: Env, cfg: Config, lo: nat, before: seq<Look>, block: nat, look: Look)
    requires block == lo + |before| && look.filter == RegistryFilter(cfg)
    requires Receivers(cfg, Scan(Eye(env), lo, before)) == Receivers(cfg, Scan(Ear(env, cfg), lo, before))
    requires Webhooks(cfg, Scan(Eye(env), lo, before)) == Webhooks(cfg, Scan(Ear(env, cfg), lo, before))
    ensures Receivers(cfg, Scan(Eye(env), lo, before + [look])) == Receivers(cfg, Scan(Ear(env, cfg), lo, before + [look]))
    ensures Webhooks(cfg, Scan(Eye(env), lo, before + [look])) == Webhooks(cfg, Scan(Ear(env, cfg), lo, before + [look]))
  {
    ScanNext(Eye(env), lo, before, block, look);
    ScanNext(Ear(env, cfg), lo, before, block, look);
    FilterHears(cfg, block, env.Logs(look.time, block));
    HeardOn(cfg, Scan(Eye(env), lo, before), Eye(env)(block, look));
    HeardOn(cfg, Scan(Ear(env, cfg), lo, before), Ear(env, cfg)(block, look));
  }

  /** What looks through the registry filter find is what the two contracts said. */
  lemma {:induction false} ScanHears(env: Env, cfg: Config, lo: nat, looks: seq<Look>)
    requires ForRegistry(cfg, looks)
    ensures Receivers(cfg, Scan(Eye(env), lo, looks)) == Receivers(cfg, Scan(Ear(env, cfg), lo, looks))
    ensures Webhooks(cfg, Scan(Eye(env), lo, looks)) == Webhooks(cfg, Scan(Ear(env, cfg), lo, looks))
  {
    if looks != [] {
      var n := |looks| - 1;
      ScanHears(env, cfg, lo, looks[..n]);
      HearsNext(env, cfg, lo, looks[..n], lo + n, looks[n]);
      Unsnoc(looks);
    }
  }

  lemma HeardOn(cfg: Config, a: seq<Sighting>, b: seq<Sighting>)
    ensures Receivers(cfg, a + b) == Receivers(cfg, a) + Receivers(cfg, b)
    ensures Webhooks(cfg, a + b) == Webhooks(cfg, a) + Webhooks(cfg, b)
  {
    ReceiversAppend(cfg, a, b);
    WebhooksAppend(cfg, a, b);
  }

  // ---- what the contracts write ------------------------------------------------

  /** An address as it stands in a topic: twelve zero bytes in front. */
  function AddressTopic(a: Address): seq<byte> {
    [0, 0, 0, 0, 0, 0, 0, 0, 0, 0, 0, 0] + a
  }

  lemma TopicRoundTrip(a: Address)
    ensures TopicAddress(AddressTopic(a)) == Some(a)
  {
    assert AddressTopic(a)[12..32] == a;
  }

  /** The log a contract writes for an event: indexed fields in the topics, the
      others in the data, an address padded to 32 bytes. */
  ghost predicate Writes(cfg: Config, e: Event, log: Log) {
    match e
    case ReceiverSeen(Receiver(m, r, None)) =>
      && log.address == cfg.factory
      && log.topics == [cfg.registeredTopic, AddressTopic(m)] && log.data == AddressTopic(r)
    case ReceiverSeen(Receiver(m, r, Some(route))) =>
      && log.address == cfg.factory
      && log.topics == [cfg.announcedTopic, AddressTopic(m), AddressTopic(r)]
      && log.data == route.chain + route.recipient
    case WebhookSet(m, url) =>
      && log.address == cfg.webhookRegistry
      && log.topics == [cfg.webhookTopic, AddressTopic(m)]
      && log.data in cfg.abiStrings && cfg.abiStrings[log.data] == url
  }

  /** The hashes of the three event signatures are different. */
  ghost predicate TopicsApart(cfg: Config) {
    && cfg.registeredTopic != cfg.announcedTopic && cfg.registeredTopic != cfg.webhookTopic
    && cfg.announcedTopic != cfg.webhookTopic
  }

  /** An event is read back from its log, and the filter asks for that log. */
  lemma WrittenIsRead(cfg: Config, e: Event, log: Log)
    requires TopicsApart(cfg) && Writes(cfg, e, log)
    ensures ReadLog(cfg, log) == Some(e) && RegistryFilter(cfg).Selects(log)
  {
    match e
    case ReceiverSeen(rec) =>
      TopicRoundTrip(rec.merchant);
      TopicRoundTrip(rec.receiver);
      if rec.route.None? {
        assert log.data[12..32] == rec.receiver;
      } else {
        var route := rec.route.value;
        assert log.data[0..32] == route.chain && log.data[32..64] == route.recipient;
      }
    case WebhookSet(m, _) => TopicRoundTrip(m);
  }

  /** The events a block's own logs were written for, in order, between logs of
      other contracts. */
  ghost predicate Wrote(cfg: Config, es: seq<Event>, logs: seq<Log>) {
    var own := Spoken(cfg, logs);
    |own| == |es| && forall i :: 0 <= i < |es| ==> Writes(cfg, es[i], own[i])
  }

  function RecordsOf(es: seq<Event>): seq<Receiver> {
    if es == [] then []
    else
      RecordsOf(es[..|es| - 1]) + match es[|es| - 1] case ReceiverSeen(rec) => [rec] case WebhookSet(_, _) => []
  }

  function UrlsOf(es: seq<Event>): seq<(Address, string)> {
    if es == [] then []
    else
      UrlsOf(es[..|es| - 1]) + match es[|es| - 1] case ReceiverSeen(_) => [] case WebhookSet(m, url) => [(m, url)]
  }

  lemma {:induction false} OwnLogsRead(cfg: Config, block: nat, es: seq<Event>, own: seq<Log>)
    requires TopicsApart(cfg) && |own| == |es| && forall i :: 0 <= i < |es| ==> Writes(cfg, es[i], own[i])
    ensures Receivers(cfg, Tag(block, own)) == RecordsOf(es) && Webhooks(cfg, Tag(block, own)) == UrlsOf(es)
  {
    if es != [] {
      var n := |es| - 1;
      OwnLogsRead(cfg, block, es[..n], own[..n]);
      WrittenIsRead(cfg, es[n], own[n]);
      HeardNext(cfg, block, own[..n], own[n]);
      Unsnoc(own);
    }
  }

  /** Looking at a block through the registry filter finds exactly the events its
      contracts wrote there. */
  lemma BlockEvents(cfg: Config, block: nat, es: seq<Event>, logs: seq<Log>)
    requires TopicsApart(cfg) && Wrote(cfg, es, logs)
    ensures
      var picked := Tag(block, RegistryFilter(cfg).Pick(logs));
      Receivers(cfg, picked) == RecordsOf(es) && Webhooks(cfg, picked) == UrlsOf(es)
  {
    FilterHears(cfg, block, logs);
    OwnLogsRead(cfg, block, es, Spoken(cfg, logs));
  }

  // ---- cached chunks -------------------------------------------------------

  datatype CachedReceiver = CachedReceiver(
    merchant: string, receiver: string, cctpChain: Option<string>, cctpRecipient: Option<string>)

  datatype RegistryChunk = RegistryChunk(merchants: seq<CachedReceiver>, webhooks: seq<(string, string)>)

  function ToCached(rec: Receiver): CachedReceiver {
    CachedReceiver(AddressText(rec.merchant), AddressText(rec.receiver),
      if rec.route.Some? then Some(Bytes32Text(rec.route.value.chain)) else None,
      if rec.route.Some? then Some(Bytes32Text(rec.route.value.recipient)) else None)
  }

  /** A row with any field that does not parse is dropped; a half route is no route. */
  function FromCached(c: CachedReceiver): Option<Receiver> {
    match (c.cctpChain, c.cctpRecipient)
    case (Some(chain), Some(recipient)) =>
      (match (ParseBytes32(chain), ParseBytes32(recipient), ParseAddress(c.merchant), ParseAddress(c.receiver))
       case (Some(ch), Some(rc), Some(m), Some(r)) => Some(Receiver(m, r, Some(Route(ch, rc))))
       case _ => None)
    case _ =>
      (match (ParseAddress(c.merchant), ParseAddress(c.receiver))
       case (Some(m), Some(r)) => Some(Receiver(m, r, None))
       case _ => None)
  }

  function FromFound(receivers: seq<Receiver>, webhooks: seq<(Address, string)>): RegistryChunk {
    RegistryChunk(CachedRows(receivers), CachedHooks(webhooks))
  }

  function CachedRows(receivers: seq<Receiver>): seq<CachedReceiver> {
    if receivers == [] then [] else [ToCached(receivers[0])] + CachedRows(receivers[1..])
  }

  function CachedHooks(webhooks: seq<(Address, string)>): seq<(string, string)> {
    if webhooks == [] then [] else [(AddressText(webhooks[0].0), webhooks[0].1)] + CachedHooks(webhooks[1..])
  }

  function ParsedRows(rows: seq<CachedReceiver>): seq<Receiver> {
    if rows == [] then []
    else
      (match FromCached(rows[0])
       case Some(rec) => [rec]
       case None => []) + ParsedRows(rows[1..])
  }

  function ParsedHooks(rows: seq<(string, string)>): seq<(Address, string)> {
    if rows == [] then []
    else
      (match ParseAddress(rows[0].0)
       case Some(m) => [(m, rows[0].1)]
       case None => []) + ParsedHooks(rows[1..])
  }

  function IntoFound(chunk: RegistryChunk): (seq<Receiver>, seq<(Address, string)>) {
    (ParsedRows(chunk.merchants), ParsedHooks(chunk.webhooks))
  }

  lemma CachedRoundTrip(rec: Receiver)
    ensures FromCached(ToCached(rec)) == Some(rec)
  {
    AddressRoundTrip(rec.merchant);
    AddressRoundTrip(rec.receiver);
    if rec.route.Some? {
      Bytes32RoundTrip(rec.route.value.chain);
      Bytes32RoundTrip(rec.route.value.recipient);
    }
  }

  lemma RowsFirst(first: Receiver, rest: seq<Receiver>, rows: seq<CachedReceiver>)
    requires rows == CachedRows(rest) && ParsedRows(rows) == rest
    ensures ParsedRows(CachedRows([first] + rest)) == [first] + rest
  {
    CachedRoundTrip(first);
    assert ([first] + rest)[1..] == rest;
    assert CachedRows([first] + rest) == [ToCached(first)] + rows;
    assert ([ToCached(first)] + rows)[1..] == rows;
  }

  lemma {:induction false} RowsRoundTrip(receivers: seq<Receiver>)
    ensures ParsedRows(CachedRows(receivers)) == receivers
  {
    if receivers != [] {
      var first, rest := receivers[0], receivers[1..];
      assert receivers == [first] + rest;
      RowsRoundTrip(rest);
      RowsFirst(first, rest, CachedRows(rest));
    }
  }

  lemma {:induction false} HooksRoundTrip(webhooks: seq<(Address, string)>)
    ensures ParsedHooks(CachedHooks(webhooks)) == webhooks
  {
    if webhooks != [] {
      assert CachedHooks(webhooks)[1..] == CachedHooks(webhooks[1..]);
      AddressRoundTrip(webhooks[0].0);
      HooksRoundTrip(webhooks[1..]);
      assert webhooks == [webhooks[0]] + webhooks[1..];
    }
  }

  /** A chunk read back from the cache is what was found. */
  lemma ChunkRoundTrip(receivers: seq<Receiver>, webhooks: seq<(Address, string)>)
    ensures IntoFound(FromFound(receivers, webhooks)) == (receivers, webhooks)
  {
    RowsRoundTrip(receivers);
    HooksRoundTrip(webhooks);
  }

  // ---- the maps ------------------------------------------------------------

  datatype Info = Info(merchant: Address, route: Option<Route>)

  /** A later merchant wins; a missing route never erases a known one. */
  function Remember(m: map<Address, Info>, rec: Receiver): map<Address, Info> {
    var known := if rec.receiver in m then m[rec.receiver].route else None;
    m[rec.receiver := Info(rec.merchant, if rec.route.Some? then rec.route else known)]
  }

  function RememberAll(m: map<Address, Info>, recs: seq<Receiver>): map<Address, Info> {
    if recs == [] then m else Remember(RememberAll(m, recs[..|recs| - 1]), recs[|recs| - 1])
  }

  function Insert(m: map<string, string>, hook: (Address, string)): map<string, string> {
    m[AddressText(hook.0) := hook.1]
  }

  function InsertAll(m: map<string, string>, hooks: seq<(Address, string)>): map<string, string> {
    if hooks == [] then m else Insert(InsertAll(m, hooks[..|hooks| - 1]), hooks[|hooks| - 1])
  }

  lemma {:induction false} RememberAppend(m: map<Address, Info>, a: seq<Receiver>, b: seq<Receiver>)
    ensures RememberAll(m, a + b) == RememberAll(RememberAll(m, a), b)
  {
    if b == [] {
      assert a + b == a;
    } else {
      var n := |b| - 1;
      assert (a + b)[..|a| + n] == a + b[..n];
      RememberAppend(m, a, b[..n]);
    }
  }

  lemma InsertNext(m: map<string, string>, hooks: seq<(Address, string)>, hook: (Address, string))
    ensures InsertAll(m, hooks + [hook]) == Insert(InsertAll(m, hooks), hook)
  {
    assert (hooks + [hook])[..|hooks|] == hooks;
  }

  lemma {:induction false} InsertAppend(m: map<string, string>, a: seq<(Address, string)>, b: seq<(Address, string)>)
    ensures InsertAll(m, a + b) == InsertAll(InsertAll(m, a), b)
  {
    if b == [] {
      assert a + b == a;
    } else {
      var n := |b| - 1;
      InsertAppend(m, a, b[..n]);
      Unsnoc(b);
      Assoc(a, b[..n], [b[n]]);
      InsertNext(m, a + b[..n], b[n]);
      InsertNext(InsertAll(m, a), b[..n], b[n]);
    }
  }

  /** The last merchant reported for a receiver. */
  function LastMerchant(recs: seq<Receiver>, r: Address): Option<Address> {
    if recs == [] then None
    else if recs[|recs| - 1].receiver == r then Some(recs[|recs| - 1].merchant)
    else LastMerchant(recs[..|recs| - 1], r)
  }

  /** The last route announced for a receiver. */
  function LastRoute(recs: seq<Receiver>, r: Address): Option<Route> {
    if recs == [] then None
    else if recs[|recs| - 1].receiver == r && recs[|recs| - 1].route.Some? then recs[|recs| - 1].route
    else LastRoute(recs[..|recs| - 1], r)
  }

  /** The last URL set under a merchant's key. */
  function LastUrl(hooks: seq<(Address, string)>, key: string): Option<string> {
    if hooks == [] then None
    else if AddressText(hooks[|hooks| - 1].0) == key then Some(hooks[|hooks| - 1].1)
    else LastUrl(hooks[..|hooks| - 1], key)
  }

  function RouteIn(m: map<Address, Info>, r: Address): Option<Route> {
    if r in m then m[r].route else None
  }

  /** The receiver map, entry by entry: last merchant, last known route. */
  lemma {:induction false} RememberedEntry(m: map<Address, Info>, recs: seq<Receiver>, r: Address)
    ensures
      var e, merchant, route := RememberAll(m, recs), LastMerchant(recs, r), LastRoute(recs, r);
      && (r in e <==> r in m || merchant.Some?)
      && (r in e ==> e[r] == Info(
            if merchant.Some? then merchant.value else m[r].merchant,
            if route.Some? then route else RouteIn(m, r)))
    ensures LastRoute(recs, r).Some? ==> LastMerchant(recs, r).Some?
  {
    if recs != [] {
      RememberedEntry(m, recs[..|recs| - 1], r);
    }
  }

  lemma {:induction false} InsertedEntry(m: map<string, string>, hooks: seq<(Address, string)>, key: string)
    ensures
      var e, url := InsertAll(m, hooks), LastUrl(hooks, key);
      && (key in e <==> key in m || url.Some?)
      && (key in e ==> e[key] == if url.Some? then url.value else m[key])
  {
    if hooks != [] {
      InsertedEntry(m, hooks[..|hooks| - 1], key);
    }
  }

  /** Delivering any suffix of the history again changes nothing. */
  lemma RedeliveryHarmless(m: map<Address, Info>, recs: seq<Receiver>, k: nat)
    requires k <= |recs|
    ensures RememberAll(RememberAll(m, recs), recs[k..]) == RememberAll(m, recs)
  {
    var before, again := recs[..k], recs[k..];
    assert recs == before + again;
    RememberAppend(m, before, again);
    var base := RememberAll(m, before);
    var once := RememberAll(base, again);
    var twice := RememberAll(once, again);
    forall r ensures (r in twice <==> r in once) && (r in once ==> twice[r] == once[r]) {
      RememberedEntry(base, again, r);
      RememberedEntry(once, again, r);
    }
  }

  lemma WebhookRedeliveryHarmless(m: map<string, string>, hooks: seq<(Address, string)>, k: nat)
    requires k <= |hooks|
    ensures InsertAll(InsertAll(m, hooks), hooks[k..]) == InsertAll(m, hooks)
  {
    var before, again := hooks[..k], hooks[k..];
    assert hooks == before + again;
    InsertAppend(m, before, again);
    var base := InsertAll(m, before);
    var once := InsertAll(base, again);
    var twice := InsertAll(once, again);
    forall key ensures (key in twice <==> key in once) && (key in once ==> twice[key] == once[key]) {
      InsertedEntry(base, again, key);
      InsertedEntry(once, again, key);
    }
  }

  /** The receivers a list of records names. */
  function Named(recs: seq<Receiver>): set<Address> {
    if recs == [] then {} else Named(recs[..|recs| - 1]) + {recs[|recs| - 1].receiver}
  }

  lemma {:induction false} RememberedKeys(m: map<Address, Info>, recs: seq<Receiver>)
    ensures RememberAll(m, recs).Keys == m.Keys + Named(recs)
  {
    if recs != [] {
      RememberedKeys(m, recs[..|recs| - 1]);
    }
  }

  lemma {:induction false} NamedAppend(a: seq<Receiver>, b: seq<Receiver>)
    ensures Named(a + b) == Named(a) + Named(b)
  {
    if b == [] {
      assert a + b == a;
    } else {
      var n := |b| - 1;
      assert (a + b)[..|a| + n] == a + b[..n];
      NamedAppend(a, b[..n]);
    }
  }
}
