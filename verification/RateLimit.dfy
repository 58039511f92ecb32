/** Fixed-window limiters: the three buckets in front of claims and payments, and
    the pruned one in front of the RPC proxy. */
module RateLimit {
  import opened Wrappers

  /** `closed`: a window still counts at its very end. `countsRefused`: refused
      requests go on counting. */
  datatype Rule = Rule(limit: nat, window: nat, closed: bool, countsRefused: bool)

  datatype Entry = Entry(since: nat, count: nat)

  type Hits<!K> = map<K, Entry>

  predicate Expired(rule: Rule, e: Entry, now: nat) {
    if rule.closed then e.since + rule.window < now else e.since + rule.window <= now
  }

  /** The entry a request finds: the running window's, or a new one. */
  function Opened<K>(rule: Rule, m: Hits<K>, key: K, now: nat): Entry {
    if key in m && !Expired(rule, m[key], now) then m[key] else Entry(now, 0)
  }

  function Hit<K>(rule: Rule, m: Hits<K>, key: K, now: nat): (bool, Hits<K>) {
    var e := Opened(rule, m, key, now);
    var ok := e.count < rule.limit;
    (ok, m[key := if ok || rule.countsRefused then Entry(e.since, e.count + 1) else e])
  }

  // ---- how often a key got through --------------------------------------------------

  function CountFrom<K(==)>(h: seq<(nat, K)>, key: K, from: nat): nat {
    if h == [] then 0
    else
      var (time, k) := h[|h| - 1];
      CountFrom(h[..|h| - 1], key, from) + if k == key && from <= time then 1 else 0
  }

  function CountIn<K(==)>(h: seq<(nat, K)>, key: K, from: nat, to: nat): nat {
    if h == [] then 0
    else
      var (time, k) := h[|h| - 1];
      CountIn(h[..|h| - 1], key, from, to) + if k == key && from <= time <= to then 1 else 0
  }

  lemma {:induction false} InWithinFrom<K>(h: seq<(nat, K)>, key: K, from: nat, to: nat)
    ensures CountIn(h, key, from, to) <= CountFrom(h, key, from)
  {
    if h != [] {
      InWithinFrom(h[..|h| - 1], key, from, to);
    }
  }

  lemma CountNext<K>(h: seq<(nat, K)>, time: nat, k: K, key: K, from: nat, to: nat)
    ensures CountFrom(h + [(time, k)], key, from) == CountFrom(h, key, from) + if k == key && from <= time then 1 else 0
    ensures CountIn(h + [(time, k)], key, from, to) == CountIn(h, key, from, to) + if k == key && from <= time <= to then 1 else 0
  {
    assert (h + [(time, k)])[..|h|] == h;
  }

  function Least(a: nat, b: nat): nat {
    if a < b then a else b
  }

  /** What an entry says of the requests of its key that got through. */
  ghost predicate Accounts<K>(rule: Rule, e: Entry, h: seq<(nat, K)>, key: K, now: nat) {
    && e.since <= now
    && (forall a: nat :: e.since <= a ==> CountFrom(h, key, a) <= Least(e.count, rule.limit))
    && (forall a: nat :: e.since <= a + rule.window ==> CountFrom(h, key, a) <= rule.limit + Least(e.count, rule.limit))
    && (forall a: nat :: Expired(rule, e, a) ==> CountFrom(h, key, a) == 0)
  }

  ghost predicate Unseen<K>(h: seq<(nat, K)>, key: K) {
    forall a: nat :: CountFrom(h, key, a) == 0
  }

  /** How many got through in one window's time from `from` on, both ends included. */
  function InWindow<K(==)>(rule: Rule, h: seq<(nat, K)>, key: K, from: nat): nat {
    CountIn(h, key, from, from + rule.window)
  }

  ghost predicate Twice<K>(rule: Rule, h: seq<(nat, K)>, key: K) {
    forall a: nat :: InWindow(rule, h, key, a) <= 2 * rule.limit
  }

  /** What the books say of one key. */
  ghost predicate Kept<K(!new)>(rule: Rule, m: Hits<K>, h: seq<(nat, K)>, k: K, now: nat) {
    Twice(rule, h, k) && if k in m then Accounts(rule, m[k], h, k, now) else Unseen(h, k)
  }

  ghost predicate Sound<K(!new)>(rule: Rule, m: Hits<K>, h: seq<(nat, K)>, now: nat) {
    forall k :: Kept(rule, m, h, k, now)
  }

  ghost predicate Sane(rule: Rule) {
    rule.closed || rule.window > 0
  }

  /** The entry a request finds accounts for its key as well. */
  lemma OpenedAccounts<K(!new)>(rule: Rule, m: Hits<K>, h: seq<(nat, K)>, key: K, before: nat, now: nat)
    requires Sound(rule, m, h, before) && before <= now
    ensures Accounts(rule, Opened(rule, m, key, now), h, key, now)
  {
    assert Kept(rule, m, h, key, before);
    if key in m && Expired(rule, m[key], now) {
      var e := m[key];
      forall a: nat | now <= a ensures CountFrom(h, key, a) == 0 {
        assert Expired(rule, e, a);
      }
      forall a: nat | now <= a + rule.window ensures CountFrom(h, key, a) <= rule.limit {
        assert e.since <= a;
      }
    }
  }

  /** A request that gets through: recorded, its key is still accounted for. */
  lemma Recorded<K(!new)>(rule: Rule, e: Entry, h: seq<(nat, K)>, key: K, now: nat)
    requires Sane(rule) && Accounts(rule, e, h, key, now) && !Expired(rule, e, now) && e.count < rule.limit
    requires Twice(rule, h, key)
    ensures Accounts(rule, Entry(e.since, e.count + 1), h + [(now, key)], key, now)
    ensures Twice(rule, h + [(now, key)], key)
  {
    forall a: nat
      ensures CountFrom(h + [(now, key)], key, a) == CountFrom(h, key, a) + if a <= now then 1 else 0
    {
      CountNext(h, now, key, key, a, a);
    }
    forall a: nat ensures InWindow(rule, h + [(now, key)], key, a) <= 2 * rule.limit {
      assert InWindow(rule, h, key, a) <= 2 * rule.limit;
      CountNext(h, now, key, key, a, a + rule.window);
      InWithinFrom(h, key, a, a + rule.window);
    }
  }

  lemma OthersKept<K(!new)>(rule: Rule, m: Hits<K>, m': Hits<K>, h: seq<(nat, K)>, key: K, k: K, before: nat, now: nat)
    requires k != key && before <= now && Kept(rule, m, h, k, before)
    requires (k in m' <==> k in m) && (k in m ==> m'[k] == m[k])
    ensures Kept(rule, m', h, k, now) && Kept(rule, m', h + [(now, key)], k, now)
  {
    forall a: nat ensures CountFrom(h + [(now, key)], k, a) == CountFrom(h, k, a) {
      CountNext(h, now, key, k, a, a);
    }
    forall a: nat ensures InWindow(rule, h + [(now, key)], k, a) <= 2 * rule.limit {
      assert InWindow(rule, h, k, a) <= 2 * rule.limit;
      CountNext(h, now, key, k, a, a + rule.window);
    }
  }

  lemma KeyKept<K(!new)>(rule: Rule, m: Hits<K>, h: seq<(nat, K)>, key: K, before: nat, now: nat, recorded: bool)
    requires Sane(rule) && Sound(rule, m, h, before) && before <= now
    requires recorded ==> Hit(rule, m, key, now).0
    ensures Kept(rule, Hit(rule, m, key, now).1, if recorded then h + [(now, key)] else h, key, now)
  {
    var e := Opened(rule, m, key, now);
    assert Kept(rule, m, h, key, before);
    OpenedAccounts(rule, m, h, key, before, now);
    if recorded {
      Recorded(rule, e, h, key, now);
    }
  }

  /** One request: whether it is recorded as let through or not, the books stay
      right, as long as only what the bucket admits is recorded. */
  lemma HitSound<K(!new)>(rule: Rule, m: Hits<K>, h: seq<(nat, K)>, key: K, before: nat, now: nat, recorded: bool)
    requires Sane(rule) && Sound(rule, m, h, before) && before <= now
    requires recorded ==> Hit(rule, m, key, now).0
    ensures Sound(rule, Hit(rule, m, key, now).1, if recorded then h + [(now, key)] else h, now)
  {
    var m' := Hit(rule, m, key, now).1;
    var h' := if recorded then h + [(now, key)] else h;
    forall k ensures Kept(rule, m', h', k, now) {
      if k == key {
        KeyKept(rule, m, h, key, before, now, recorded);
      } else {
        assert Kept(rule, m, h, k, before);
        OthersKept(rule, m, m', h, key, k, before, now);
      }
    }
  }

  // ---- nobody is refused too early ----------------------------------------------------

  /** The earliest a window may have begun that still runs. */
  function Since(rule: Rule, now: nat): nat {
    if rule.closed then (if now < rule.window then 0 else now - rule.window)
    else if now < rule.window then 0
    else now - rule.window + 1
  }

  /** What an entry counts got through: up to the limit, that is. */
  ghost predicate Backs<K>(rule: Rule, e: Entry, h: seq<(nat, K)>, key: K, now: nat) {
    e.since <= now && CountFrom(h, key, e.since) >= Least(e.count, rule.limit)
  }

  ghost predicate Backed<K(!new)>(rule: Rule, m: Hits<K>, h: seq<(nat, K)>, now: nat) {
    forall k :: k in m ==> Backs(rule, m[k], h, k, now)
  }

  /** One request, recorded exactly when it gets through. */
  lemma HitBacked<K(!new)>(rule: Rule, m: Hits<K>, h: seq<(nat, K)>, key: K, before: nat, now: nat)
    requires Backed(rule, m, h, before) && before <= now
    ensures
      var (ok, m') := Hit(rule, m, key, now);
      Backed(rule, m', if ok then h + [(now, key)] else h, now)
  {
    var (ok, m') := Hit(rule, m, key, now);
    var h' := if ok then h + [(now, key)] else h;
    forall k | k in m' ensures Backs(rule, m'[k], h', k, now) {
      CountNext(h, now, key, k, m'[k].since, now);
      assert k in m ==> Backs(rule, m[k], h, k, before);
    }
  }

  lemma BackedLater<K(!new)>(rule: Rule, m: Hits<K>, h: seq<(nat, K)>, before: nat, now: nat)
    requires Backed(rule, m, h, before) && before <= now
    ensures Backed(rule, m, h, now)
  {
    forall k | k in m ensures Backs(rule, m[k], h, k, now) {
      assert Backs(rule, m[k], h, k, before);
    }
  }

  /** Nothing was recorded after this moment. */
  ghost predicate UpTo<K>(h: seq<(nat, K)>, now: nat) {
    forall i :: 0 <= i < |h| ==> h[i].0 <= now
  }

  lemma {:induction false} FromWithinIn<K>(h: seq<(nat, K)>, key: K, since: nat, from: nat, to: nat)
    requires UpTo(h, to) && from <= since
    ensures CountFrom(h, key, since) <= CountIn(h, key, from, to)
  {
    if h != [] {
      var n := |h| - 1;
      assert h[n].0 <= to;
      assert forall i :: 0 <= i < n ==> h[..n][i] == h[i];
      FromWithinIn(h[..n], key, since, from, to);
    }
  }

  /** A refusal means that the limit was reached in a window that still runs. */
  lemma RefusedWhenFull<K(!new)>(rule: Rule, m: Hits<K>, h: seq<(nat, K)>, key: K, before: nat, now: nat)
    requires Backed(rule, m, h, before) && before <= now && UpTo(h, before)
    ensures !Hit(rule, m, key, now).0 ==> CountIn(h, key, Since(rule, now), now) >= rule.limit
  {
    if !Hit(rule, m, key, now).0 && rule.limit > 0 {
      assert key in m && !Expired(rule, m[key], now);
      assert Backs(rule, m[key], h, key, before);
      FromWithinIn(h, key, m[key].since, Since(rule, now), now);
    }
  }

  // ---- the three buckets --------------------------------------------------------------

  datatype Request = Request(now: nat, ip: string, address: string, credential: string)

  datatype Verdict = Admitted | IpLimited | CredentialLimited | AddressLimited

  datatype Limits = Limits(ip: nat, address: nat, credential: nat, window: nat) {
    function Ip(): Rule { Rule(ip, window, true, false) }
    function Address(): Rule { Rule(address, window, true, false) }
    function Credential(): Rule { Rule(credential, window, true, false) }
  }

  datatype Buckets = Buckets(ips: Hits<string>, credentials: Hits<string>, addresses: Hits<string>)

  function LowerChar(c: char): char {
    if 'A' <= c <= 'Z' then 'a' + (c - 'A') else c
  }

  function Lower(s: string): (r: string)
    ensures |r| == |s|
  {
    seq(|s|, i requires 0 <= i < |s| => LowerChar(s[i]))
  }

  /** A request refused by one bucket never reaches the next, but has been counted
      by those before it. */
  function Check(cfg: Limits, b: Buckets, q: Request): (Verdict, Buckets) {
    var (ipOk, ips) := Hit(cfg.Ip(), b.ips, q.ip, q.now);
    if !ipOk then (IpLimited, b.(ips := ips))
    else
      var (credentialOk, credentials) := Hit(cfg.Credential(), b.credentials, Lower(q.credential), q.now);
      if !credentialOk then (CredentialLimited, b.(ips := ips, credentials := credentials))
      else
        var (addressOk, addresses) := Hit(cfg.Address(), b.addresses, Lower(q.address), q.now);
        (if addressOk then Admitted else AddressLimited, Buckets(ips, credentials, addresses))
  }

  class RateLimiter {
    const limits: Limits
    var ipHits: Hits<string>
    var credentialHits: Hits<string>
    var addressHits: Hits<string>

    constructor (limits: Limits)
      ensures this.limits == limits && Books() == Buckets(map[], map[], map[])
    {
      this.limits := limits;
      ipHits, credentialHits, addressHits := map[], map[], map[];
    }

    function Books(): Buckets
      reads this
    {
      Buckets(ipHits, credentialHits, addressHits)
    }

    method CheckRequest(q: Request) returns (v: Verdict)
      modifies this
      ensures (v, Books()) == Check(limits, old(Books()), q)
    {
      var ip := Opened(limits.Ip(), ipHits, q.ip, q.now);
      ipHits := ipHits[q.ip := ip];
      if ip.count >= limits.ip {
        return IpLimited;
      }
      ipHits := ipHits[q.ip := ip.(count := ip.count + 1)];
      assert ipHits == Hit(limits.Ip(), old(ipHits), q.ip, q.now).1;

      var credentialId := Lower(q.credential);
      var credential := Opened(limits.Credential(), credentialHits, credentialId, q.now);
      credentialHits := credentialHits[credentialId := credential];
      if credential.count >= limits.credential {
        return CredentialLimited;
      }
      credentialHits := credentialHits[credentialId := credential.(count := credential.count + 1)];
      assert credentialHits == Hit(limits.Credential(), old(credentialHits), credentialId, q.now).1;

      var target := Lower(q.address);
      var address := Opened(limits.Address(), addressHits, target, q.now);
      addressHits := addressHits[target := address];
      if address.count >= limits.address {
        return AddressLimited;
      }
      addressHits := addressHits[target := address.(count := address.count + 1)];
      assert addressHits == Hit(limits.Address(), old(addressHits), target, q.now).1;
      return Admitted;
    }
  }

  /** What each bucket let through; the last one lets through what is admitted. */
  datatype Through = Through(ips: seq<Request>, credentials: seq<Request>, admitted: seq<Request>)

  function Note(t: Through, q: Request, v: Verdict): Through {
    Through(if v.IpLimited? then t.ips else t.ips + [q],
            if v.IpLimited? || v.CredentialLimited? then t.credentials else t.credentials + [q],
            if v.Admitted? then t.admitted + [q] else t.admitted)
  }

  /** The books after a run, and what got through. */
  function Serve(cfg: Limits, qs: seq<Request>): (Buckets, Through) {
    if qs == [] then (Buckets(map[], map[], map[]), Through([], [], []))
    else
      var (b, t) := Serve(cfg, qs[..|qs| - 1]);
      var q := qs[|qs| - 1];
      var (v, b') := Check(cfg, b, q);
      (b', Note(t, q, v))
  }

  /** The clock of the process never goes back. */
  ghost predicate InOrder(qs: seq<Request>) {
    forall i, j :: 0 <= i < j < |qs| ==> qs[i].now <= qs[j].now
  }

  function ByIp(qs: seq<Request>): (h: seq<(nat, string)>)
    ensures |h| == |qs|
  {
    seq(|qs|, i requires 0 <= i < |qs| => (qs[i].now, qs[i].ip))
  }

  function ByCredential(qs: seq<Request>): (h: seq<(nat, string)>)
    ensures |h| == |qs|
  {
    seq(|qs|, i requires 0 <= i < |qs| => (qs[i].now, Lower(qs[i].credential)))
  }

  function ByAddress(qs: seq<Request>): (h: seq<(nat, string)>)
    ensures |h| == |qs|
  {
    seq(|qs|, i requires 0 <= i < |qs| => (qs[i].now, Lower(qs[i].address)))
  }

  lemma ByNext(qs: seq<Request>, q: Request)
    ensures ByIp(qs + [q]) == ByIp(qs) + [(q.now, q.ip)]
    ensures ByCredential(qs + [q]) == ByCredential(qs) + [(q.now, Lower(q.credential))]
    ensures ByAddress(qs + [q]) == ByAddress(qs) + [(q.now, Lower(q.address))]
  {
  }

  /** The books account for three lists of requests, one for each bucket. */
  ghost predicate AllSound(cfg: Limits, b: Buckets, x: seq<Request>, y: seq<Request>, z: seq<Request>, now: nat) {
    && Sound(cfg.Ip(), b.ips, ByIp(x), now)
    && Sound(cfg.Credential(), b.credentials, ByCredential(y), now)
    && Sound(cfg.Address(), b.addresses, ByAddress(z), now)
  }

  lemma SoundLater<K(!new)>(rule: Rule, m: Hits<K>, h: seq<(nat, K)>, before: nat, now: nat)
    requires Sound(rule, m, h, before) && before <= now
    ensures Sound(rule, m, h, now)
  {
    forall k ensures Kept(rule, m, h, k, now) {
      assert Kept(rule, m, h, k, before);
    }
  }

  /** They account for a request as well, if each list takes it only when its
      bucket lets it through. */
  lemma CheckSound(cfg: Limits, b: Buckets, x: seq<Request>, y: seq<Request>, z: seq<Request>, before: nat, q: Request,
                   inX: bool, inY: bool, inZ: bool)
    requires AllSound(cfg, b, x, y, z, before) && before <= q.now
    requires
      var v := Check(cfg, b, q).0;
      (inX ==> !v.IpLimited?) && (inY ==> !v.IpLimited? && !v.CredentialLimited?) && (inZ ==> v.Admitted?)
    ensures
      AllSound(cfg, Check(cfg, b, q).1, if inX then x + [q] else x, if inY then y + [q] else y, if inZ then z + [q] else z, q.now)
  {
    var v := Check(cfg, b, q).0;
    ByNext(x, q);
    ByNext(y, q);
    ByNext(z, q);
    HitSound(cfg.Ip(), b.ips, ByIp(x), q.ip, before, q.now, inX);
    if v.IpLimited? {
      SoundLater(cfg.Credential(), b.credentials, ByCredential(y), before, q.now);
    } else {
      HitSound(cfg.Credential(), b.credentials, ByCredential(y), Lower(q.credential), before, q.now, inY);
    }
    if v.IpLimited? || v.CredentialLimited? {
      SoundLater(cfg.Address(), b.addresses, ByAddress(z), before, q.now);
    } else {
      HitSound(cfg.Address(), b.addresses, ByAddress(z), Lower(q.address), before, q.now, inZ);
    }
  }

  lemma {:induction false} ServeSound(cfg: Limits, qs: seq<Request>)
    requires InOrder(qs)
    ensures
      var (b, t) := Serve(cfg, qs);
      var now := if qs == [] then 0 else qs[|qs| - 1].now;
      AllSound(cfg, b, t.ips, t.credentials, t.admitted, now) && AllSound(cfg, b, t.admitted, t.admitted, t.admitted, now)
  {
    if qs != [] {
      var before, q := qs[..|qs| - 1], qs[|qs| - 1];
      ServeSound(cfg, before);
      var (b, t) := Serve(cfg, before);
      var since := if before == [] then 0 else before[|before| - 1].now;
      var v := Check(cfg, b, q).0;
      CheckSound(cfg, b, t.ips, t.credentials, t.admitted, since, q, !v.IpLimited?, !v.IpLimited? && !v.CredentialLimited?, v.Admitted?);
      CheckSound(cfg, b, t.admitted, t.admitted, t.admitted, since, q, v.Admitted?, v.Admitted?, v.Admitted?);
    }
  }

  lemma SoundTwice(cfg: Limits, b: Buckets, x: seq<Request>, y: seq<Request>, z: seq<Request>, now: nat, key: string,
                   from: nat)
    requires AllSound(cfg, b, x, y, z, now)
    ensures CountIn(ByIp(x), key, from, from + cfg.window) <= 2 * cfg.ip
    ensures CountIn(ByCredential(y), key, from, from + cfg.window) <= 2 * cfg.credential
    ensures CountIn(ByAddress(z), key, from, from + cfg.window) <= 2 * cfg.address
  {
    assert Kept(cfg.Ip(), b.ips, ByIp(x), key, now);
    assert Kept(cfg.Credential(), b.credentials, ByCredential(y), key, now);
    assert Kept(cfg.Address(), b.addresses, ByAddress(z), key, now);
    assert InWindow(cfg.Ip(), ByIp(x), key, from) <= 2 * cfg.ip;
    assert InWindow(cfg.Credential(), ByCredential(y), key, from) <= 2 * cfg.credential;
    assert InWindow(cfg.Address(), ByAddress(z), key, from) <= 2 * cfg.address;
  }

  /** Whatever the requests and their times: in no stretch of one window's length,
      both ends included, does an address, a credential or a target get through
      more than twice its limit. */
  lemma AdmittedAtMostTwice(cfg: Limits, qs: seq<Request>, key: string, from: nat)
    requires InOrder(qs)
    ensures
      var admitted := Serve(cfg, qs).1.admitted;
      && CountIn(ByIp(admitted), key, from, from + cfg.window) <= 2 * cfg.ip
      && CountIn(ByCredential(admitted), key, from, from + cfg.window) <= 2 * cfg.credential
      && CountIn(ByAddress(admitted), key, from, from + cfg.window) <= 2 * cfg.address
  {
    ServeSound(cfg, qs);
    var (b, t) := Serve(cfg, qs);
    SoundTwice(cfg, b, t.admitted, t.admitted, t.admitted, if qs == [] then 0 else qs[|qs| - 1].now, key, from);
  }

  /** The same of what each bucket itself let through, whatever the later ones did
      with it. */
  lemma EachAtMostTwice(cfg: Limits, qs: seq<Request>, key: string, from: nat)
    requires InOrder(qs)
    ensures
      var t := Serve(cfg, qs).1;
      && CountIn(ByIp(t.ips), key, from, from + cfg.window) <= 2 * cfg.ip
      && CountIn(ByCredential(t.credentials), key, from, from + cfg.window) <= 2 * cfg.credential
      && CountIn(ByAddress(t.admitted), key, from, from + cfg.window) <= 2 * cfg.address
  {
    ServeSound(cfg, qs);
    var (b, t) := Serve(cfg, qs);
    SoundTwice(cfg, b, t.ips, t.credentials, t.admitted, if qs == [] then 0 else qs[|qs| - 1].now, key, from);
  }

  /** The books count what got through, bucket by bucket. */
  ghost predicate AllBacked(cfg: Limits, b: Buckets, t: Through, now: nat) {
    && Backed(cfg.Ip(), b.ips, ByIp(t.ips), now) && UpTo(ByIp(t.ips), now)
    && Backed(cfg.Credential(), b.credentials, ByCredential(t.credentials), now) && UpTo(ByCredential(t.credentials), now)
    && Backed(cfg.Address(), b.addresses, ByAddress(t.admitted), now) && UpTo(ByAddress(t.admitted), now)
  }

  lemma CheckBacked(cfg: Limits, b: Buckets, t: Through, before: nat, q: Request)
    requires AllBacked(cfg, b, t, before) && before <= q.now
    ensures
      var (v, b') := Check(cfg, b, q);
      AllBacked(cfg, b', Note(t, q, v), q.now)
  {
    var v := Check(cfg, b, q).0;
    ByNext(t.ips, q);
    ByNext(t.credentials, q);
    ByNext(t.admitted, q);
    HitBacked(cfg.Ip(), b.ips, ByIp(t.ips), q.ip, before, q.now);
    HitBacked(cfg.Credential(), b.credentials, ByCredential(t.credentials), Lower(q.credential), before, q.now);
    HitBacked(cfg.Address(), b.addresses, ByAddress(t.admitted), Lower(q.address), before, q.now);
    BackedLater(cfg.Credential(), b.credentials, ByCredential(t.credentials), before, q.now);
    BackedLater(cfg.Address(), b.addresses, ByAddress(t.admitted), before, q.now);
  }

  function Last(qs: seq<Request>): nat {
    if qs == [] then 0 else qs[|qs| - 1].now
  }

  lemma {:induction false} ServeBacked(cfg: Limits, qs: seq<Request>)
    requires InOrder(qs)
    ensures AllBacked(cfg, Serve(cfg, qs).0, Serve(cfg, qs).1, Last(qs))
  {
    if qs != [] {
      var before, q := qs[..|qs| - 1], qs[|qs| - 1];
      ServeBacked(cfg, before);
      CheckBacked(cfg, Serve(cfg, before).0, Serve(cfg, before).1, Last(before), q);
    }
  }

  /** What the limiter answers to the last of these requests. */
  function Answered(cfg: Limits, qs: seq<Request>): Verdict
    requires qs != []
  {
    Check(cfg, Serve(cfg, qs[..|qs| - 1]).0, qs[|qs| - 1]).0
  }

  lemma CheckRefuses(cfg: Limits, b: Buckets, t: Through, before: nat, q: Request)
    requires AllBacked(cfg, b, t, before) && before <= q.now
    ensures
      var v, from := Check(cfg, b, q).0, Since(cfg.Ip(), q.now);
      && (v.IpLimited? ==> CountIn(ByIp(t.ips), q.ip, from, q.now) >= cfg.ip)
      && (v.CredentialLimited? ==> CountIn(ByCredential(t.credentials), Lower(q.credential), from, q.now) >= cfg.credential)
      && (v.AddressLimited? ==> CountIn(ByAddress(t.admitted), Lower(q.address), from, q.now) >= cfg.address)
  {
    RefusedWhenFull(cfg.Ip(), b.ips, ByIp(t.ips), q.ip, before, q.now);
    RefusedWhenFull(cfg.Credential(), b.credentials, ByCredential(t.credentials), Lower(q.credential), before, q.now);
    RefusedWhenFull(cfg.Address(), b.addresses, ByAddress(t.admitted), Lower(q.address), before, q.now);
  }

  /** The other half: whatever came before, a bucket refuses a request only if it let
      through its whole limit of the same key within the last window's length. */
  lemma RefusedOnlyWhenFull(cfg: Limits, qs: seq<Request>)
    requires InOrder(qs) && qs != []
    ensures
      var q, v, t := qs[|qs| - 1], Answered(cfg, qs), Serve(cfg, qs[..|qs| - 1]).1;
      var from := if q.now < cfg.window then 0 else q.now - cfg.window;
      && (v.IpLimited? ==> CountIn(ByIp(t.ips), q.ip, from, q.now) >= cfg.ip)
      && (v.CredentialLimited? ==> CountIn(ByCredential(t.credentials), Lower(q.credential), from, q.now) >= cfg.credential)
      && (v.AddressLimited? ==> CountIn(ByAddress(t.admitted), Lower(q.address), from, q.now) >= cfg.address)
  {
    var before, q := qs[..|qs| - 1], qs[|qs| - 1];
    ServeBacked(cfg, before);
    CheckRefuses(cfg, Serve(cfg, before).0, Serve(cfg, before).1, Last(before), q);
  }

  /** When an address is first heard of. */
  function FirstOf(qs: seq<Request>, ip: string): Option<nat> {
    if qs == [] then None
    else
      var before := FirstOf(qs[..|qs| - 1], ip);
      if before.None? && qs[|qs| - 1].ip == ip then Some(qs[|qs| - 1].now) else before
  }

  lemma {:induction false} FirstEntry(cfg: Limits, qs: seq<Request>, ip: string)
    requires InOrder(qs)
    ensures
      var ips := Serve(cfg, qs).0.ips;
      match FirstOf(qs, ip)
      case None => ip !in ips
      case Some(t) => t <= Last(qs) && (Last(qs) <= t + cfg.window ==> ip in ips && ips[ip].since == t)
  {
    if qs != [] {
      FirstEntry(cfg, qs[..|qs| - 1], ip);
    }
  }

  /** A window lasts to its very end: as long as the first one runs, an address gets
      through no more than the limit, and not twice that. */
  lemma FirstWindow(cfg: Limits, qs: seq<Request>, ip: string)
    requires InOrder(qs) && FirstOf(qs, ip).Some? && Last(qs) <= FirstOf(qs, ip).value + cfg.window
    ensures CountFrom(ByIp(Serve(cfg, qs).1.ips), ip, FirstOf(qs, ip).value) <= cfg.ip
  {
    FirstEntry(cfg, qs, ip);
    ServeSound(cfg, qs);
    var (b, t) := Serve(cfg, qs);
    assert Kept(cfg.Ip(), b.ips, ByIp(t.ips), ip, Last(qs));
  }

  /** The same letter, but perhaps for its case. */
  ghost predicate SameLetter(c: char, d: char) {
    || c == d
    || ('A' <= c <= 'Z' && d as int == c as int + 32) || ('A' <= d <= 'Z' && c as int == d as int + 32)
  }

  /** Two spellings share a bucket exactly when they differ in case at most. */
  lemma SharedBucket(a: string, b: string)
    ensures Lower(a) == Lower(b) <==> |a| == |b| && forall i :: 0 <= i < |a| ==> SameLetter(a[i], b[i])
  {
    if Lower(a) == Lower(b) {
      forall i | 0 <= i < |a| ensures SameLetter(a[i], b[i]) {
        assert Lower(a)[i] == Lower(b)[i];
      }
    }
    if |a| == |b| && forall i :: 0 <= i < |a| ==> SameLetter(a[i], b[i]) {
      assert forall i :: 0 <= i < |a| ==> Lower(a)[i] == Lower(b)[i];
    }
  }

  // ---- the RPC proxy ----------------------------------------------------------------------

  const WINDOW: nat := 60_000_000_000   // nanoseconds
  const REQ_PER_WINDOW: nat := 256
  const PRUNE_ABOVE: nat := 10_000
  const RPC := Rule(REQ_PER_WINDOW, WINDOW, false, true)

  function Prune(m: Hits<string>, now: nat): Hits<string> {
    if |m| > PRUNE_ABOVE then map k | k in m && now < m[k].since + WINDOW :: m[k] else m
  }

  function Allow(m: Hits<string>, ip: string, now: nat): (bool, Hits<string>) {
    Hit(RPC, Prune(m, now), ip, now)
  }

  class RpcProxy {
    var limiter: Hits<string>

    constructor ()
      ensures limiter == map[]
    {
      limiter := map[];
    }

    method AllowRequest(ip: string, now: nat) returns (ok: bool)
      modifies this
      ensures (ok, limiter) == Allow(old(limiter), ip, now)
    {
      if |limiter| > PRUNE_ABOVE {
        limiter := map k | k in limiter && now < limiter[k].since + WINDOW :: limiter[k];
      }
      var e := Opened(RPC, limiter, ip, now);
      e := e.(count := e.count + 1);
      limiter := limiter[ip := e];
      ok := e.count <= REQ_PER_WINDOW;
    }
  }

  /** The same limiter if it never forgot anything. */
  function AllowUnpruned(m: Hits<string>, ip: string, now: nat): (bool, Hits<string>) {
    Hit(RPC, m, ip, now)
  }

  /** `m` lacks nothing of `u` that still matters. */
  ghost predicate Covers(m: Hits<string>, u: Hits<string>, now: nat) {
    && (forall k :: k in m ==> k in u && u[k] == m[k])
    && (forall k :: k in u && k !in m ==> Expired(RPC, u[k], now))
  }

  lemma PruningHarmless(m: Hits<string>, u: Hits<string>, ip: string, before: nat, now: nat)
    requires Covers(m, u, before) && before <= now
    ensures Allow(m, ip, now).0 == AllowUnpruned(u, ip, now).0
    ensures Covers(Allow(m, ip, now).1, AllowUnpruned(u, ip, now).1, now)
  {
    assert Covers(Prune(m, now), u, now);
  }

  type Calls = seq<(nat, string)>

  ghost predicate CallsInOrder(calls: Calls) {
    forall i, j :: 0 <= i < j < |calls| ==> calls[i].0 <= calls[j].0
  }

  /** The answers to a run of calls, with pruning or without. */
  function Answers(pruned: bool, calls: Calls): (Hits<string>, seq<bool>) {
    if calls == [] then (map[], [])
    else
      var (m, answers) := Answers(pruned, calls[..|calls| - 1]);
      var (now, ip) := calls[|calls| - 1];
      var (ok, m') := if pruned then Allow(m, ip, now) else AllowUnpruned(m, ip, now);
      (m', answers + [ok])
  }

  function Clock(calls: Calls): nat {
    if calls == [] then 0 else calls[|calls| - 1].0
  }

  /** Pruning never changes an answer. */
  lemma {:induction false} PruningUnseen(calls: Calls)
    requires CallsInOrder(calls)
    ensures Answers(true, calls).1 == Answers(false, calls).1
    ensures Covers(Answers(true, calls).0, Answers(false, calls).0, Clock(calls))
  {
    if calls != [] {
      var before := calls[..|calls| - 1];
      var (now, ip) := calls[|calls| - 1];
      PruningUnseen(before);
      PruningHarmless(Answers(true, before).0, Answers(false, before).0, ip, Clock(before), now);
    }
  }

  /** Once there are too many entries, only callers of the last 60 seconds are kept. */
  lemma PruningForgets(calls: Calls, ip: string)
    requires CallsInOrder(calls) && calls != [] && |Answers(true, calls[..|calls| - 1]).0| > 10_000
    requires ip in Answers(true, calls).0
    ensures exists i :: 0 <= i < |calls| && calls[i].1 == ip && Clock(calls) < calls[i].0 + 60_000_000_000
  {
    var before, n := calls[..|calls| - 1], |calls| - 1;
    if ip == calls[n].1 {
      assert Clock(calls) < calls[n].0 + 60_000_000_000;
    } else {
      var i := EntryFrom(before, ip);
      assert calls[i] == before[i];
    }
  }

  /** Every entry was opened by a call of its key. */
  lemma {:induction false} EntryFrom(calls: Calls, ip: string) returns (i: nat)
    requires ip in Answers(true, calls).0
    ensures i < |calls| && calls[i] == (Answers(true, calls).0[ip].since, ip)
  {
    var n := |calls| - 1;
    var before := Answers(true, calls[..n]).0;
    if calls[n].1 == ip && !(ip in Prune(before, calls[n].0) && !Expired(RPC, before[ip], calls[n].0)) {
      i := n;
    } else {
      i := EntryFrom(calls[..n], ip);
    }
  }

  /** The calls the pruned limiter allowed. */
  function Allowed(calls: Calls): Calls {
    if calls == [] then []
    else
      var before, last := calls[..|calls| - 1], calls[|calls| - 1];
      if Allow(Answers(true, before).0, last.1, last.0).0 then Allowed(before) + [last] else Allowed(before)
  }

  lemma {:induction false} AllowedSound(calls: Calls)
    requires CallsInOrder(calls)
    ensures Sound(RPC, Answers(false, calls).0, Allowed(calls), Clock(calls))
  {
    if calls != [] {
      var before := calls[..|calls| - 1];
      var (now, ip) := calls[|calls| - 1];
      AllowedSound(before);
      PruningUnseen(before);
      var m := Answers(false, before).0;
      PruningHarmless(Answers(true, before).0, m, ip, Clock(before), now);
      HitSound(RPC, m, Allowed(before), ip, Clock(before), now, AllowUnpruned(m, ip, now).0);
    }
  }

  /** No caller gets more than twice the limit through in any 60 seconds. */
  lemma AllowedAtMostTwice(calls: Calls, ip: string, from: nat)
    requires CallsInOrder(calls)
    ensures CountIn(Allowed(calls), ip, from, from + WINDOW) <= 2 * REQ_PER_WINDOW
  {
    AllowedSound(calls);
    assert Kept(RPC, Answers(false, calls).0, Allowed(calls), ip, Clock(calls));
    assert InWindow(RPC, Allowed(calls), ip, from) <= 2 * RPC.limit;
  }

  lemma {:induction false} AllowedBacked(calls: Calls)
    requires CallsInOrder(calls)
    ensures Backed(RPC, Answers(false, calls).0, Allowed(calls), Clock(calls)) && UpTo(Allowed(calls), Clock(calls))
  {
    if calls != [] {
      var before := calls[..|calls| - 1];
      var (now, ip) := calls[|calls| - 1];
      AllowedBacked(before);
      PruningUnseen(before);
      var m := Answers(false, before).0;
      PruningHarmless(Answers(true, before).0, m, ip, Clock(before), now);
      HitBacked(RPC, m, Allowed(before), ip, Clock(before), now);
    }
  }

  /** A caller is refused only after 256 of its calls got through in less than 60
      seconds. */
  lemma DeniedOnlyWhenFull(calls: Calls)
    requires CallsInOrder(calls) && calls != []
    ensures
      var before := calls[..|calls| - 1];
      var (now, ip) := calls[|calls| - 1];
      Allowed(calls) == Allowed(before) ==>
        CountIn(Allowed(before), ip, if now < WINDOW then 0 else now - WINDOW + 1, now) >= REQ_PER_WINDOW
  {
    var before := calls[..|calls| - 1];
    var (now, ip) := calls[|calls| - 1];
    AllowedBacked(before);
    PruningUnseen(before);
    var m := Answers(false, before).0;
    PruningHarmless(Answers(true, before).0, m, ip, Clock(before), now);
    RefusedWhenFull(RPC, m, Allowed(before), ip, Clock(before), now);
  }
}
