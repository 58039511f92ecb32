/** The Solana receiver registry: two ways of merging its event log, at startup
    and live, and when they agree. An announce is only worth what its pinned
    transaction account says at the moment it is read, and that account is closed
    when the receiver is registered; so the log comes with what each reading of it
    found. */
module SolanaRegistry {
  import opened Wrappers
  import opened Positional
  import opened Hex

  datatype Status = AnnouncedOnly | RegisteredNow

  datatype SolanaRoute = SolanaRoute(chain: Bytes32, recipient: Bytes32)

  datatype Record = Record(
    merchant: Bytes32, receiver: Bytes32, tokenAccount: Bytes32, config: Bytes32,
    status: Status, regTx: Option<seq<byte>>, route: Option<SolanaRoute>)

  datatype Announce = Announce(
    merchant: Bytes32, receiver: Bytes32, tokenAccount: Bytes32, config: Bytes32,
    staging: Bytes32, pending: Bytes32, route: SolanaRoute)

  datatype Registration = Registration(merchant: Bytes32, receiver: Bytes32, tokenAccount: Bytes32, config: Bytes32)

  /** A decoded event of the program, as read: for an announce, the pinned
      transaction if it could be fetched just then and registers what is claimed.
      What does not decode is `Noise`. */
  datatype Event = Announced(a: Announce, proof: Option<seq<byte>>) | Registered(g: Registration) | Noise

  type Registry = map<Bytes32, Record>

  function AnnouncedRecord(a: Announce, regTx: seq<byte>): Record {
    Record(a.merchant, a.receiver, a.tokenAccount, a.config, AnnouncedOnly, Some(regTx), Some(a.route))
  }

  function RegisteredRecord(g: Registration): Record {
    Record(g.merchant, g.receiver, g.tokenAccount, g.config, RegisteredNow, None, None)
  }

  // ---- the three folds -----------------------------------------------------------

  /** `attach_reg_tx_and_merge`, one event. */
  function Attach(m: Registry, ev: Event): Registry {
    if !ev.Announced? || (ev.a.receiver in m && m[ev.a.receiver].status.RegisteredNow?) || ev.proof.None? then m
    else m[ev.a.receiver := AnnouncedRecord(ev.a, ev.proof.value)]
  }

  function AttachAll(m: Registry, evs: seq<Event>): Registry {
    if evs == [] then m else Attach(AttachAll(m, evs[..|evs| - 1]), evs[|evs| - 1])
  }

  /** `merge_events`, one event: the startup path. */
  function Merge(m: Registry, ev: Event): Registry {
    if !ev.Registered? then m
    else
      var entry := if ev.g.receiver in m then m[ev.g.receiver] else RegisteredRecord(ev.g);
      m[ev.g.receiver := entry.(status := RegisteredNow, regTx := None)]
  }

  function MergeAll(m: Registry, evs: seq<Event>): Registry {
    if evs == [] then m else Merge(MergeAll(m, evs[..|evs| - 1]), evs[|evs| - 1])
  }

  /** `remember_solana_receiver`: a registered entry stays as it is, and a record
      without a route keeps the one already known. */
  function Remember(m: Registry, rec: Record): Registry {
    if rec.receiver in m && m[rec.receiver].status.RegisteredNow? then m
    else if rec.receiver in m && rec.route.None? then m[rec.receiver := rec.(route := m[rec.receiver].route)]
    else m[rec.receiver := rec]
  }

  /** The live path's half for registrations. */
  function Follow(m: Registry, ev: Event): Registry {
    if !ev.Registered? then m else Remember(m, RegisteredRecord(ev.g))
  }

  function FollowAll(m: Registry, evs: seq<Event>): Registry {
    if evs == [] then m else Follow(FollowAll(m, evs[..|evs| - 1]), evs[|evs| - 1])
  }

  /** What startup makes of a stretch of the log, and what a live batch does. */
  function CatchUp(evs: seq<Event>): Registry {
    MergeAll(AttachAll(map[], evs), evs)
  }

  function LiveBatch(m: Registry, evs: seq<Event>): Registry {
    FollowAll(AttachAll(m, evs), evs)
  }

  // ---- what the log says of one receiver -------------------------------------------

  datatype Passed = Passed(a: Announce, regTx: seq<byte>)

  /** The last announce that passed when it was read. */
  function LastAnnounce(evs: seq<Event>, r: Bytes32): (a: Option<Passed>)
    ensures a.Some? ==> a.value.a.receiver == r
  {
    if evs == [] then None
    else
      var last := evs[|evs| - 1];
      if last.Announced? && last.a.receiver == r && last.proof.Some? then Some(Passed(last.a, last.proof.value))
      else LastAnnounce(evs[..|evs| - 1], r)
  }

  function FirstRegistration(evs: seq<Event>, r: Bytes32): Option<Registration> {
    if evs == [] then None
    else
      var before, last := FirstRegistration(evs[..|evs| - 1], r), evs[|evs| - 1];
      if before.None? && last.Registered? && last.g.receiver == r then Some(last.g) else before
  }

  function RouteOf(a: Option<Passed>): Option<SolanaRoute> {
    if a.Some? then Some(a.value.a.route) else None
  }

  /** The record the whole log, as read, calls for. */
  function Due(evs: seq<Event>, r: Bytes32): Option<Record> {
    var a, g := LastAnnounce(evs, r), FirstRegistration(evs, r);
    if g.Some? then Some(RegisteredRecord(g.value).(route := RouteOf(a)))
    else if a.Some? then Some(AnnouncedRecord(a.value.a, a.value.regTx))
    else None
  }

  function Lookup(m: Registry, r: Bytes32): Option<Record> {
    if r in m then Some(m[r]) else None
  }

  ghost predicate Reflects(m: Registry, evs: seq<Event>) {
    forall r :: Lookup(m, r) == Due(evs, r)
  }

  /** Announces that pass come before their registration, which repeats their
      accounts. */
  ghost predicate Orderly(evs: seq<Event>) {
    forall i, j :: 0 <= i < |evs| && 0 <= j < |evs| && Pair(evs[i], evs[j]) ==>
      i < j && Repeats(evs[i].a, evs[j].g)
  }

  ghost predicate Pair(x: Event, y: Event) {
    x.Announced? && x.proof.Some? && y.Registered? && y.g.receiver == x.a.receiver
  }

  ghost predicate Repeats(a: Announce, g: Registration) {
    g == Registration(a.merchant, a.receiver, a.tokenAccount, a.config)
  }

  // ---- the folds, receiver by receiver ------------------------------------------------

  lemma {:induction false} AnnounceFound(evs: seq<Event>, r: Bytes32) returns (i: nat)
    requires LastAnnounce(evs, r).Some?
    ensures
      var a := LastAnnounce(evs, r).value;
      i < |evs| && evs[i] == Announced(a.a, Some(a.regTx)) && a.a.receiver == r
  {
    var last := evs[|evs| - 1];
    if last.Announced? && last.a.receiver == r && last.proof.Some? {
      i := |evs| - 1;
    } else {
      i := AnnounceFound(evs[..|evs| - 1], r);
    }
  }

  lemma {:induction false} RegistrationFound(evs: seq<Event>, r: Bytes32) returns (i: nat)
    requires FirstRegistration(evs, r).Some?
    ensures
      var g := FirstRegistration(evs, r).value;
      i < |evs| && evs[i] == Registered(g) && g.receiver == r
  {
    if FirstRegistration(evs[..|evs| - 1], r).None? {
      i := |evs| - 1;
    } else {
      i := RegistrationFound(evs[..|evs| - 1], r);
    }
  }

  /** Later announces win, the earliest registration does. */
  lemma {:induction false} FoundAppend(a: seq<Event>, b: seq<Event>, r: Bytes32)
    ensures LastAnnounce(a + b, r) ==
      if LastAnnounce(b, r).Some? then LastAnnounce(b, r) else LastAnnounce(a, r)
    ensures FirstRegistration(a + b, r) ==
      if FirstRegistration(a, r).Some? then FirstRegistration(a, r) else FirstRegistration(b, r)
  {
    if b == [] {
      assert a + b == a;
    } else {
      assert (a + b)[..|a + b| - 1] == a + b[..|b| - 1];
      FoundAppend(a, b[..|b| - 1], r);
    }
  }

  lemma {:induction false} AttachedAt(m: Registry, evs: seq<Event>, r: Bytes32)
    ensures
      var a := LastAnnounce(evs, r);
      Lookup(AttachAll(m, evs), r) ==
           if r in m && m[r].status.RegisteredNow? then Some(m[r])
           else if a.Some? then Some(AnnouncedRecord(a.value.a, a.value.regTx))
           else Lookup(m, r)
  {
    if evs != [] {
      AttachedAt(m, evs[..|evs| - 1], r);
    }
  }

  lemma {:induction false} MergedAt(m: Registry, evs: seq<Event>, r: Bytes32)
    ensures
      var g := FirstRegistration(evs, r);
      Lookup(MergeAll(m, evs), r) ==
        if g.None? then Lookup(m, r)
        else if r in m then Some(m[r].(status := RegisteredNow, regTx := None))
        else Some(RegisteredRecord(g.value))
  {
    if evs != [] {
      MergedAt(m, evs[..|evs| - 1], r);
    }
  }

  lemma {:induction false} FollowedAt(m: Registry, evs: seq<Event>, r: Bytes32)
    ensures
      var g := FirstRegistration(evs, r);
      Lookup(FollowAll(m, evs), r) ==
        if g.None? || (r in m && m[r].status.RegisteredNow?) then Lookup(m, r)
        else Some(RegisteredRecord(g.value).(route := if r in m then m[r].route else None))
  {
    if evs != [] {
      FollowedAt(m, evs[..|evs| - 1], r);
    }
  }

  /** In an orderly log a receiver's registration repeats its last announce. */
  lemma DueRepeats(evs: seq<Event>, r: Bytes32)
    requires Orderly(evs) && LastAnnounce(evs, r).Some? && FirstRegistration(evs, r).Some?
    ensures Repeats(LastAnnounce(evs, r).value.a, FirstRegistration(evs, r).value)
  {
    var i := AnnounceFound(evs, r);
    var j := RegistrationFound(evs, r);
    assert Pair(evs[i], evs[j]);
  }

  /** Once registered, nothing that passes is announced any more. */
  lemma NothingAfter(a: seq<Event>, b: seq<Event>, r: Bytes32)
    requires Orderly(a + b) && FirstRegistration(a, r).Some?
    ensures LastAnnounce(b, r).None?
  {
    if LastAnnounce(b, r).Some? {
      var j := RegistrationFound(a, r);
      var i := AnnounceFound(b, r);
      assert (a + b)[|a| + i] == b[i] && (a + b)[j] == a[j];
      assert Pair((a + b)[|a| + i], (a + b)[j]);
    }
  }

  // ---- confluence -------------------------------------------------------------------------

  /** One catch-up over an orderly log gives what the log calls for. */
  lemma CatchUpReflects(evs: seq<Event>)
    requires Orderly(evs)
    ensures Reflects(CatchUp(evs), evs)
  {
    forall r ensures Lookup(CatchUp(evs), r) == Due(evs, r) {
      AttachedAt(map[], evs, r);
      MergedAt(AttachAll(map[], evs), evs, r);
      if LastAnnounce(evs, r).Some? && FirstRegistration(evs, r).Some? {
        DueRepeats(evs, r);
      }
    }
  }

  lemma LiveBatchAt(m: Registry, done: seq<Event>, evs: seq<Event>, r: Bytes32)
    requires Orderly(done + evs) && Lookup(m, r) == Due(done, r)
    ensures Lookup(LiveBatch(m, evs), r) == Due(done + evs, r)
  {
    AttachedAt(m, evs, r);
    FollowedAt(AttachAll(m, evs), evs, r);
    FoundAppend(done, evs, r);
    if FirstRegistration(done, r).Some? {
      NothingAfter(done, evs, r);
    }
  }

  /** A live batch takes what the log so far calls for to what the longer log
      calls for. */
  lemma LiveBatchReflects(m: Registry, done: seq<Event>, evs: seq<Event>)
    requires Orderly(done + evs) && Reflects(m, done)
    ensures Reflects(LiveBatch(m, evs), done + evs)
  {
    forall r ensures Lookup(LiveBatch(m, evs), r) == Due(done + evs, r) {
      assert Lookup(m, r) == Due(done, r);
      LiveBatchAt(m, done, evs, r);
    }
  }

  function Flatten(batches: seq<seq<Event>>): seq<Event> {
    if batches == [] then [] else Flatten(batches[..|batches| - 1]) + batches[|batches| - 1]
  }

  function LiveAll(m: Registry, batches: seq<seq<Event>>): Registry {
    if batches == [] then m else LiveBatch(LiveAll(m, batches[..|batches| - 1]), batches[|batches| - 1])
  }

  lemma OrderlyPrefix(a: seq<Event>, b: seq<Event>)
    requires Orderly(a + b)
    ensures Orderly(a)
  {
    forall i, j | 0 <= i < |a| && 0 <= j < |a| && Pair(a[i], a[j]) ensures i < j && Repeats(a[i].a, a[j].g) {
      assert (a + b)[i] == a[i] && (a + b)[j] == a[j];
    }
  }

  lemma {:induction false} LiveAllReflects(first: seq<Event>, batches: seq<seq<Event>>)
    requires Orderly(first + Flatten(batches))
    ensures Reflects(LiveAll(CatchUp(first), batches), first + Flatten(batches))
  {
    if batches == [] {
      assert first + Flatten(batches) == first;
      CatchUpReflects(first);
    } else {
      var n := |batches| - 1;
      var done := first + Flatten(batches[..n]);
      assert first + Flatten(batches) == done + batches[n];
      OrderlyPrefix(done, batches[n]);
      LiveAllReflects(first, batches[..n]);
      LiveBatchReflects(LiveAll(CatchUp(first), batches[..n]), done, batches[n]);
    }
  }

  lemma ReflectsOne(m: Registry, m': Registry, evs: seq<Event>)
    requires Reflects(m, evs) && Reflects(m', evs)
    ensures m == m'
  {
    forall r ensures r in m <==> r in m' {
      assert Lookup(m, r) == Lookup(m', r);
    }
    forall r | r in m ensures m[r] == m'[r] {
      assert Lookup(m, r) == Lookup(m', r);
    }
  }

  /** However an orderly log is cut into a startup part and live batches, reading
      by reading, the registry comes out the same. */
  lemma Confluent(first: seq<Event>, batches: seq<seq<Event>>)
    requires Orderly(first + Flatten(batches))
    ensures LiveAll(CatchUp(first), batches) == CatchUp(first + Flatten(batches))
  {
    var evs := first + Flatten(batches);
    LiveAllReflects(first, batches);
    CatchUpReflects(evs);
    ReflectsOne(LiveAll(CatchUp(first), batches), CatchUp(evs), evs);
  }

  /** Two announces that leave the same record. */
  predicate SameRecord(a: Option<Passed>, b: Option<Passed>) {
    match (a, b)
    case (Some(x), Some(y)) =>
      && x.regTx == y.regTx && x.a.merchant == y.a.merchant && x.a.tokenAccount == y.a.tokenAccount
      && x.a.config == y.a.config && x.a.route == y.a.route
    case (None, None) => true
    case _ => false
  }

  /** What matters of a receiver: if it is registered, its first registration and
      the route of the last announce that passed; else that announce. */
  predicate Alike(x: seq<Event>, y: seq<Event>, r: Bytes32) {
    var a, b := LastAnnounce(x, r), LastAnnounce(y, r);
    && FirstRegistration(x, r) == FirstRegistration(y, r)
    && if FirstRegistration(x, r).Some? then RouteOf(a) == RouteOf(b) else SameRecord(a, b)
  }

  lemma DueAlike(x: seq<Event>, y: seq<Event>, r: Bytes32)
    ensures Due(x, r) == Due(y, r) <==> Alike(x, y, r)
  {
  }

  ghost predicate AllAlike(x: seq<Event>, y: seq<Event>) {
    forall r :: Alike(x, y, r)
  }

  lemma ReflectsBoth(m: Registry, x: seq<Event>, m': Registry, y: seq<Event>)
    requires Reflects(m, x) && Reflects(m', y)
    ensures m == m' <==> AllAlike(x, y)
  {
    if m == m' {
      forall r ensures Alike(x, y, r) {
        assert Lookup(m, r) == Due(x, r) && Lookup(m', r) == Due(y, r);
        DueAlike(x, y, r);
      }
    }
    if AllAlike(x, y) {
      forall r ensures Lookup(m', r) == Due(x, r) {
        assert Lookup(m', r) == Due(y, r);
        DueAlike(x, y, r);
      }
      ReflectsOne(m, m', x);
    }
  }

  /** Two histories, each with its own cut and its own readings, end in the same
      registry exactly when for every receiver the same first registration and
      the same last passed announce were read: of a registered receiver's announce
      only the route counts. */
  lemma CutsAgree(first: seq<Event>, batches: seq<seq<Event>>, first': seq<Event>, batches': seq<seq<Event>>)
    requires Orderly(first + Flatten(batches)) && Orderly(first' + Flatten(batches'))
    ensures LiveAll(CatchUp(first), batches) == LiveAll(CatchUp(first'), batches') <==>
      AllAlike(first + Flatten(batches), first' + Flatten(batches'))
  {
    LiveAllReflects(first, batches);
    LiveAllReflects(first', batches');
    ReflectsBoth(LiveAll(CatchUp(first), batches), first + Flatten(batches),
                 LiveAll(CatchUp(first'), batches'), first' + Flatten(batches'));
  }

  // ---- broadcasts in between -------------------------------------------------------------

  /** A live batch as it was read, or a pinned registration that was broadcast. */
  datatype Step = Batch(evs: seq<Event>) | Broadcast(receiver: Bytes32)

  /** A broadcast went through: the receiver counts as registered. */
  function Mark(m: Registry, r: Bytes32): Registry {
    if r in m then m[r := m[r].(status := RegisteredNow, regTx := None)] else m
  }

  function Apply(m: Registry, step: Step): Registry {
    match step
    case Batch(evs) => LiveBatch(m, evs)
    case Broadcast(r) => Mark(m, r)
  }

  function RunAll(m: Registry, steps: seq<Step>): Registry {
    if steps == [] then m else Apply(RunAll(m, steps[..|steps| - 1]), steps[|steps| - 1])
  }

  /** The log the batches of a run add up to. */
  function LogOf(steps: seq<Step>): seq<Event> {
    if steps == [] then []
    else
      var last := steps[|steps| - 1];
      LogOf(steps[..|steps| - 1]) + if last.Batch? then last.evs else []
  }

  /** The receivers a broadcast turned registered, each with the announce that
      counted for it just then. */
  function Sold(first: seq<Event>, steps: seq<Step>): map<Bytes32, Passed> {
    if steps == [] then map[]
    else
      var before := steps[..|steps| - 1];
      var sold := Sold(first, before);
      match steps[|steps| - 1]
      case Batch(_) => sold
      case Broadcast(r) =>
        var m, a := RunAll(CatchUp(first), before), LastAnnounce(first + LogOf(before), r);
        if r in m && m[r].status.AnnouncedOnly? && a.Some? then sold[r := a.value] else sold
  }

  function SoldRecord(a: Announce): Record {
    RegisteredRecord(Registration(a.merchant, a.receiver, a.tokenAccount, a.config)).(route := Some(a.route))
  }

  ghost predicate InLog(evs: seq<Event>, p: Passed) {
    Announced(p.a, Some(p.regTx)) in evs
  }

  /** What a registry holds of a receiver: what its broadcast made of it, or what
      the log calls for. */
  ghost predicate HoldsFor(m: Registry, evs: seq<Event>, sold: map<Bytes32, Passed>, r: Bytes32) {
    if r in sold then
      InLog(evs, sold[r]) && sold[r].a.receiver == r && Lookup(m, r) == Some(SoldRecord(sold[r].a))
    else Lookup(m, r) == Due(evs, r)
  }

  ghost predicate Holds(m: Registry, evs: seq<Event>, sold: map<Bytes32, Passed>) {
    forall r :: HoldsFor(m, evs, sold, r)
  }

  lemma HoldsBatch(m: Registry, done: seq<Event>, evs: seq<Event>, sold: map<Bytes32, Passed>)
    requires Orderly(done + evs) && Holds(m, done, sold)
    ensures Holds(LiveBatch(m, evs), done + evs, sold)
  {
    forall r ensures HoldsFor(LiveBatch(m, evs), done + evs, sold, r) {
      assert HoldsFor(m, done, sold, r);
      if r in sold {
        AttachedAt(m, evs, r);
        FollowedAt(AttachAll(m, evs), evs, r);
      } else {
        LiveBatchAt(m, done, evs, r);
      }
    }
  }

  lemma HoldsMark(m: Registry, evs: seq<Event>, sold: map<Bytes32, Passed>, r: Bytes32, sold': map<Bytes32, Passed>)
    requires Holds(m, evs, sold)
    requires
      var a := LastAnnounce(evs, r);
      sold' == if r in m && m[r].status.AnnouncedOnly? && a.Some? then sold[r := a.value] else sold
    ensures Holds(Mark(m, r), evs, sold')
  {
    forall q ensures HoldsFor(Mark(m, r), evs, sold', q) {
      assert HoldsFor(m, evs, sold, q);
      if q == r && LastAnnounce(evs, r).Some? {
        var i := AnnounceFound(evs, r);
        assert evs[i] in evs;
      }
    }
  }

  lemma {:induction false} RunHolds(first: seq<Event>, steps: seq<Step>)
    requires Orderly(first + LogOf(steps))
    ensures Holds(RunAll(CatchUp(first), steps), first + LogOf(steps), Sold(first, steps))
  {
    if steps == [] {
      assert first + LogOf(steps) == first;
      CatchUpReflects(first);
      forall r ensures HoldsFor(CatchUp(first), first, map[], r) {
        assert Lookup(CatchUp(first), r) == Due(first, r);
      }
    } else {
      var before, step := steps[..|steps| - 1], steps[|steps| - 1];
      var m, done, sold := RunAll(CatchUp(first), before), first + LogOf(before), Sold(first, before);
      var more := if step.Batch? then step.evs else [];
      assert first + LogOf(steps) == done + more;
      OrderlyPrefix(done, more);
      RunHolds(first, before);
      if step.Batch? {
        HoldsBatch(m, done, more, sold);
      } else {
        assert done + more == done;
        HoldsMark(m, done, sold, step.receiver, Sold(first, steps));
      }
    }
  }

  /** What the log calls for is what the broadcast made of a receiver: its
      registration is in the log, and the last announce to pass has the route of
      the one that counted then. */
  predicate Borne(evs: seq<Event>, sold: map<Bytes32, Passed>, r: Bytes32) {
    r in sold ==> FirstRegistration(evs, r).Some? && RouteOf(LastAnnounce(evs, r)) == Some(sold[r].a.route)
  }

  lemma BorneIff(m: Registry, evs: seq<Event>, sold: map<Bytes32, Passed>, r: Bytes32)
    requires Orderly(evs) && HoldsFor(m, evs, sold, r)
    ensures Lookup(m, r) == Due(evs, r) <==> Borne(evs, sold, r)
  {
    if r in sold && FirstRegistration(evs, r).Some? {
      var j := RegistrationFound(evs, r);
      var i :| 0 <= i < |evs| && evs[i] == Announced(sold[r].a, Some(sold[r].regTx));
      assert Pair(evs[i], evs[j]);
    }
  }

  ghost predicate SameLookups(m: Registry, m': Registry) {
    forall r :: Lookup(m, r) == Lookup(m', r)
  }

  lemma SameIff(m: Registry, m': Registry)
    ensures m == m' <==> SameLookups(m, m')
  {
    if SameLookups(m, m') {
      forall r ensures (r in m <==> r in m') && (r in m ==> m[r] == m'[r]) {
        assert Lookup(m, r) == Lookup(m', r);
      }
      assert m == m';
    }
  }

  ghost predicate AllBorne(evs: seq<Event>, sold: map<Bytes32, Passed>) {
    forall r :: Borne(evs, sold, r)
  }

  /** However broadcasts fall between the batches, a run over an orderly log ends
      in the registry one catch-up gives exactly when the log holds the
      registration of every receiver a broadcast turned registered, and no
      announce with another route passed for it after the broadcast. */
  lemma BroadcastsAgree(first: seq<Event>, steps: seq<Step>)
    requires Orderly(first + LogOf(steps))
    ensures
      var evs := first + LogOf(steps);
      RunAll(CatchUp(first), steps) == CatchUp(evs) <==> AllBorne(evs, Sold(first, steps))
  {
    var m, evs, sold := RunAll(CatchUp(first), steps), first + LogOf(steps), Sold(first, steps);
    RunHolds(first, steps);
    CatchUpReflects(evs);
    forall r ensures Lookup(m, r) == Lookup(CatchUp(evs), r) <==> Borne(evs, sold, r) {
      assert HoldsFor(m, evs, sold, r);
      assert Lookup(CatchUp(evs), r) == Due(evs, r);
      BorneIff(m, evs, sold, r);
    }
    SameIff(m, CatchUp(evs));
    assert SameLookups(m, CatchUp(evs)) <==> AllBorne(evs, sold);
  }

  // ---- reading late ----------------------------------------------------------------------

  /** The same event, read when the account of a registered receiver is closed. */
  function ReadLate(evs: seq<Event>, ev: Event): Event {
    if ev.Announced? && FirstRegistration(evs, ev.a.receiver).Some? then Announced(ev.a, None) else ev
  }

  /** The log `x` read again once everything in `evs` has happened. */
  function AllLate(evs: seq<Event>, x: seq<Event>): (y: seq<Event>)
    ensures |y| == |x| && forall i :: 0 <= i < |x| ==> y[i] == ReadLate(evs, x[i])
  {
    if x == [] then [] else AllLate(evs, x[..|x| - 1]) + [ReadLate(evs, x[|x| - 1])]
  }

  lemma {:induction false} LateFound(evs: seq<Event>, x: seq<Event>, r: Bytes32)
    ensures FirstRegistration(AllLate(evs, x), r) == FirstRegistration(x, r)
    ensures LastAnnounce(AllLate(evs, x), r) == if FirstRegistration(evs, r).Some? then None else LastAnnounce(x, r)
  {
    if x != [] {
      var y, n := AllLate(evs, x), |x| - 1;
      assert y[..n] == AllLate(evs, x[..n]);
      LateFound(evs, x[..n], r);
    }
  }

  lemma LateOrderly(evs: seq<Event>)
    requires Orderly(evs)
    ensures Orderly(AllLate(evs, evs))
  {
    var y := AllLate(evs, evs);
    forall i, j | 0 <= i < |y| && 0 <= j < |y| && Pair(y[i], y[j]) ensures i < j && Repeats(y[i].a, y[j].g) {
      assert y[i] == ReadLate(evs, evs[i]) && y[j] == ReadLate(evs, evs[j]);
      assert Pair(evs[i], evs[j]);
    }
  }

  /** A registered receiver whose announce was once read and passed. */
  predicate LosesRoute(evs: seq<Event>, r: Bytes32) {
    FirstRegistration(evs, r).Some? && LastAnnounce(evs, r).Some?
  }

  /** Registering closes the account an announce is checked against. A catch-up
      over a log that was followed live gives the live registry exactly when no
      registered receiver had an announce that passed: every other one comes
      out registered without its route. */
  lemma LateCatchUp(first: seq<Event>, batches: seq<seq<Event>>)
    requires Orderly(first + Flatten(batches))
    ensures
      var evs := first + Flatten(batches);
      var late := CatchUp(AllLate(evs, evs));
      && (late == LiveAll(CatchUp(first), batches) <==>
            forall r :: !LosesRoute(evs, r))
      && (forall r :: FirstRegistration(evs, r).Some? ==> Lookup(late, r) == Some(RegisteredRecord(FirstRegistration(evs, r).value)))
  {
    var evs := first + Flatten(batches);
    var y := AllLate(evs, evs);
    LateOrderly(evs);
    CatchUpReflects(y);
    LiveAllReflects(first, batches);
    ReflectsBoth(CatchUp(y), y, LiveAll(CatchUp(first), batches), evs);
    forall r
      ensures Alike(y, evs, r) <==> !LosesRoute(evs, r)
      ensures FirstRegistration(evs, r).Some? ==> Lookup(CatchUp(y), r) == Some(RegisteredRecord(FirstRegistration(evs, r).value))
    {
      LateFound(evs, evs, r);
      assert Lookup(CatchUp(y), r) == Due(y, r);
    }
  }

  /** So an announce read live and its registration make a routed receiver, and
      the same two events read at a later start make one without a route. */
  lemma ClosedAccount(a: Announce, regTx: seq<byte>)
    ensures
      var g := Registered(Registration(a.merchant, a.receiver, a.tokenAccount, a.config));
      && Lookup(LiveAll(map[], [[Announced(a, Some(regTx))], [g]]), a.receiver)
           == Some(RegisteredRecord(g.g).(route := Some(a.route)))
      && Lookup(CatchUp([Announced(a, None), g]), a.receiver) == Some(RegisteredRecord(g.g))
  {
    var g := Registered(Registration(a.merchant, a.receiver, a.tokenAccount, a.config));
    var x, x', r := Announced(a, Some(regTx)), Announced(a, None), a.receiver;
    assert [[x], [g]][..1] == [[x]] && [[x]][..0] == [];
    assert LiveAll(map[], [[x], [g]]) == LiveBatch(LiveAll(map[], [[x]]), [g]);
    assert LiveAll(map[], [[x]]) == LiveBatch(map[], [x]);
    assert [x', g][..1] == [x'] && [x'][..0] == [] && [x][..0] == [] && [g][..0] == [];
    AttachedAt(map[], [x], r);
    FollowedAt(AttachAll(map[], [x]), [x], r);
    var one := LiveBatch(map[], [x]);
    AttachedAt(one, [g], r);
    FollowedAt(AttachAll(one, [g]), [g], r);
    AttachedAt(map[], [x', g], r);
    MergedAt(AttachAll(map[], [x', g]), [x', g], r);
  }

  /** Without the order the cut matters: an announce behind its registration is
      picked up by a batch holding both and missed by two batches. */
  lemma OrderMatters(a: Announce, regTx: seq<byte>)
    ensures
      var g := Registered(Registration(a.merchant, a.receiver, a.tokenAccount, a.config));
      var x := Announced(a, Some(regTx));
      LiveAll(map[], [[g], [x]]) != LiveAll(map[], [[g, x]])
  {
    var g := Registered(Registration(a.merchant, a.receiver, a.tokenAccount, a.config));
    var x, r := Announced(a, Some(regTx)), a.receiver;
    assert [[g], [x]][..1] == [[g]] && [[g]][..0] == [] && [[g, x]][..0] == [];
    assert [g, x][..1] == [g] && [g][..0] == [] && [x][..0] == [];
    AttachedAt(map[], [g], r);
    FollowedAt(AttachAll(map[], [g]), [g], r);
    var one := LiveBatch(map[], [g]);
    AttachedAt(one, [x], r);
    FollowedAt(AttachAll(one, [x]), [x], r);
    AttachedAt(map[], [g, x], r);
    FollowedAt(AttachAll(map[], [g, x]), [g, x], r);
    assert Lookup(LiveAll(map[], [[g], [x]]), r) != Lookup(LiveAll(map[], [[g, x]]), r);
  }

  // ---- restarts ---------------------------------------------------------------------------------

  ghost predicate RegisteredOnce(evs: seq<Event>) {
    forall i, j :: 0 <= i < j < |evs| && evs[i].Registered? && evs[j].Registered? ==> evs[i].g.receiver != evs[j].g.receiver
  }

  lemma OnceSplit(a: seq<Event>, b: seq<Event>, r: Bytes32)
    requires RegisteredOnce(a + b) && FirstRegistration(a, r).Some?
    ensures FirstRegistration(b, r).None?
  {
    assert forall k :: 0 <= k < |a| ==> (a + b)[k] == a[k];
    assert forall k :: 0 <= k < |b| ==> (a + b)[|a| + k] == b[k];
    if FirstRegistration(b, r).Some? {
      var i := RegistrationFound(a, r);
      var j := RegistrationFound(b, r);
    }
  }

  /** What was known of a receiver before a start is known after it: nothing of its
      registration lies before the checkpoint, and its last passed announce was
      read again, or one that leaves as much. */
  ghost predicate Survives(gone: seq<Event>, rest: seq<Event>, again: seq<Event>, r: Bytes32) {
    var a, b := LastAnnounce(gone + rest, r), LastAnnounce(again, r);
    && FirstRegistration(gone, r).None?
    && if FirstRegistration(rest, r).Some? then RouteOf(a) == RouteOf(b) else SameRecord(a, b)
  }

  ghost predicate AllSurvive(gone: seq<Event>, rest: seq<Event>, again: seq<Event>) {
    forall r :: Survives(gone, rest, again, r)
  }

  /** The same events, read at two times. */
  ghost predicate SameEvents(x: seq<Event>, y: seq<Event>) {
    |x| == |y| && forall i :: 0 <= i < |x| ==> SameEvent(x[i], y[i])
  }

  predicate SameEvent(x: Event, y: Event) {
    x == y || (x.Announced? && y.Announced? && x.a == y.a)
  }

  lemma {:induction false} SameRegistration(x: seq<Event>, y: seq<Event>, r: Bytes32)
    requires SameEvents(x, y)
    ensures FirstRegistration(x, r) == FirstRegistration(y, r)
  {
    if x != [] {
      var n := |x| - 1;
      assert SameEvent(x[n], y[n]);
      assert forall i :: 0 <= i < n ==> x[..n][i] == x[i] && y[..n][i] == y[i];
      SameRegistration(x[..n], y[..n], r);
    }
  }

  /** Startup reads the log from behind the checkpoint, `rest`, into an empty
      registry, anew. It ends up with the registry the worker had before exactly
      when everything known of every receiver survives. */
  lemma RestartKeeps(gone: seq<Event>, rest: seq<Event>, again: seq<Event>)
    requires Orderly(gone + rest) && RegisteredOnce(gone + rest) && Orderly(again) && SameEvents(rest, again)
    ensures CatchUp(again) == CatchUp(gone + rest) <==> AllSurvive(gone, rest, again)
  {
    CatchUpReflects(gone + rest);
    CatchUpReflects(again);
    ReflectsBoth(CatchUp(again), again, CatchUp(gone + rest), gone + rest);
    forall r ensures Alike(again, gone + rest, r) <==> Survives(gone, rest, again, r) {
      SameRegistration(rest, again, r);
      FoundAppend(gone, rest, r);
      if FirstRegistration(gone, r).Some? {
        OnceSplit(gone, rest, r);
      }
    }
  }

  /** So a receiver announced before the checkpoint is forgotten. */
  lemma RestartForgets(a: Announce, regTx: seq<byte>)
    ensures CatchUp([]) != CatchUp([Announced(a, Some(regTx))])
  {
    var evs := [Announced(a, Some(regTx))];
    assert evs[..0] == [];
    AttachedAt(map[], evs, a.receiver);
    MergedAt(AttachAll(map[], evs), evs, a.receiver);
    assert CatchUp([]) == map[];
    assert Lookup(CatchUp(evs), a.receiver).Some?;
  }

  // ---- what every step keeps ------------------------------------------------------------

  /** A pinned transaction is held exactly while a receiver is only announced, and
      whoever is announced has a route. */
  ghost predicate Shaped(m: Registry) {
    forall r :: r in m ==>
      && m[r].receiver == r
      && (m[r].regTx.Some? <==> m[r].status.AnnouncedOnly?)
      && (m[r].status.AnnouncedOnly? ==> m[r].route.Some?)
  }

  /** No receiver is dropped, a registered one is not touched again, and no known
      route is lost. */
  ghost predicate Advances(m: Registry, m': Registry) {
    forall r :: r in m ==>
      && r in m'
      && (m[r].status.RegisteredNow? ==> m'[r] == m[r])
      && (m[r].route.Some? ==> m'[r].route.Some?)
  }

  lemma {:induction false} AttachAdvances(m: Registry, evs: seq<Event>)
    requires Shaped(m)
    ensures Shaped(AttachAll(m, evs)) && Advances(m, AttachAll(m, evs))
  {
    if evs != [] {
      AttachAdvances(m, evs[..|evs| - 1]);
    }
  }

  lemma {:induction false} MergeAdvances(m: Registry, evs: seq<Event>)
    requires Shaped(m)
    ensures Shaped(MergeAll(m, evs)) && Advances(m, MergeAll(m, evs))
  {
    if evs != [] {
      MergeAdvances(m, evs[..|evs| - 1]);
    }
  }

  lemma {:induction false} FollowAdvances(m: Registry, evs: seq<Event>)
    requires Shaped(m)
    ensures Shaped(FollowAll(m, evs)) && Advances(m, FollowAll(m, evs))
  {
    if evs != [] {
      FollowAdvances(m, evs[..|evs| - 1]);
    }
  }

  // ---- the worker ------------------------------------------------------------------------

  method AttachRegTxAndMerge(m0: Registry, events: seq<Event>) returns (m: Registry)
    ensures m == AttachAll(m0, events)
  {
    m := m0;
    for i := 0 to |events|
      invariant m == AttachAll(m0, events[..i])
    {
      assert events[..i + 1][..i] == events[..i];
      var ev := events[i];
      if !ev.Announced? {
        continue;
      }
      if ev.a.receiver in m && m[ev.a.receiver].status.RegisteredNow? {
        continue;
      }
      if ev.proof.None? {
        continue;
      }
      m := m[ev.a.receiver := AnnouncedRecord(ev.a, ev.proof.value)];
    }
    assert events[..|events|] == events;
  }

  method MergeEvents(m0: Registry, events: seq<Event>) returns (m: Registry)
    ensures m == MergeAll(m0, events)
  {
    m := m0;
    for i := 0 to |events|
      invariant m == MergeAll(m0, events[..i])
    {
      assert events[..i + 1][..i] == events[..i];
      var ev := events[i];
      if !ev.Registered? {
        continue;
      }
      if ev.g.receiver !in m {
        m := m[ev.g.receiver := RegisteredRecord(ev.g)];
      }
      m := m[ev.g.receiver := m[ev.g.receiver].(status := RegisteredNow, regTx := None)];
    }
    assert events[..|events|] == events;
  }

  class SolanaState {
    var merchantMap: Registry

    constructor ()
      ensures merchantMap == map[]
    {
      merchantMap := map[];
    }

    method RememberSolanaReceiver(rec: Record)
      modifies this
      ensures merchantMap == Remember(old(merchantMap), rec)
    {
      if rec.receiver in merchantMap && merchantMap[rec.receiver].status.RegisteredNow? {
        return;
      }
      var kept := rec;
      if rec.receiver in merchantMap && rec.route.None? {
        kept := rec.(route := merchantMap[rec.receiver].route);
      }
      merchantMap := merchantMap[rec.receiver := kept];
    }

    /** The records found at startup, remembered in whatever order they come. */
    method StartUp(events: seq<Event>)
      requires merchantMap == map[]
      modifies this
      ensures merchantMap == CatchUp(events) && Shaped(merchantMap)
      ensures Orderly(events) ==> Reflects(merchantMap, events)
    {
      var found := AttachRegTxAndMerge(map[], events);
      found := MergeEvents(found, events);
      AttachAdvances(map[], events);
      MergeAdvances(AttachAll(map[], events), events);
      var left := found.Keys;
      while left != {}
        invariant left <= found.Keys
        invariant merchantMap == map r | r in found.Keys - left :: found[r]
        decreases left
      {
        var r :| r in left;
        RememberSolanaReceiver(found[r]);
        left := left - {r};
      }
      if Orderly(events) {
        CatchUpReflects(events);
      }
    }

    /** The registry half of a live tip. */
    method ProcessEvents(events: seq<Event>)
      requires Shaped(merchantMap)
      modifies this
      ensures merchantMap == LiveBatch(old(merchantMap), events)
      ensures Shaped(merchantMap) && Advances(old(merchantMap), merchantMap)
    {
      ghost var was := merchantMap;
      merchantMap := AttachRegTxAndMerge(merchantMap, events);
      ghost var attached := merchantMap;
      AttachAdvances(was, events);
      FollowAdvances(attached, events);
      for i := 0 to |events|
        invariant merchantMap == FollowAll(attached, events[..i])
      {
        assert events[..i + 1][..i] == events[..i];
        if events[i].Registered? {
          RememberSolanaReceiver(RegisteredRecord(events[i].g));
        }
      }
      assert events[..|events|] == events;
    }

    /** A broadcast went through: the receiver counts as registered. */
    method MarkRegistered(receiver: Bytes32)
      requires Shaped(merchantMap)
      modifies this
      ensures Shaped(merchantMap) && Advances(old(merchantMap), merchantMap)
      ensures merchantMap == Mark(old(merchantMap), receiver)
    {
      if receiver in merchantMap {
        merchantMap := merchantMap[receiver := merchantMap[receiver].(status := RegisteredNow, regTx := None)];
      }
    }

    /** Over every run, however batches and broadcasts fall and whatever passes
        validation when: registered stays registered, known routes stay known,
        and a pinned transaction is held exactly while announced. */
    method Run(steps: seq<Step>)
      requires Shaped(merchantMap)
      modifies this
      ensures merchantMap == RunAll(old(merchantMap), steps)
      ensures Shaped(merchantMap) && Advances(old(merchantMap), merchantMap)
    {
      assert steps[..0] == [];
      for i := 0 to |steps|
        invariant merchantMap == RunAll(old(merchantMap), steps[..i])
        invariant Shaped(merchantMap) && Advances(old(merchantMap), merchantMap)
      {
        assert steps[..i + 1][..i] == steps[..i];
        match steps[i]
        case Batch(evs) => ProcessEvents(evs);
        case Broadcast(receiver) => MarkRegistered(receiver);
      }
      assert steps[..|steps|] == steps;
    }
  }
}
