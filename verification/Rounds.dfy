/** Claim rounds: at most so many at once, never two for the same claim, and none
    again for a while after a success. */
module Rounds {
  import opened Wrappers

  /** How many rounds at once, how long one may take, how long a key is remembered. */
  datatype Policy = Policy(permits: nat, timeout: nat, ttl: nat)

  const MAX_CONCURRENT_ROUNDS: nat := 8
  const SECOND: nat := 1_000_000_000   // times are in nanoseconds
  const ROUND_TIMEOUT: nat := 300 * SECOND
  const DEDUPE_TTL: nat := 3600 * SECOND
  const POLICY := Policy(MAX_CONCURRENT_ROUNDS, ROUND_TIMEOUT, DEDUPE_TTL)

  /** When a key was noted, and whether its round had succeeded by then. */
  type Notes = map<string, (nat, bool)>

  function Retain(ttl: nat, m: Notes, now: nat): Notes {
    map k | k in m && now < m[k].0 + ttl :: m[k]
  }

  function TryBegin(ttl: nat, m: Notes, now: nat, key: string): (bool, Notes) {
    var kept := Retain(ttl, m, now);
    if key in kept then (false, kept) else (true, kept[key := (now, false)])
  }

  function Finish(m: Notes, now: nat, key: string, ok: bool): Notes {
    if ok then m[key := (now, true)] else m - {key}
  }

  class Recent {
    var notes: Notes

    constructor ()
      ensures notes == map[]
    {
      notes := map[];
    }

    method TryToBegin(now: nat, key: string) returns (ok: bool)
      modifies this
      ensures (ok, notes) == TryBegin(DEDUPE_TTL, old(notes), now, key)
    {
      notes := Retain(DEDUPE_TTL, notes, now);
      if key in notes {
        return false;
      }
      notes := notes[key := (now, false)];
      return true;
    }

    method Complete(now: nat, key: string, ok: bool)
      modifies this
      ensures notes == Finish(old(notes), now, key, ok)
    {
      if ok {
        notes := notes[key := (now, true)];
      } else {
        notes := notes - {key};
      }
    }
  }

  // ---- all interleavings ---------------------------------------------------------

  datatype Task = Queued(key: string) | Running(key: string, since: nat)

  /** Tasks hold a permit each; `wins` lists every success so far. */
  datatype System = System(now: nat, notes: Notes, tasks: map<nat, Task>, wins: seq<(string, nat)>)

  const INITIAL := System(0, map[], map[], [])

  datatype Step =
    | Pass(time: nat)
    | Accept(id: nat, key: string)
    | Begin(id: nat)
    | End(id: nat, ok: bool)

  /** No round outlives its timeout. */
  predicate WithinTimeout(pol: Policy, tasks: map<nat, Task>, now: nat) {
    forall id :: id in tasks && tasks[id].Running? ==> now <= tasks[id].since + pol.timeout
  }

  /** `None` when the step cannot happen. */
  function Next(pol: Policy, s: System, step: Step): Option<System> {
    match step
    case Pass(time) =>
      if WithinTimeout(pol, s.tasks, s.now + time) then Some(s.(now := s.now + time)) else None
    case Accept(id, key) =>
      if id in s.tasks || |s.tasks| >= pol.permits then None else Some(s.(tasks := s.tasks[id := Queued(key)]))
    case Begin(id) =>
      if id !in s.tasks || !s.tasks[id].Queued? then None
      else
        var key := s.tasks[id].key;
        var (ok, notes) := TryBegin(pol.ttl, s.notes, s.now, key);
        Some(s.(notes := notes, tasks := if ok then s.tasks[id := Running(key, s.now)] else s.tasks - {id}))
    case End(id, ok) =>
      if id !in s.tasks || !s.tasks[id].Running? then None
      else
        var key := s.tasks[id].key;
        Some(s.(notes := Finish(s.notes, s.now, key, ok), tasks := s.tasks - {id},
                wins := if ok then s.wins + [(key, s.now)] else s.wins))
  }

  function Run(pol: Policy, steps: seq<Step>): Option<System> {
    if steps == [] then Some(INITIAL)
    else
      match Run(pol, steps[..|steps| - 1])
      case None => None
      case Some(s) => Next(pol, s, steps[|steps| - 1])
  }

  /** Nobody runs the claim, and its last success is long enough ago. */
  ghost predicate Free(pol: Policy, s: System, key: string) {
    && (forall id :: id in s.tasks && s.tasks[id].Running? ==> s.tasks[id].key != key)
    && (forall i :: 0 <= i < |s.wins| && s.wins[i].0 == key ==> s.wins[i].1 + pol.ttl <= s.now)
  }

  ghost predicate Exclusive(s: System) {
    forall i, j :: i in s.tasks && j in s.tasks && i != j && s.tasks[i].Running? && s.tasks[j].Running? ==>
      s.tasks[i].key != s.tasks[j].key
  }

  /** A running round is noted with its start. */
  ghost predicate RunningNoted(s: System) {
    forall id :: id in s.tasks && s.tasks[id].Running? ==>
      && s.tasks[id].since <= s.now
      && s.tasks[id].key in s.notes && s.notes[s.tasks[id].key] == (s.tasks[id].since, false)
  }

  /** A recent success is noted with its end. */
  ghost predicate WinsNoted(pol: Policy, s: System) {
    forall i :: 0 <= i < |s.wins| && s.now < s.wins[i].1 + pol.ttl ==>
      s.wins[i].0 in s.notes && s.notes[s.wins[i].0] == (s.wins[i].1, true)
  }

  ghost predicate Runs(s: System, k: string, since: nat) {
    exists id :: id in s.tasks && s.tasks[id] == Running(k, since)
  }

  /** Nothing else is noted. */
  ghost predicate NotesTrue(s: System) {
    forall k :: k in s.notes ==>
      if s.notes[k].1 then (k, s.notes[k].0) in s.wins else Runs(s, k, s.notes[k].0)
  }

  ghost predicate Safe(pol: Policy, s: System) {
    && |s.tasks| <= pol.permits && WithinTimeout(pol, s.tasks, s.now) && Exclusive(s)
    && RunningNoted(s) && WinsNoted(pol, s) && NotesTrue(s)
  }

  /** A claim that asks to begin may do so exactly when it is free: duplicates are
      dropped, and a failed round, or one long past, can be repeated at once. */
  lemma BeginsWhenFree(pol: Policy, s: System, key: string)
    requires pol.timeout < pol.ttl && Safe(pol, s)
    ensures TryBegin(pol.ttl, s.notes, s.now, key).0 <==> Free(pol, s, key)
  {
    var kept := Retain(pol.ttl, s.notes, s.now);
    if key in kept && !kept[key].1 {
      var id :| id in s.tasks && s.tasks[id] == Running(key, s.notes[key].0);
    }
    if key in kept && kept[key].1 {
      var i :| 0 <= i < |s.wins| && s.wins[i] == (key, s.notes[key].0);
    }
  }

  /** What goes on running goes on being known. */
  lemma RunsOn(s: System, s': System, k: string, since: nat)
    requires Runs(s, k, since)
    requires forall id :: id in s.tasks && s.tasks[id] == Running(k, since) ==> id in s'.tasks && s'.tasks[id] == s.tasks[id]
    ensures Runs(s', k, since)
  {
    var id :| id in s.tasks && s.tasks[id] == Running(k, since);
    assert id in s'.tasks;
  }

  lemma BeginExact(pol: Policy, s: System, id: nat)
    requires pol.timeout < pol.ttl && Safe(pol, s) && id in s.tasks && s.tasks[id].Queued?
    ensures NotesTrue(Next(pol, s, Begin(id)).value)
  {
    var key := s.tasks[id].key;
    var s' := Next(pol, s, Begin(id)).value;
    forall k | k in s'.notes
      ensures if s'.notes[k].1 then (k, s'.notes[k].0) in s'.wins else Runs(s', k, s'.notes[k].0)
    {
      if k == key && TryBegin(pol.ttl, s.notes, s.now, key).0 {
        assert s'.tasks[id] == Running(k, s'.notes[k].0);
      } else if !s.notes[k].1 {
        RunsOn(s, s', k, s.notes[k].0);
      }
    }
  }

  lemma BeginExcludes(pol: Policy, s: System, id: nat)
    requires pol.timeout < pol.ttl && Safe(pol, s) && id in s.tasks && s.tasks[id].Queued?
    ensures
      var s' := Next(pol, s, Begin(id)).value;
      |s'.tasks| <= pol.permits && WithinTimeout(pol, s'.tasks, s'.now) && Exclusive(s')
  {
    BeginsWhenFree(pol, s, s.tasks[id].key);
  }

  lemma BeginNotes(pol: Policy, s: System, id: nat)
    requires pol.timeout < pol.ttl && Safe(pol, s) && id in s.tasks && s.tasks[id].Queued?
    ensures
      var s' := Next(pol, s, Begin(id)).value;
      RunningNoted(s') && WinsNoted(pol, s')
  {
    BeginsWhenFree(pol, s, s.tasks[id].key);
  }

  lemma BeginSafe(pol: Policy, s: System, id: nat)
    requires pol.timeout < pol.ttl && Safe(pol, s) && id in s.tasks && s.tasks[id].Queued?
    ensures Safe(pol, Next(pol, s, Begin(id)).value)
  {
    BeginExcludes(pol, s, id);
    BeginNotes(pol, s, id);
    BeginExact(pol, s, id);
  }

  /** A round that ends leaves no trace but, if it succeeded, its success. */
  lemma EndExact(pol: Policy, s: System, id: nat, ok: bool)
    requires Safe(pol, s) && id in s.tasks && s.tasks[id].Running?
    ensures NotesTrue(Next(pol, s, End(id, ok)).value)
  {
    var key := s.tasks[id].key;
    var s' := Next(pol, s, End(id, ok)).value;
    forall k | k in s'.notes
      ensures if s'.notes[k].1 then (k, s'.notes[k].0) in s'.wins else Runs(s', k, s'.notes[k].0)
    {
      if k == key {
        assert s'.wins[|s.wins|] == (k, s.now);
      } else if !s.notes[k].1 {
        RunsOn(s, s', k, s.notes[k].0);
      }
    }
  }

  lemma EndWins(pol: Policy, s: System, id: nat, ok: bool)
    requires Safe(pol, s) && id in s.tasks && s.tasks[id].Running?
    ensures WinsNoted(pol, Next(pol, s, End(id, ok)).value)
  {
    var key := s.tasks[id].key;
    assert forall i :: 0 <= i < |s.wins| && s.now < s.wins[i].1 + pol.ttl ==> s.wins[i].0 != key;
  }

  lemma EndSafe(pol: Policy, s: System, id: nat, ok: bool)
    requires Safe(pol, s) && id in s.tasks && s.tasks[id].Running?
    ensures Safe(pol, Next(pol, s, End(id, ok)).value)
  {
    EndExact(pol, s, id, ok);
    EndWins(pol, s, id, ok);
  }

  lemma OtherSafe(pol: Policy, s: System, step: Step)
    requires Safe(pol, s) && Next(pol, s, step).Some? && (step.Pass? || step.Accept?)
    ensures Safe(pol, Next(pol, s, step).value)
  {
    var s' := Next(pol, s, step).value;
    forall k | k in s'.notes && !s'.notes[k].1 ensures Runs(s', k, s'.notes[k].0) {
      RunsOn(s, s', k, s.notes[k].0);
    }
  }

  lemma NextSafe(pol: Policy, s: System, step: Step)
    requires pol.timeout < pol.ttl && Safe(pol, s) && Next(pol, s, step).Some?
    ensures Safe(pol, Next(pol, s, step).value)
  {
    match step
    case Begin(id) => BeginSafe(pol, s, id);
    case End(id, ok) => EndSafe(pol, s, id, ok);
    case Pass(_) => OtherSafe(pol, s, step);
    case Accept(_, _) => OtherSafe(pol, s, step);
  }

  /** In every interleaving: never more rounds than permits, never two of one
      claim, and the notes tell exactly who may begin. */
  lemma {:induction false} EveryRunSafe(pol: Policy, steps: seq<Step>)
    requires pol.timeout < pol.ttl && Run(pol, steps).Some?
    ensures Safe(pol, Run(pol, steps).value)
  {
    if steps != [] {
      var before := steps[..|steps| - 1];
      EveryRunSafe(pol, before);
      NextSafe(pol, Run(pol, before).value, steps[|steps| - 1]);
    }
  }

  /** A round that starts in any run: its claim is running nowhere else, and no
      success of it is less than an hour old. */
  lemma StartsApart(steps: seq<Step>, id: nat)
    requires Run(POLICY, steps).Some? && id in Run(POLICY, steps).value.tasks
    requires Run(POLICY, steps).value.tasks[id].Queued?
    ensures
      var s := Run(POLICY, steps).value;
      var s' := Next(POLICY, s, Begin(id)).value;
      && |s'.tasks| <= 8
      && (id in s'.tasks <==> Free(POLICY, s, s.tasks[id].key))
      && (id in s'.tasks ==>
           forall i :: 0 <= i < |s'.wins| && s'.wins[i].0 == s'.tasks[id].key ==>
             s'.wins[i].1 + 3600 * SECOND <= s'.now)
  {
    var s := Run(POLICY, steps).value;
    EveryRunSafe(POLICY, steps);
    BeginsWhenFree(POLICY, s, s.tasks[id].key);
    BeginSafe(POLICY, s, id);
  }

  /** Why the two constants must be in this order: when a round may outlive its
      note, the note is dropped while it runs and a second round gets in. */
  lemma Overlap(pol: Policy, key: string) returns (steps: seq<Step>)
    requires pol.timeout >= pol.ttl && pol.permits >= 2
    ensures Run(pol, steps).Some? && !Exclusive(Run(pol, steps).value)
  {
    var s2 := FirstBegins(pol, key);
    steps := [Accept(0, key)] + [Begin(0)];
    var s3 := s2.(tasks := s2.tasks[1 := Queued(key)]);
    RunNext(pol, steps, Accept(1, key), s2);
    steps := steps + [Accept(1, key)];
    var s4 := s3.(now := pol.ttl);
    RunNext(pol, steps, Pass(pol.ttl), s3);
    steps := steps + [Pass(pol.ttl)];
    RunNext(pol, steps, Begin(1), s4);
    SecondBegins(pol, key, s4);
    steps := steps + [Begin(1)];
  }

  lemma RunNext(pol: Policy, steps: seq<Step>, step: Step, s: System)
    requires Run(pol, steps) == Some(s)
    ensures Run(pol, steps + [step]) == Next(pol, s, step)
  {
    assert (steps + [step])[..|steps|] == steps;
  }

  lemma FirstBegins(pol: Policy, key: string) returns (s: System)
    requires pol.permits >= 2
    ensures Run(pol, [Accept(0, key)] + [Begin(0)]) == Some(s)
    ensures s.tasks == map[0 := Running(key, 0)] && s.notes == map[key := (0, false)] && s.now == 0
  {
    var queued := INITIAL.(tasks := map[0 := Queued(key)]);
    RunNext(pol, [], Accept(0, key), INITIAL);
    assert [] + [Accept(0, key)] == [Accept(0, key)];
    RunNext(pol, [Accept(0, key)], Begin(0), queued);
    s := Next(pol, queued, Begin(0)).value;
  }

  /** The note is too old to be seen. */
  lemma SecondBegins(pol: Policy, key: string, s: System)
    requires s.tasks == map[0 := Running(key, 0), 1 := Queued(key)]
    requires s.notes == map[key := (0, false)] && s.now == pol.ttl
    ensures Next(pol, s, Begin(1)).Some? && !Exclusive(Next(pol, s, Begin(1)).value)
  {
    assert Retain(pol.ttl, s.notes, s.now) == map[];
    var t := Next(pol, s, Begin(1)).value;
    assert t.tasks[0] == Running(key, 0) && t.tasks[1] == Running(key, pol.ttl);
  }

  /** With room for two rounds, exclusion holds in every run exactly when a round
      is given less time than its note. */
  lemma ExclusiveIff(pol: Policy)
    requires pol.permits >= 2
    ensures (forall steps :: Run(pol, steps).Some? ==> Exclusive(Run(pol, steps).value)) <==> pol.timeout < pol.ttl
  {
    if pol.timeout < pol.ttl {
      forall steps | Run(pol, steps).Some? ensures Exclusive(Run(pol, steps).value) {
        EveryRunSafe(pol, steps);
      }
    } else {
      var steps := Overlap(pol, "");
    }
  }
}
