/** The block source and the scanner that walks it.
    An `Env` is everything the process does not control: what the chain holds
    at every moment, what the Portal answers to every request, when the disk
    refuses a write and when the process is killed. Statements are made for
    every `Env` that is `Sane`. */
module Portal {
  import opened Wrappers
  import opened Positional
  import opened Hex
  import opened Scanning
  import LogCache

  const MIN_BLOCKS_PER_REQUEST: nat := 1_000
  const MAX_BLOCKS_PER_REQUEST: nat := 2_000
  const DEPOSIT_MAX_BLOCKS_PER_REQUEST: nat := 20_000
  const REGISTRY_CHUNK_BLOCKS: nat := 200_000
  const GROW_AFTER_CONSECUTIVE_SUCCESSES: nat := 5
  const REORG_SAFETY_BLOCKS: nat := 128

  // ---- logs and filters ----------------------------------------------------

  datatype Log = Log(address: Address, topics: seq<seq<byte>>, data: seq<byte>, txHash: seq<byte>)

  /** One filter object: values inside a field are alternatives, an empty field
      asks for nothing. */
  datatype LogFilter = LogFilter(address: set<Address>, topic0: set<seq<byte>>, topic2: set<seq<byte>>) {
    predicate Selects(log: Log) {
      && (address == {} || log.address in address)
      && (topic0 == {} || (|log.topics| > 0 && log.topics[0] in topic0))
      && (topic2 == {} || (|log.topics| > 2 && log.topics[2] in topic2))
    }

    /** The matching logs, in order. */
    function Pick(logs: seq<Log>): seq<Log> {
      if logs == [] then []
      else
        var rest := Pick(logs[..|logs| - 1]);
        if Selects(logs[|logs| - 1]) then rest + [logs[|logs| - 1]] else rest
    }
  }

  // ---- the environment -----------------------------------------------------

  datatype Line = BlockLine(number: nat, logs: seq<Log>) | Undecodable

  datatype Answer =
    | Timeout                    // no connection, or no answer in time
    | SendError                  // any other transport error
    | Throttled                  // rate limited or unavailable
    | Refused                    // every other error status
    | NoContent
    | Lines(lines: seq<Line>)

  /** Time is a step counter. A request the tables say nothing about meets
      silence, and a block they say nothing about holds no logs. */
  datatype Env = Env(
    blocks: imap<(nat, nat), seq<Log>>,                    // at a time, of a block
    heads: imap<nat, nat>,                                 // highest block seen up to a time
    answers: imap<(nat, LogFilter, nat, nat), Answer>,     // at a time, to a request
    diskFull: iset<nat>,                                   // when writes fail
    killed: iset<nat>,                                     // when the process is gone
    retries: imap<nat, nat>                                // retryable answers still to come
  ) {
    function Logs(time: nat, block: nat): seq<Log> {
      if (time, block) in blocks then blocks[(time, block)] else []
    }

    function Head(time: nat): nat {
      if time in heads then heads[time] else 0
    }

    function Answer(time: nat, f: LogFilter, lo: nat, hi: nat): Answer {
      if (time, f, lo, hi) in answers then answers[(time, f, lo, hi)] else NoContent
    }

    function RetriesLeft(time: nat): nat {
      if time in retries then retries[time] else 0
    }
  }

  predicate Retryable(a: Answer) {
    a.Timeout? || a.Throttled?
  }

  /** Answers that end a scan early without an error. */
  predicate Silent(a: Answer) {
    a.NoContent? || (a.Lines? && a.lines == [])
  }

  /** Answers that fail the scan: neither a retry nor a readable body. */
  ghost predicate Unusable(a: Answer) {
    a.SendError? || a.Refused? || (a.Lines? && a.lines != [] && !AllBlocks(a.lines))
  }

  ghost predicate AllBlocks(lines: seq<Line>) {
    forall i :: 0 <= i < |lines| ==> lines[i].BlockLine?
  }

  /** The first block line `i` answers for: the one after the line before it. */
  ghost function FirstOf(lo: nat, lines: seq<Line>, i: nat): nat
    requires i <= |lines| && AllBlocks(lines)
  {
    if i == 0 then lo else lines[i - 1].number + 1
  }

  /** Line `i` carries the matching logs of its block, and the blocks between it
      and the line before it match nothing. */
  ghost predicate Exact(env: Env, time: nat, f: LogFilter, lo: nat, lines: seq<Line>, i: nat)
    requires i < |lines| && AllBlocks(lines)
  {
    var b := lines[i].number;
    && FirstOf(lo, lines, i) <= b
    && lines[i].logs == f.Pick(env.Logs(time, b))
    && forall c :: FirstOf(lo, lines, i) <= c < b ==> f.Pick(env.Logs(time, c)) == []
  }

  /** An honest body: the exact matching blocks of a prefix `lo..=last` of the
      request, ascending, as the chain stands; the last line is block `last`. */
  ghost predicate Covers(env: Env, time: nat, f: LogFilter, lo: nat, hi: nat, lines: seq<Line>)
    requires lines != [] && AllBlocks(lines)
  {
    var last := lines[|lines| - 1].number;
    && last <= hi && last <= env.Head(time)
    && forall i :: 0 <= i < |lines| ==> Exact(env, time, f, lo, lines, i)
  }

  /** Between two moments: heads only rise, retryable answers run out, and a
      reorganisation only touches blocks above the safety margin. */
  ghost predicate Calm(env: Env, t: nat, t': nat) {
    && env.RetriesLeft(t') <= env.RetriesLeft(t)
    && env.Head(t) <= env.Head(t') < LogCache.U64_END
    && forall b: nat :: b + REORG_SAFETY_BLOCKS <= env.Head(t) ==> env.Logs(t, b) == env.Logs(t', b)
  }

  /** Honest answers to every request, over a chain that moves as chains do. */
  ghost predicate Sane(env: Env) {
    && (forall t: nat, f, lo: nat, hi: nat {:trigger Honest(env, t, f, lo, hi)} :: lo <= hi ==> Honest(env, t, f, lo, hi))
    && (forall t: nat, t': nat {:trigger Calm(env, t, t')} :: t <= t' ==> Calm(env, t, t'))
  }

  ghost predicate Honest(env: Env, t: nat, f: LogFilter, lo: nat, hi: nat) {
    var a := env.Answer(t, f, lo, hi);
    && (a.Lines? && a.lines != [] && AllBlocks(a.lines) ==> Covers(env, t, f, lo, hi, a.lines))
    && (Retryable(a) ==> env.RetriesLeft(t + 1) < env.RetriesLeft(t))
  }

  // ---- what a scan saw -----------------------------------------------------

  /** How one block was looked at: when, and through which filter. */
  datatype Look = Look(time: nat, filter: LogFilter)

  datatype Sighting = Sighting(block: nat, log: Log)

  function Tag(block: nat, logs: seq<Log>): seq<Sighting> {
    if logs == [] then []
    else Tag(block, logs[..|logs| - 1]) + [Sighting(block, logs[|logs| - 1])]
  }

  /** What looking at a block shows. */
  ghost function Eye(env: Env): (nat, Look) -> seq<Sighting> {
    (block: nat, look: Look) => Tag(block, look.filter.Pick(env.Logs(look.time, block)))
  }

  /** A look shows nothing exactly when nothing matches. */
  lemma QuietLook(env: Env, block: nat, look: Look)
    ensures Eye(env)(block, look) == [] <==> look.filter.Pick(env.Logs(look.time, block)) == []
  {
  }

  /** The lines handed to `on_block`, flattened. */
  function Handed(lines: seq<Line>): seq<Sighting> {
    if lines == [] then []
    else
      var l := lines[|lines| - 1];
      Handed(lines[..|lines| - 1]) + if l.BlockLine? then Tag(l.number, l.logs) else []
  }

  lemma HandedNext(lines: seq<Line>, k: nat)
    requires k < |lines| && lines[k].BlockLine?
    ensures Handed(lines[..k + 1]) == Handed(lines[..k]) + Tag(lines[k].number, lines[k].logs)
  {
    assert lines[..k + 1][..k] == lines[..k];
  }

  /** The first `n` lines, handed over, are the scan of the blocks before line `n`. */
  ghost predicate ScannedBy(env: Env, look: Look, lo: nat, lines: seq<Line>, n: nat)
    requires n <= |lines| && AllBlocks(lines)
  {
    var end := FirstOf(lo, lines, n);
    && lo <= end && (n > 0 ==> lo < end)
    && Handed(lines[..n]) == Scan(Eye(env), lo, Steady(look, end - lo))
  }

  lemma HonestLine(env: Env, time: nat, f: LogFilter, lo: nat, lines: seq<Line>, k: nat)
    requires k < |lines| && AllBlocks(lines) && Exact(env, time, f, lo, lines, k)
    requires ScannedBy(env, Look(time, f), lo, lines, k)
    ensures ScannedBy(env, Look(time, f), lo, lines, k + 1)
  {
    LineStep(env, Look(time, f), lo, FirstOf(lo, lines, k), lines[k].number);
    HandedNext(lines, k);
    assert FirstOf(lo, lines, k + 1) == lines[k].number + 1;
  }

  ghost predicate AllExact(env: Env, time: nat, f: LogFilter, lo: nat, lines: seq<Line>)
    requires AllBlocks(lines)
  {
    forall i :: 0 <= i < |lines| ==> Exact(env, time, f, lo, lines, i)
  }

  /** Handing over the lines of an honest body is scanning the blocks it covers. */
  lemma {:induction false} HonestBody(env: Env, time: nat, f: LogFilter, lo: nat, lines: seq<Line>, n: nat)
    requires n <= |lines| && AllBlocks(lines) && AllExact(env, time, f, lo, lines)
    ensures ScannedBy(env, Look(time, f), lo, lines, n)
  {
    if n > 0 {
      HonestBody(env, time, f, lo, lines, n - 1);
      HonestLine(env, time, f, lo, lines, n - 1);
    } else {
      assert lines[..0] == [] && Steady(Look(time, f), 0) == [];
    }
  }

  /** The quiet blocks before a line, then its own block. */
  lemma LineStep(env: Env, look: Look, lo: nat, first: nat, b: nat)
    requires lo <= first <= b
    requires forall c :: first <= c < b ==> look.filter.Pick(env.Logs(look.time, c)) == []
    ensures Scan(Eye(env), lo, Steady(look, b + 1 - lo))
      == Scan(Eye(env), lo, Steady(look, first - lo)) + Tag(b, look.filter.Pick(env.Logs(look.time, b)))
  {
    forall c | first <= c < b ensures Eye(env)(c, look) == [] {
      QuietLook(env, c, look);
    }
    ScanGap(Eye(env), lo, look, first, b);
  }

  // ---- stream_logs ---------------------------------------------------------

  datatype Outcome = Streamed(last: Option<nat>) | Failed | Killed

  datatype Request = Request(time: nat, lo: nat, hi: nat, window: nat)

  function Shrink(window: nat): nat {
    LogCache.Max(window / 2, MIN_BLOCKS_PER_REQUEST)
  }

  function Grow(window: nat, maxWindow: nat): nat {
    LogCache.Min(window * 2, maxWindow)
  }

  /** A request stays inside the scan and its window inside its bounds. */
  ghost predicate InWindow(q: Request, to: nat, maxWindow: nat) {
    && MIN_BLOCKS_PER_REQUEST <= q.window <= maxWindow
    && q.lo <= q.hi == LogCache.Min(q.lo + q.window - 1, to)
  }

  /** The request a scan makes next. */
  function NextRequest(p: Progress, to: nat): Request
    requires p.window > 0
  {
    Request(p.now, p.cursor, LogCache.Min(p.cursor + p.window - 1, to), p.window)
  }

  /** A request for the blocks from `lo` on that brought nothing. */
  ghost predicate Unanswered(env: Env, f: LogFilter, q: Request, lo: nat) {
    q.lo == lo && Silent(env.Answer(q.time, f, q.lo, q.hi))
  }

  /** Between two moments the Portal had nothing to show from block `next` on. */
  ghost predicate Behind(env: Env, f: LogFilter, next: nat, t0: nat, t1: nat) {
    exists q: Request :: t0 <= q.time < t1 && Unanswered(env, f, q, next)
  }

  /** A scan of `n` blocks from `from` got to block `to`, unless there was nothing
      more to see. */
  ghost predicate GotTo(env: Env, f: LogFilter, from: nat, n: nat, to: nat, t0: nat, t1: nat) {
    from + n <= to ==> Behind(env, f, from + n, t0, t1)
  }

  /** A reason to give up: the process is gone, an answer is of no use, or, where
      the checkpoint must be written, the disk refuses writes. */
  ghost predicate Hitch(env: Env, f: LogFilter, writes: bool, q: Request) {
    q.time in env.killed || (writes && q.time in env.diskFull) || Unusable(env.Answer(q.time, f, q.lo, q.hi))
  }

  ghost predicate Trouble(env: Env, f: LogFilter, writes: bool, t0: nat, t1: nat) {
    exists q: Request :: t0 <= q.time <= t1 && Hitch(env, f, writes, q)
  }

  lemma TroubleAt(env: Env, f: LogFilter, writes: bool, q: Request, t0: nat, t1: nat)
    requires t0 <= q.time <= t1 && Hitch(env, f, writes, q)
    ensures Trouble(env, f, writes, t0, t1)
  {
  }

  lemma TroubleWider(env: Env, f: LogFilter, writes: bool, t0: nat, t1: nat, t0': nat, t1': nat)
    requires Trouble(env, f, writes, t0, t1) && t0' <= t0 && t1 <= t1'
    ensures Trouble(env, f, writes, t0', t1')
  {
    var q: Request :| t0 <= q.time <= t1 && Hitch(env, f, writes, q);
    TroubleAt(env, f, writes, q, t0', t1');
  }

  /** Trouble that has nothing to do with the disk. */
  lemma TroubleAnyway(env: Env, f: LogFilter, t0: nat, t1: nat)
    requires Trouble(env, f, false, t0, t1)
    ensures Trouble(env, f, true, t0, t1)
  {
    var q: Request :| t0 <= q.time <= t1 && Hitch(env, f, false, q);
    TroubleAt(env, f, true, q, t0, t1);
  }

  /** Without a process or a disk, every scan has a reason to give up. */
  lemma TroubleNow(env: Env, f: LogFilter, writes: bool, t0: nat, t: nat)
    requires t0 <= t && (t in env.killed || (writes && t in env.diskFull))
    ensures Trouble(env, f, writes, t0, t)
  {
    TroubleAt(env, f, writes, Request(t, 0, 0, 0), t0, t);
  }

  /** Every block of a scan was looked at through `f`, between two moments. */
  ghost predicate LookedBetween(looks: seq<Look>, f: LogFilter, t0: nat, t1: nat) {
    forall i :: 0 <= i < |looks| ==> looks[i].filter == f && t0 <= looks[i].time < t1
  }

  /** ... and no block before the chain had got that far. */
  ghost predicate Existed(env: Env, lo: nat, looks: seq<Look>) {
    forall i :: 0 <= i < |looks| ==> lo + i <= env.Head(looks[i].time)
  }

  ghost predicate Looked(env: Env, lo: nat, looks: seq<Look>, f: LogFilter, t0: nat, t1: nat) {
    LookedBetween(looks, f, t0, t1) && Existed(env, lo, looks)
  }

  lemma LookedJoin(env: Env, lo: nat, a: seq<Look>, mid: nat, b: seq<Look>, f: LogFilter, t0: nat, t1: nat, t2: nat)
    requires Looked(env, lo, a, f, t0, t1) && Looked(env, mid, b, f, t1, t2) && mid == lo + |a| && t0 <= t1 <= t2
    ensures Looked(env, lo, a + b, f, t0, t2)
  {
  }

  lemma LookedWider(env: Env, lo: nat, looks: seq<Look>, f: LogFilter, t0: nat, t1: nat, t0': nat, t1': nat)
    requires Looked(env, lo, looks, f, t0, t1) && t0' <= t0 && t1 <= t1'
    ensures Looked(env, lo, looks, f, t0', t1')
  {
  }

  /** The last block a scan reports: the last one it saw, or where its saved
      checkpoint already stood. */
  ghost function Reached(from: nat, looks: seq<Look>, persist: bool, saved: Option<nat>): Option<nat> {
    if looks != [] then Some(from + |looks| - 1)
    else if persist then saved
    else None
  }

  /** The checkpoints once block `next - 1` is marked scanned. */
  ghost function Written(saved: map<string, nat>, scanId: string, persist: bool, next: nat): map<string, nat> {
    if persist && next > 0 then saved[scanId := next - 1] else saved
  }

  /** The checkpoints after `n` blocks from `from` on were scanned. */
  ghost function Marked(saved: map<string, nat>, scanId: string, persist: bool, from: nat, n: nat): map<string, nat> {
    if n > 0 then Written(saved, scanId, persist, from + n) else saved
  }

  lemma MarkedAgain(saved: map<string, nat>, scanId: string, persist: bool, from: nat, n: nat, m: nat)
    requires n < m
    ensures Written(Marked(saved, scanId, persist, from, n), scanId, persist, from + m) == Marked(saved, scanId, persist, from, m)
  {
  }

  /** What one request comes to. */
  datatype Reply =
    | Slow                                             // ask again, for less
    | Busy                                             // ask again
    | Broken                                           // give up
    | Empty                                            // nothing there yet
    | Batch(found: seq<Sighting>, last: nat)

  /** Hands every line of a body to `on_block`; an undecodable line is an error. */
  method HandOver(lines: seq<Line>) returns (ok: bool, found: seq<Sighting>)
    ensures ok <==> AllBlocks(lines)
    ensures ok ==> found == Handed(lines)
  {
    ok, found := true, [];
    for i := 0 to |lines|
      invariant ok && AllBlocks(lines[..i]) && found == Handed(lines[..i])
    {
      if lines[i].Undecodable? {
        return false, [];
      }
      assert lines[..i + 1][..i] == lines[..i];
      found := found + Tag(lines[i].number, lines[i].logs);
    }
    assert lines[..|lines|] == lines;
  }

  /** A batch is exactly the scan of the blocks it covers. */
  ghost predicate TrueBatch(env: Env, q: Request, f: LogFilter, found: seq<Sighting>, more: seq<Look>) {
    && 0 < |more| <= q.hi + 1 - q.lo
    && Looked(env, q.lo, more, f, q.time, q.time + 1)
    && found == Scan(Eye(env), q.lo, more)
  }

  lemma SteadyLooked(env: Env, lo: nat, f: LogFilter, t: nat, n: nat)
    requires n > 0 ==> lo + n - 1 <= env.Head(t)
    ensures Looked(env, lo, Steady(Look(t, f), n), f, t, t + 1)
  {
  }

  lemma BodyScanned(env: Env, t: nat, f: LogFilter, lo: nat, lines: seq<Line>)
    requires lines != [] && AllBlocks(lines) && AllExact(env, t, f, lo, lines)
    ensures lo <= lines[|lines| - 1].number
    ensures Handed(lines) == Scan(Eye(env), lo, Steady(Look(t, f), lines[|lines| - 1].number + 1 - lo))
  {
    HonestBody(env, t, f, lo, lines, |lines|);
    assert lines[..|lines|] == lines;
  }

  lemma BodyIsBatch(env: Env, q: Request, f: LogFilter, lines: seq<Line>)
    requires q.lo <= q.hi && lines != [] && AllBlocks(lines) && Covers(env, q.time, f, q.lo, q.hi, lines)
    ensures q.lo <= lines[|lines| - 1].number
    ensures TrueBatch(env, q, f, Handed(lines), Steady(Look(q.time, f), lines[|lines| - 1].number + 1 - q.lo))
  {
    CoversExact(env, q.time, f, q.lo, q.hi, lines);
    BodyScanned(env, q.time, f, q.lo, lines);
    SteadyLooked(env, q.lo, f, q.time, lines[|lines| - 1].number + 1 - q.lo);
  }

  lemma CoversExact(env: Env, t: nat, f: LogFilter, lo: nat, hi: nat, lines: seq<Line>)
    requires lines != [] && AllBlocks(lines) && Covers(env, t, f, lo, hi, lines)
    ensures AllExact(env, t, f, lo, lines)
    ensures lines[|lines| - 1].number <= hi && lines[|lines| - 1].number <= env.Head(t)
  {
  }

  /** A body of blocks, of which `last` is the last. */
  ghost predicate BodyUpTo(a: Answer, last: nat) {
    a.Lines? && a.lines != [] && AllBlocks(a.lines) && a.lines[|a.lines| - 1].number == last
  }

  method Ask(env: Env, q: Request, f: LogFilter) returns (r: Reply, ghost more: seq<Look>)
    requires Sane(env) && q.lo <= q.hi
    ensures r.Batch? ==> TrueBatch(env, q, f, r.found, more) && r.last == q.lo + |more| - 1
    ensures r.Batch? ==> BodyUpTo(env.Answer(q.time, f, q.lo, q.hi), r.last)
    ensures r.Empty? <==> Silent(env.Answer(q.time, f, q.lo, q.hi))
    ensures r.Slow? <==> env.Answer(q.time, f, q.lo, q.hi).Timeout?
    ensures r.Busy? <==> env.Answer(q.time, f, q.lo, q.hi).Throttled?
    ensures r.Broken? <==> Unusable(env.Answer(q.time, f, q.lo, q.hi))
    ensures r.Slow? || r.Busy? ==> env.RetriesLeft(q.time + 1) < env.RetriesLeft(q.time)
  {
    var answer := env.Answer(q.time, f, q.lo, q.hi);
    assert Honest(env, q.time, f, q.lo, q.hi);
    match answer
    case Timeout => return Slow, [];
    case SendError => return Broken, [];
    case Throttled => return Busy, [];
    case Refused => return Broken, [];
    case NoContent => return Empty, [];
    case Lines(lines) =>
      if lines == [] {
        return Empty, [];
      }
      var ok, found := HandOver(lines);
      if !ok {
        return Broken, [];
      }
      BodyIsBatch(env, q, f, lines);
      var last := lines[|lines| - 1].number;
      return Batch(found, last), Steady(Look(q.time, f), last + 1 - q.lo);
  }

  /** The window after a batch: doubled after enough of them in a row. */
  method AfterSuccess(window: nat, successes: nat, maxWindow: nat) returns (window': nat, successes': nat)
    requires MIN_BLOCKS_PER_REQUEST <= window <= maxWindow
    ensures MIN_BLOCKS_PER_REQUEST <= window' <= maxWindow
    ensures Succeeded(window, successes, maxWindow, window', successes')
  {
    window', successes' := window, successes;
    if window < maxWindow {
      successes' := successes + 1;
      if successes' >= GROW_AFTER_CONSECUTIVE_SUCCESSES {
        window' := Grow(window, maxWindow);
        successes' := 0;
      }
    }
  }

  // ---- pacing ----------------------------------------------------------------

  /** How many batches in a row, up to the last request, came at this window. */
  ghost function InARow(env: Env, f: LogFilter, asked: seq<Request>, window: nat): nat {
    if asked == [] then 0
    else
      var q := asked[|asked| - 1];
      var answer := env.Answer(q.time, f, q.lo, q.hi);
      if q.window != window || answer.Timeout? then 0
      else InARow(env, f, asked[..|asked| - 1], window) + if answer.Throttled? then 0 else 1
  }

  /** What the last request calls for next: the same blocks in a window half as
      large after a timeout, the very same after a refusal, and the blocks behind
      a batch, in a window twice as large once five batches in a row came at one
      below the bound. */
  ghost predicate Follows(env: Env, f: LogFilter, maxWindow: nat, asked: seq<Request>, lo: nat, window: nat)
    requires asked != []
  {
    var q := asked[|asked| - 1];
    var answer := env.Answer(q.time, f, q.lo, q.hi);
    if answer.Timeout? then
      lo == q.lo && window == if q.window < 2 * MIN_BLOCKS_PER_REQUEST then MIN_BLOCKS_PER_REQUEST else q.window / 2
    else if answer.Throttled? then
      lo == q.lo && window == q.window
    else
      && lo > 0 && BodyUpTo(answer, lo - 1)
      && window ==
         if q.window < maxWindow && InARow(env, f, asked, q.window) == GROW_AFTER_CONSECUTIVE_SUCCESSES
         then (if 2 * q.window < maxWindow then 2 * q.window else maxWindow)
         else q.window
  }

  /** Every request of a scan is the one its history calls for. */
  ghost predicate Paced(env: Env, f: LogFilter, from: nat, maxWindow: nat, asked: seq<Request>) {
    && (asked != [] ==> asked[0].lo == from && asked[0].window == maxWindow)
    && forall i :: 0 < i < |asked| ==> PacedAt(env, f, maxWindow, asked, i)
  }

  ghost predicate PacedAt(env: Env, f: LogFilter, maxWindow: nat, asked: seq<Request>, i: nat)
    requires 0 < i < |asked|
  {
    asked[i - 1].time < asked[i].time && Follows(env, f, maxWindow, asked[..i], asked[i].lo, asked[i].window)
  }

  /** The request that a history calls for. */
  ghost predicate CalledFor(env: Env, f: LogFilter, from: nat, maxWindow: nat, asked: seq<Request>, q: Request) {
    if asked == [] then q.lo == from && q.window == maxWindow
    else asked[|asked| - 1].time < q.time && Follows(env, f, maxWindow, asked, q.lo, q.window)
  }

  lemma PacedNext(env: Env, f: LogFilter, from: nat, maxWindow: nat, asked: seq<Request>, q: Request)
    requires Paced(env, f, from, maxWindow, asked) && CalledFor(env, f, from, maxWindow, asked, q)
    ensures Paced(env, f, from, maxWindow, asked + [q])
  {
    var longer := asked + [q];
    forall i | 0 < i < |longer| ensures PacedAt(env, f, maxWindow, longer, i) {
      assert longer[..i] == asked[..i];
      assert asked[..|asked|] == asked;
      assert i < |asked| ==> PacedAt(env, f, maxWindow, asked, i);
    }
  }

  /** Where a scan stands between two requests. */
  datatype Progress = Progress(cursor: nat, window: nat, successes: nat, now: nat, found: seq<Sighting>)

  datatype Task = Task(from: nat, to: nat, filter: LogFilter, maxWindow: nat, start: nat)

  /** What holds there: everything before the cursor was seen, and nothing else. */
  ghost predicate OnTrack(env: Env, task: Task, p: Progress, looks: seq<Look>) {
    && task.from <= p.cursor == task.from + |looks| <= task.to + 1
    && MIN_BLOCKS_PER_REQUEST <= p.window <= task.maxWindow
    && task.start <= p.now && Looked(env, task.from, looks, task.filter, task.start, p.now)
    && p.found == Scan(Eye(env), task.from, looks)
  }

  /** The scan stands where its history calls for it to stand. */
  ghost predicate OnPace(env: Env, task: Task, p: Progress, asked: seq<Request>) {
    && p.window > 0 && CalledFor(env, task.filter, task.from, task.maxWindow, asked, NextRequest(p, task.to))
    && p.successes == (if p.window < task.maxWindow then InARow(env, task.filter, asked, p.window) else 0)
    && p.successes < GROW_AFTER_CONSECUTIVE_SUCCESSES
  }

  /** Between two turns: what the answer to `q` does to the window. */
  ghost predicate Turned(env: Env, task: Task, p: Progress, q: Request, p': Progress) {
    var answer := env.Answer(q.time, task.filter, q.lo, q.hi);
    && p.now < p'.now && p'.window <= task.maxWindow
    && if answer.Timeout? || answer.Throttled? then p' == Backoff(p, if answer.Timeout? then Slow else Busy)
       else
         && p'.cursor > 0 && BodyUpTo(answer, p'.cursor - 1)
         && Succeeded(p.window, p.successes, task.maxWindow, p'.window, p'.successes)
  }

  ghost predicate Succeeded(window: nat, successes: nat, maxWindow: nat, window': nat, successes': nat) {
    if window >= maxWindow then window' == window && successes' == successes
    else if successes + 1 < GROW_AFTER_CONSECUTIVE_SUCCESSES then window' == window && successes' == successes + 1
    else window' == Grow(window, maxWindow) && successes' == 0
  }

  lemma TurnedOnPace(env: Env, task: Task, p: Progress, asked: seq<Request>, q: Request, p': Progress)
    requires MIN_BLOCKS_PER_REQUEST <= p.window <= task.maxWindow
    requires OnPace(env, task, p, asked) && q == NextRequest(p, task.to) && Turned(env, task, p, q, p')
    requires MIN_BLOCKS_PER_REQUEST <= p'.window <= task.maxWindow
    ensures OnPace(env, task, p', asked + [q])
  {
    var longer := asked + [q];
    assert longer[..|longer| - 1] == asked && longer[|longer| - 1] == q;
  }

  lemma OnTrackLater(env: Env, task: Task, p: Progress, looks: seq<Look>, p': Progress)
    requires OnTrack(env, task, p, looks)
    requires p'.cursor == p.cursor && p'.found == p.found && p'.now >= p.now
    requires MIN_BLOCKS_PER_REQUEST <= p'.window <= task.maxWindow
    ensures OnTrack(env, task, p', looks)
  {
  }

  /** What a request that brought no batch does to the progress. */
  function Backoff(p: Progress, reply: Reply): Progress {
    if reply.Slow? then p.(window := Shrink(p.window), successes := 0, now := p.now + 1) else p.(now := p.now + 1)
  }

  lemma BackoffTrack(env: Env, task: Task, p: Progress, looks: seq<Look>, q: Request, reply: Reply, writes: bool)
    requires OnTrack(env, task, p, looks) && q.time == p.now && q.lo == p.cursor
    requires reply.Empty? ==> Silent(env.Answer(q.time, task.filter, q.lo, q.hi))
    requires reply.Broken? ==> Unusable(env.Answer(q.time, task.filter, q.lo, q.hi))
    ensures OnTrack(env, task, Backoff(p, reply), looks)
    ensures reply.Empty? ==> Behind(env, task.filter, p.cursor, task.start, p.now + 1)
    ensures reply.Broken? ==> Trouble(env, task.filter, writes, task.start, p.now + 1)
  {
    OnTrackLater(env, task, p, looks, Backoff(p, reply));
    assert reply.Empty? ==> Unanswered(env, task.filter, q, p.cursor);
    assert reply.Broken? ==> Hitch(env, task.filter, writes, q);
  }

  lemma OnTrackBatch(env: Env, task: Task, p: Progress, looks: seq<Look>, q: Request, found: seq<Sighting>,
                     more: seq<Look>, p': Progress)
    requires OnTrack(env, task, p, looks)
    requires q.time == p.now && q.lo == p.cursor && q.hi <= task.to && TrueBatch(env, q, task.filter, found, more)
    requires p'.cursor == q.lo + |more| && p'.found == p.found + found && p'.now > p.now
    requires MIN_BLOCKS_PER_REQUEST <= p'.window <= task.maxWindow
    ensures OnTrack(env, task, p', looks + more) && |looks + more| > |looks|
  {
    LookedJoin(env, task.from, looks, q.lo, more, task.filter, task.start, p.now, p'.now);
    ScanJoin(Eye(env), task.from, looks, p.cursor, more);
  }

  /** Saves how far a batch got; off when the scan keeps no checkpoint. */
  method SaveCheckpoint<T>(env: Env, cache: LogCache.Store<T>, scanId: string, persist: bool, last: nat, now: nat)
    returns (out: Option<Outcome>, now': nat)
    modifies cache`checkpoints
    ensures now <= now' <= now + 1
    ensures out.Some? ==> !out.value.Streamed? && cache.checkpoints == old(cache.checkpoints)
    ensures out.Some? ==> now' in env.killed || (persist && now' in env.diskFull)
    ensures out.None? ==> cache.checkpoints == Written(old(cache.checkpoints), scanId, persist, last + 1)
  {
    out, now' := None, now;
    if persist {
      if now in env.killed {
        return Some(Killed), now;
      }
      var ok := cache.SetCheckpoint(scanId, last, now !in env.diskFull);
      if !ok {
        return Some(Failed), now;
      }
      now' := now + 1;
    }
  }

  datatype Verdict = Again | Done | Stopped(out: Outcome)

  /** A batch arrived: the checkpoint first, then the cursor and the window. */
  method Commit<T>(
    cache: LogCache.Store<T>, env: Env, scanId: string, persist: bool, task: Task, p: Progress, found: seq<Sighting>, last: nat
  ) returns (v: Verdict, p': Progress)
    requires MIN_BLOCKS_PER_REQUEST <= p.window <= task.maxWindow
    modifies cache`checkpoints
    ensures v.Stopped? ==> !v.out.Streamed? && p' == p.(now := p'.now) && cache.checkpoints == old(cache.checkpoints)
    ensures v.Stopped? ==> p'.now in env.killed || (persist && p'.now in env.diskFull)
    ensures !v.Stopped? ==> p'.cursor == last + 1 && p'.found == p.found + found
    ensures !v.Stopped? ==> cache.checkpoints == Written(old(cache.checkpoints), scanId, persist, last + 1)
    ensures !v.Stopped? ==> (v.Done? <==> last >= task.to)
    ensures MIN_BLOCKS_PER_REQUEST <= p'.window <= task.maxWindow && p'.now > p.now
    ensures !v.Stopped? ==> Succeeded(p.window, p.successes, task.maxWindow, p'.window, p'.successes)
  {
    var stop, now := SaveCheckpoint(env, cache, scanId, persist, last, p.now + 1);
    if stop.Some? {
      return Stopped(stop.value), p.(now := now);
    }
    var window, successes := AfterSuccess(p.window, p.successes, task.maxWindow);
    p' := Progress(last + 1, window, successes, now, p.found + found);
    v := if last >= task.to then Done else Again;
  }

  /** A batch taken in: looks are added exactly when its checkpoint was saved. */
  method TakeBatch<T>(
    env: Env, cache: LogCache.Store<T>, scanId: string, persist: bool, task: Task, p: Progress, ghost looks: seq<Look>,
    q: Request, found: seq<Sighting>, last: nat, ghost more: seq<Look>
  ) returns (v: Verdict, p': Progress, ghost looks': seq<Look>)
    requires OnTrack(env, task, p, looks) && q.time == p.now && q.lo == p.cursor && q.hi <= task.to
    requires TrueBatch(env, q, task.filter, found, more) && last + 1 == q.lo + |more|
    modifies cache`checkpoints
    ensures OnTrack(env, task, p', looks')
    ensures v.Stopped? ==> !v.out.Streamed? && looks' == looks && cache.checkpoints == old(cache.checkpoints)
    ensures v.Stopped? ==> Trouble(env, task.filter, persist, task.start, p'.now)
    ensures !v.Stopped? ==> |looks'| > |looks| && (v.Done? <==> p'.cursor > task.to)
    ensures !v.Stopped? ==> cache.checkpoints == Written(old(cache.checkpoints), scanId, persist, p'.cursor)
    ensures !v.Stopped? ==> p'.now > p.now && p'.cursor == last + 1
    ensures !v.Stopped? ==> Succeeded(p.window, p.successes, task.maxWindow, p'.window, p'.successes)
  {
    v, p' := Commit(cache, env, scanId, persist, task, p, found, last);
    if v.Stopped? {
      looks' := looks;
      OnTrackLater(env, task, p, looks, p');
      TroubleNow(env, task.filter, persist, task.start, p'.now);
    } else {
      looks' := looks + more;
      OnTrackBatch(env, task, p, looks, q, found, more, p');
    }
  }

  /** One turn of the loop: a request and what its answer leads to. Either the
      cursor moves or a retry is used up. */
  method Turn<T>(
    env: Env, cache: LogCache.Store<T>, scanId: string, persist: bool, task: Task, p: Progress, ghost looks: seq<Look>
  ) returns (v: Verdict, p': Progress, ghost looks': seq<Look>, q: Request)
    requires Sane(env) && OnTrack(env, task, p, looks) && p.cursor <= task.to
    modifies cache`checkpoints
    ensures OnTrack(env, task, p', looks')
    ensures q == NextRequest(p, task.to) && InWindow(q, task.to, task.maxWindow)
    ensures v.Again? ==> Turned(env, task, p, q, p')
    ensures |looks'| >= |looks|
    ensures |looks'| == |looks| ==> cache.checkpoints == old(cache.checkpoints)
    ensures |looks'| > |looks| ==> cache.checkpoints == Written(old(cache.checkpoints), scanId, persist, p'.cursor)
    ensures v.Again? ==> p'.cursor <= task.to
    ensures v.Again? && |looks'| == |looks| ==> env.RetriesLeft(p'.now) < env.RetriesLeft(p.now)
    ensures v.Done? ==> p'.cursor > task.to || Behind(env, task.filter, p'.cursor, task.start, p'.now)
    ensures v.Stopped? ==> !v.out.Streamed? && Trouble(env, task.filter, persist, task.start, p'.now)
  {
    looks' := looks;
    q := NextRequest(p, task.to);
    if p.now in env.killed {
      TroubleNow(env, task.filter, persist, task.start, p.now);
      return Stopped(Killed), p, looks, q;
    }
    var reply;
    ghost var more;
    reply, more := Ask(env, q, task.filter);
    if reply.Batch? {
      v, p', looks' := TakeBatch(env, cache, scanId, persist, task, p, looks, q, reply.found, reply.last, more);
    } else {
      p' := Backoff(p, reply);
      BackoffTrack(env, task, p, looks, q, reply, persist);
      v := if reply.Broken? then Stopped(Failed) else if reply.Empty? then Done else Again;
    }
  }

  ghost predicate AllInWindow(asked: seq<Request>, to: nat, maxWindow: nat) {
    forall q :: q in asked ==> InWindow(q, to, maxWindow)
  }

  lemma OneMoreInWindow(asked: seq<Request>, q: Request, to: nat, maxWindow: nat)
    requires AllInWindow(asked, to, maxWindow) && InWindow(q, to, maxWindow)
    ensures AllInWindow(asked + [q], to, maxWindow)
  {
  }

  lemma OneMoreAsked(env: Env, task: Task, p: Progress, asked: seq<Request>, q: Request, again: bool, p': Progress)
    requires AllInWindow(asked, task.to, task.maxWindow) && InWindow(q, task.to, task.maxWindow)
    requires Paced(env, task.filter, task.from, task.maxWindow, asked) && OnPace(env, task, p, asked)
    requires MIN_BLOCKS_PER_REQUEST <= p.window <= task.maxWindow && MIN_BLOCKS_PER_REQUEST <= p'.window <= task.maxWindow
    requires q == NextRequest(p, task.to) && (again ==> Turned(env, task, p, q, p'))
    ensures AllInWindow(asked + [q], task.to, task.maxWindow)
    ensures Paced(env, task.filter, task.from, task.maxWindow, asked + [q])
    ensures again ==> OnPace(env, task, p', asked + [q])
  {
    OneMoreInWindow(asked, q, task.to, task.maxWindow);
    PacedNext(env, task.filter, task.from, task.maxWindow, asked, q);
    if again {
      TurnedOnPace(env, task, p, asked, q, p');
    }
  }

  /** The loop: one turn after another until the range is done or a turn stops it. */
  method Walk<T>(env: Env, cache: LogCache.Store<T>, scanId: string, persist: bool, task: Task)
    returns (v: Verdict, p: Progress, ghost looks: seq<Look>, ghost asked: seq<Request>)
    requires Sane(env) && task.maxWindow >= MIN_BLOCKS_PER_REQUEST && task.from <= task.to
    modifies cache`checkpoints
    ensures OnTrack(env, task, p, looks) && v != Again
    ensures v == Done ==> p.cursor > task.to || Behind(env, task.filter, p.cursor, task.start, p.now)
    ensures v.Stopped? ==> !v.out.Streamed? && Trouble(env, task.filter, persist, task.start, p.now)
    ensures cache.checkpoints == Marked(old(cache.checkpoints), scanId, persist, task.from, |looks|)
    ensures AllInWindow(asked, task.to, task.maxWindow)
    ensures Paced(env, task.filter, task.from, task.maxWindow, asked)
  {
    looks, asked := [], [];
    p := Progress(task.from, task.maxWindow, 0, task.start, []);
    v := Again;
    while v == Again
      invariant OnTrack(env, task, p, looks)
      invariant v == Again ==> p.cursor <= task.to
      invariant v == Done ==> p.cursor > task.to || Behind(env, task.filter, p.cursor, task.start, p.now)
      invariant v.Stopped? ==> !v.out.Streamed? && Trouble(env, task.filter, persist, task.start, p.now)
      invariant cache.checkpoints == Marked(old(cache.checkpoints), scanId, persist, task.from, |looks|)
      invariant AllInWindow(asked, task.to, task.maxWindow)
      invariant Paced(env, task.filter, task.from, task.maxWindow, asked)
      invariant v == Again ==> OnPace(env, task, p, asked)
      decreases v == Again, 1 + task.to - p.cursor, env.RetriesLeft(p.now)
    {
      ghost var was, before := |looks|, p;
      var q;
      v, p, looks, q := Turn(env, cache, scanId, persist, task, p, looks);
      if |looks| > was {
        MarkedAgain(old(cache.checkpoints), scanId, persist, task.from, was, |looks|);
      }
      OneMoreAsked(env, task, before, asked, q, v == Again, p);
      asked := asked + [q];
    }
  }

  /** Walks `from..=to`. `found` is everything `on_block` was handed, in order;
      `looks` says how each covered block was seen, so that the scan of `looks`
      is a gap-free, repetition-free account of the blocks `from..from+|looks|`. */
  method StreamLogs<T>(
    env: Env, cache: LogCache.Store<T>, scanId: string, from: nat, to: nat,
    filter: LogFilter, maxWindow: nat, persist: bool, start: nat
  ) returns (out: Outcome, found: seq<Sighting>, now: nat, ghost looks: seq<Look>, ghost asked: seq<Request>)
    requires Sane(env) && maxWindow >= MIN_BLOCKS_PER_REQUEST
    modifies cache`checkpoints
    ensures now >= start && Looked(env, from, looks, filter, start, now)
    ensures looks != [] ==> from + |looks| <= to + 1
    ensures out.Streamed? ==> found == Scan(Eye(env), from, looks)
    ensures out.Streamed? ==> out.last == Reached(from, looks, persist, cache.Checkpoint(scanId))
    ensures cache.checkpoints == Marked(old(cache.checkpoints), scanId, persist, from, |looks|)
    ensures AllInWindow(asked, to, maxWindow) && Paced(env, filter, from, maxWindow, asked)
    ensures out.Streamed? && from + |looks| <= to ==> Behind(env, filter, from + |looks|, start, now)
    ensures !out.Streamed? ==> Trouble(env, filter, persist, start, now)
  {
    now, found, looks, asked := start, [], [], [];
    var saved := cache.GetCheckpoint(scanId);
    if from > to {
      return Streamed(if persist then saved else None), [], start, [], [];
    }
    var v, p;
    v, p, looks, asked := Walk(env, cache, scanId, persist, Task(from, to, filter, maxWindow, start));
    now, found := p.now, p.found;
    saved := cache.GetCheckpoint(scanId);
    out := if v.Stopped? then v.out
           else Streamed(if p.cursor > from then Some(p.cursor - 1) else if persist then saved else None);
  }
}
