/** The durable chunk and checkpoint store, and the chunk boundaries its keys
    are made of. */
module LogCache {
  import opened Wrappers
  import opened Positional

  const U64_END: nat := 0x1_0000_0000_0000_0000

  // ---- keys ----------------------------------------------------------------

  /** Twenty decimal digits, zeros in front: the `{:020}` of a block number. */
  function Padded(n: nat): (s: string)
    ensures |s| == 20
    ensures forall i {:trigger s[i]} :: 0 <= i < 20 ==> s[i] == '0' + Fixed(10, 20, n)[i] as char
  {
    seq(20, i requires 0 <= i < 20 => '0' + Fixed(10, 20, n)[i] as char)
  }

  function ChunkKey(scanId: string, start: nat, end: nat): string {
    scanId + ":" + Padded(start) + ":" + Padded(end)
  }

  /** The order strings are compared in. */
  ghost predicate TextBefore(s: string, t: string) {
    exists k :: 0 <= k < |s| && k < |t| && s[..k] == t[..k] && s[k] < t[k]
  }

  lemma U64Fits(n: nat)
    requires n < U64_END
    ensures n < Pow(10, 20)
  {
    PowAdd(10, 10, 10);
    assert Pow(10, 10) == 10000000000;
  }

  lemma PaddedDigits(a: nat, b: nat)
    requires a < U64_END && b < U64_END
    ensures Padded(a) == Padded(b) <==> a == b
    ensures TextBefore(Padded(a), Padded(b)) <==> a < b
  {
    var x, y := Fixed(10, 20, a), Fixed(10, 20, b);
    U64Fits(a);
    U64Fits(b);
    FixedValue(10, 20, a);
    FixedValue(10, 20, b);
    BeforeIsLess(10, x, y);
    if Padded(a) == Padded(b) {
      forall i | 0 <= i < 20 ensures x[i] == y[i] {
        SameDigit(a, b, i);
      }
      assert x == y;
    }
    PaddedOrder(a, b);
  }

  lemma SameDigit(a: nat, b: nat, i: nat)
    requires i < 20
    ensures Padded(a)[i] == Padded(b)[i] <==> Fixed(10, 20, a)[i] == Fixed(10, 20, b)[i]
    ensures Padded(a)[i] < Padded(b)[i] <==> Fixed(10, 20, a)[i] < Fixed(10, 20, b)[i]
  {
  }

  lemma PaddedOrder(a: nat, b: nat)
    ensures TextBefore(Padded(a), Padded(b)) <==> Before(Fixed(10, 20, a), Fixed(10, 20, b))
  {
    var x, y, s, t := Fixed(10, 20, a), Fixed(10, 20, b), Padded(a), Padded(b);
    forall k | 0 <= k < 20
      ensures s[..k] == t[..k] <==> x[..k] == y[..k]
      ensures s[k] < t[k] <==> x[k] < y[k]
    {
      SameDigit(a, b, k);
      if s[..k] == t[..k] {
        forall i | 0 <= i < k ensures x[i] == y[i] {
          assert s[..k][i] == t[..k][i];
          SameDigit(a, b, i);
        }
      }
      if x[..k] == y[..k] {
        forall i | 0 <= i < k ensures s[i] == t[i] {
          assert x[..k][i] == y[..k][i];
          SameDigit(a, b, i);
        }
      }
    }
  }

  /** Different chunks, and different scans, never share a key. */
  lemma ChunkKeyInjective(id: string, start: nat, end: nat, id': string, start': nat, end': nat)
    requires start < U64_END && end < U64_END && start' < U64_END && end' < U64_END
    requires ChunkKey(id, start, end) == ChunkKey(id', start', end')
    ensures id == id' && start == start' && end == end'
  {
    var k, k' := ChunkKey(id, start, end), ChunkKey(id', start', end');
    assert |id| == |id'|;
    assert k[..|id|] == id && k'[..|id|] == id';
    assert k[|id| + 1..|id| + 21] == Padded(start) && k'[|id| + 1..|id| + 21] == Padded(start');
    assert k[|id| + 22..] == Padded(end) && k'[|id| + 22..] == Padded(end');
    PaddedDigits(start, start');
    PaddedDigits(end, end');
  }

  /** Fields of one width are compared left to right. */
  lemma TextBeforeAppend(a: string, x: string, b: string, y: string)
    requires |a| == |b|
    ensures TextBefore(a + x, b + y) <==> TextBefore(a, b) || (a == b && TextBefore(x, y))
  {
    var s, t := a + x, b + y;
    if TextBefore(s, t) {
      var k :| 0 <= k < |s| && k < |t| && s[..k] == t[..k] && s[k] < t[k];
      TextBeforeSplit(a, x, b, y, k);
    }
    if TextBefore(a, b) {
      var k :| 0 <= k < |a| && k < |b| && a[..k] == b[..k] && a[k] < b[k];
      assert s[..k] == a[..k] && t[..k] == b[..k];
      assert s[k] < t[k];
    }
    if a == b && TextBefore(x, y) {
      var k :| 0 <= k < |x| && k < |y| && x[..k] == y[..k] && x[k] < y[k];
      assert s[..|a| + k] == a + x[..k] && t[..|a| + k] == b + y[..k];
      assert s[|a| + k] < t[|a| + k];
    }
  }

  lemma TextBeforeSplit(a: string, x: string, b: string, y: string, k: nat)
    requires |a| == |b| && k < |a + x| && k < |b + y|
    requires (a + x)[..k] == (b + y)[..k] && (a + x)[k] < (b + y)[k]
    ensures TextBefore(a, b) || (a == b && TextBefore(x, y))
  {
    var s, t := a + x, b + y;
    if k < |a| {
      assert a[..k] == s[..k] && b[..k] == t[..k];
    } else {
      assert a == s[..k][..|a|] && b == t[..k][..|a|];
      var j := k - |a|;
      assert x[..j] == s[..k][|a|..] && y[..j] == t[..k][|a|..];
      assert x[j] < y[j];
    }
  }

  /** Within one scan the keys sort as the block ranges do. */
  lemma ChunkKeyOrder(id: string, start: nat, end: nat, start': nat, end': nat)
    requires start < U64_END && end < U64_END && start' < U64_END && end' < U64_END
    ensures TextBefore(ChunkKey(id, start, end), ChunkKey(id, start', end'))
      <==> start < start' || (start == start' && end < end')
  {
    var p := id + ":";
    TextBeforeAppend(p + Padded(start) + ":", Padded(end), p + Padded(start') + ":", Padded(end'));
    TextBeforeAppend(p + Padded(start), ":", p + Padded(start'), ":");
    TextBeforeAppend(p, Padded(start), p, Padded(start'));
    PaddedDigits(start, start');
    PaddedDigits(end, end');
    if p + Padded(start) + ":" == p + Padded(start') + ":" {
      var n := |p|;
      assert (p + Padded(start) + ":")[n..n + 20] == Padded(start);
      assert (p + Padded(start') + ":")[n..n + 20] == Padded(start');
    }
    assert !TextBefore(":", ":");
    assert !TextBefore(p, p);
  }

  // ---- chunk boundaries ----------------------------------------------------

  function Min(a: int, b: int): int {
    if a <= b then a else b
  }

  function Max(a: int, b: int): int {
    if a >= b then a else b
  }

  function Chunks(from: nat, to: nat, step: nat): seq<(nat, nat)>
    requires step >= 1
    decreases 1 + to - from
  {
    if from > to then []
    else
      var end := Min(from + step - 1, to);
      [(from, end)] + Chunks(end + 1, to, step)
  }

  lemma ChunksNext(done: seq<(nat, nat)>, cursor: nat, to: nat, step: nat)
    requires step >= 1 && cursor <= to
    ensures
      var end := Min(cursor + step - 1, to);
      done + [(cursor, end)] + Chunks(end + 1, to, step) == done + Chunks(cursor, to, step)
  {
  }

  /** The iterator, drained. */
  method ChunkRanges(from: nat, to: nat, step: nat) returns (ranges: seq<(nat, nat)>)
    ensures ranges == Chunks(from, to, Max(step, 1))
  {
    var size := Max(step, 1);
    var cursor := from;
    ranges := [];
    while cursor <= to
      invariant size >= 1 && ranges + Chunks(cursor, to, size) == Chunks(from, to, size)
      decreases 1 + to - cursor
    {
      var end := Min(cursor + size - 1, to);
      ChunksNext(ranges, cursor, to, size);
      ranges := ranges + [(cursor, end)];
      cursor := end + 1;
    }
  }

  /** Adjacent chunks that together are exactly `from..=to`; every one of them
      but the last has `step` blocks, and chunk `i` starts `i` steps in. */
  lemma {:induction false} ChunksTile(from: nat, to: nat, step: nat, i: nat)
    requires step >= 1 && i < |Chunks(from, to, step)|
    ensures
      var r := Chunks(from, to, step);
      r[i].0 == from + i * step && r[i].0 <= r[i].1 <= to
      && (i + 1 < |r| ==> r[i].1 - r[i].0 + 1 == step && r[i + 1].0 == r[i].1 + 1)
      && (i + 1 == |r| ==> r[i].1 == to && r[i].1 - r[i].0 + 1 <= step)
    decreases i
  {
    var end := Min(from + step - 1, to);
    var rest := Chunks(end + 1, to, step);
    assert Chunks(from, to, step) == [(from, end)] + rest;
    if i > 0 {
      ChunksTile(end + 1, to, step, i - 1);
      assert (i - 1) * step + step == i * step;
    } else if |rest| > 0 {
      assert end < to && rest[0].0 == end + 1;
    }
  }

  /** A full chunk keeps its place and its bounds when the head moves on, so
      later runs look it up under the same key. */
  lemma {:induction false} FullChunkStays(from: nat, to: nat, to': nat, step: nat, i: nat)
    requires step >= 1 && to <= to' && i < |Chunks(from, to, step)|
    requires var c := Chunks(from, to, step)[i]; c.1 + 1 == c.0 + step
    ensures i < |Chunks(from, to', step)|
    ensures Chunks(from, to', step)[i] == Chunks(from, to, step)[i]
    decreases i
  {
    assert from <= to;
    var end, end' := Min(from + step - 1, to), Min(from + step - 1, to');
    assert Chunks(from, to, step) == [(from, end)] + Chunks(end + 1, to, step);
    assert Chunks(from, to', step) == [(from, end')] + Chunks(end' + 1, to', step);
    if i > 0 {
      FullChunkStays(end + 1, to, to', step, i - 1);
    }
  }

  // ---- the store -----------------------------------------------------------

  /** What a chunk key holds on disk: a value, or bytes that no longer parse. */
  datatype Stored<+T> = Readable(value: T) | Unreadable

  datatype Lookup<+T> = Hit(value: T) | Miss | ReadError

  class Store<T> {
    var chunks: map<string, Stored<T>>
    var checkpoints: map<string, nat>

    constructor Open()
      ensures chunks == map[] && checkpoints == map[]
    {
      chunks, checkpoints := map[], map[];
    }

    function Checkpoint(scanId: string): Option<nat>
      reads this`checkpoints
    {
      if scanId in checkpoints then Some(checkpoints[scanId]) else None
    }

    method GetChunk(scanId: string, start: nat, end: nat) returns (r: Lookup<T>)
      ensures
        var key := ChunkKey(scanId, start, end);
        r == if key !in chunks then Miss
             else match chunks[key] case Readable(v) => Hit(v) case Unreadable => ReadError
    {
      var key := ChunkKey(scanId, start, end);
      if key !in chunks {
        return Miss;
      }
      match chunks[key]
      case Readable(v) => return Hit(v);
      case Unreadable => return ReadError;
    }

    /** `diskOk` says whether the disk took the write. */
    method PutChunk(scanId: string, start: nat, end: nat, value: T, diskOk: bool) returns (ok: bool)
      modifies this`chunks
      ensures ok == diskOk
      ensures chunks == if ok then old(chunks)[ChunkKey(scanId, start, end) := Readable(value)] else old(chunks)
    {
      if diskOk {
        chunks := chunks[ChunkKey(scanId, start, end) := Readable(value)];
      }
      ok := diskOk;
    }

    method GetCheckpoint(scanId: string) returns (r: Option<nat>)
      ensures r == Checkpoint(scanId)
    {
      r := if scanId in checkpoints then Some(checkpoints[scanId]) else None;
    }

    method SetCheckpoint(scanId: string, block: nat, diskOk: bool) returns (ok: bool)
      modifies this`checkpoints
      ensures ok == diskOk
      ensures checkpoints == if ok then old(checkpoints)[scanId := block] else old(checkpoints)
    {
      if diskOk {
        checkpoints := checkpoints[scanId := block];
      }
      ok := diskOk;
    }
  }
}
