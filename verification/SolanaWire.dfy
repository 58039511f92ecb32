/** Legacy Solana messages and transactions, byte by byte: what the browser
    writes, and what a reader of the format makes of any bytes. */
module SolanaWire {
  import opened Wrappers
  import opened Positional
  import opened Hex
  import Base58

  const TOKEN_1 := "TokenkegQfe"
  const TOKEN_2 := "ZyiNwAJbNbG"
  const TOKEN_3 := "KPFXCWuBvf9"
  const TOKEN_4 := "Ss623VQ5DA"
  const TOKEN_PROGRAM := TOKEN_1 + TOKEN_2 + TOKEN_3 + TOKEN_4
  const U64_END: nat := 0x1_0000_0000_0000_0000
  const LENGTH_END: nat := 0x1_0000

  // ---- compact lengths --------------------------------------------------------

  /** Seven bits a byte, low ones first; the high bit says more follow. */
  function ShortVec(n: nat): (b: seq<byte>)
    ensures b != []
  {
    if n < 128 then [n] else [n % 128 + 128] + ShortVec(n / 128)
  }

  lemma ShortVecNext(done: seq<byte>, n: nat)
    ensures done + ShortVec(n) == if n < 128 then done + [n] else done + [n % 128 + 128] + ShortVec(n / 128)
  {
  }

  method Shortvec(value: nat) returns (out: seq<byte>)
    requires value < 0x8000_0000
    ensures out == ShortVec(value)
  {
    out := [];
    var n := value;
    while true
      invariant out + ShortVec(n) == ShortVec(value)
      decreases n
    {
      var b := n % 128;
      ShortVecNext(out, n);
      n := n / 128;
      if n != 0 {
        out := out + [b + 128];
      } else {
        out := out + [b];
        return;
      }
    }
  }

  datatype Read<+T> = Bad | Got(value: T, rest: seq<byte>)

  /** A length as the format defines it: at most three bytes, below 2^16, and
      never longer than needed. `i` bytes were read, `acc` is their value. */
  function ReadLen(b: seq<byte>, i: nat, acc: nat): Read<nat>
    decreases 3 - i
  {
    if b == [] || i >= 3 then Bad
    else if b[0] == 0 && i != 0 then Bad
    else if i == 2 && b[0] >= 128 then Bad
    else
      var n := acc + b[0] % 128 * Pow(128, i);
      if n >= LENGTH_END then Bad
      else if b[0] < 128 then Got(n, b[1..])
      else ReadLen(b[1..], i + 1, n)
  }

  lemma Powers128()
    ensures Pow(128, 0) == 1 && Pow(128, 1) == 128 && Pow(128, 2) == 16384
  {
    assert Pow(128, 2) == Pow(128, 1) * 128;
  }

  lemma FirstOf(x: byte, tail: seq<byte>)
    ensures ([x] + tail)[0] == x && ([x] + tail)[1..] == tail
  {
  }

  /** Reading one, two and three bytes. */
  lemma ReadShort(x: byte, tail: seq<byte>, i: nat, acc: nat)
    requires x < 128 && i < 3 && (x == 0 ==> i == 0) && acc + x * Pow(128, i) < LENGTH_END
    ensures ReadLen([x] + tail, i, acc) == Got(acc + x * Pow(128, i), tail)
  {
    FirstOf(x, tail);
  }

  lemma ReadMore(x: byte, tail: seq<byte>, i: nat, acc: nat)
    requires x < 128 && i < 2 && acc + x * Pow(128, i) < LENGTH_END
    ensures ReadLen([x + 128] + tail, i, acc) == ReadLen(tail, i + 1, acc + x * Pow(128, i))
  {
    FirstOf(x + 128, tail);
  }

  lemma ReadTwo(x: byte, y: byte, tail: seq<byte>)
    requires x < 128 && 0 < y < 128
    ensures ReadLen([x + 128] + ([y] + tail), 0, 0) == Got(x + y * 128, tail)
  {
    Powers128();
    ReadMore(x, [y] + tail, 0, 0);
    ReadShort(y, tail, 1, x);
  }

  lemma ReadThree(x: byte, y: byte, z: byte, tail: seq<byte>)
    requires x < 128 && y < 128 && 0 < z < 4
    ensures ReadLen([x + 128] + ([y + 128] + ([z] + tail)), 0, 0) == Got(x + y * 128 + z * 16384, tail)
  {
    Powers128();
    ReadMore(x, [y + 128] + ([z] + tail), 0, 0);
    ReadMore(y, [z] + tail, 1, x);
    ReadShort(z, tail, 2, x + y * 128);
  }

  lemma ShortVecTwo(n: nat)
    requires 128 <= n < 16384
    ensures ShortVec(n) == [n % 128 + 128] + [n / 128]
  {
  }

  lemma ShortVecThree(n: nat)
    requires 16384 <= n < LENGTH_END
    ensures ShortVec(n) == [n % 128 + 128] + ([n / 128 % 128 + 128] + [n / 128 / 128])
    ensures 0 < n / 128 / 128 < 4 && n == n % 128 + n / 128 % 128 * 128 + n / 128 / 128 * 16384
  {
    assert ShortVec(n / 128) == [n / 128 % 128 + 128] + ShortVec(n / 128 / 128);
  }

  lemma Regroup3(a: seq<byte>, b: seq<byte>, c: seq<byte>, d: seq<byte>)
    ensures (a + (b + c)) + d == a + (b + (c + d))
  {
  }

  lemma ReadLenTwo(n: nat, m: nat, x: nat, tail: seq<byte>)
    requires 128 <= n < 16384 && m == n / 128 && x == n % 128
    ensures ReadLen(ShortVec(n) + tail, 0, 0) == Got(n, tail)
  {
    ShortVecTwo(n);
    ReadTwo(x, m, tail);
    assert ([x + 128] + [m]) + tail == [x + 128] + ([m] + tail);
  }

  lemma ReadLenThree(n: nat, x: byte, y: byte, z: byte, s: seq<byte>, tail: seq<byte>)
    requires x < 128 && y < 128 && 0 < z < 4 && n == x + y * 128 + z * 16384
    requires s == [x + 128] + ([y + 128] + [z])
    ensures ReadLen(s + tail, 0, 0) == Got(n, tail)
  {
    Regroup3([x + 128], [y + 128], [z], tail);
    ReadThree(x, y, z, tail);
  }

  lemma ReadLenWrite(n: nat, tail: seq<byte>)
    requires n < LENGTH_END
    ensures ReadLen(ShortVec(n) + tail, 0, 0) == Got(n, tail)
  {
    if n < 128 {
      Powers128();
      ReadShort(n, tail, 0, 0);
    } else if n < 16384 {
      ReadLenTwo(n, n / 128, n % 128, tail);
    } else {
      ShortVecThree(n);
      ReadLenThree(n, n % 128, n / 128 % 128, n / 128 / 128, ShortVec(n), tail);
    }
  }

  lemma LowBits(n: nat, x: nat, m: nat)
    requires x < 128 && n == x + m * 128
    ensures n % 128 == x && n / 128 == m
  {
  }

  lemma Headed<T>(b: seq<T>)
    requires b != []
    ensures b == [b[0]] + b[1..]
  {
  }

  /** A length is read only from the bytes it is written as. `i` bytes are gone. */
  lemma {:induction false} ReadLenFrom(b: seq<byte>, i: nat, acc: nat) returns (m: nat)
    requires i < 3 && ReadLen(b, i, acc).Got?
    ensures
      var r := ReadLen(b, i, acc);
      r.value == acc + m * Pow(128, i) && r.value < LENGTH_END && (m == 0 ==> i == 0) && b == ShortVec(m) + r.rest
    decreases 3 - i
  {
    Powers128();
    var x := b[0] % 128;
    Headed(b);
    if b[0] < 128 {
      m := x;
    } else {
      var more := ReadLenFrom(b[1..], i + 1, acc + x * Pow(128, i));
      m := x + more * 128;
      ShortVecMore(m, x, more, ReadLen(b, i, acc).rest);
      assert b[0] == x + 128;
    }
  }

  lemma ShortVecMore(m: nat, x: nat, more: nat, rest: seq<byte>)
    requires x < 128 && more > 0 && m == x + more * 128
    ensures ShortVec(m) + rest == [x + 128] + (ShortVec(more) + rest)
  {
    LowBits(m, x, more);
    assert ([x + 128] + ShortVec(more)) + rest == [x + 128] + (ShortVec(more) + rest);
  }

  lemma ReadLenExact(b: seq<byte>)
    ensures
      var r := ReadLen(b, 0, 0);
      r.Got? ==> r.value < LENGTH_END && b == ShortVec(r.value) + r.rest
  {
    Powers128();
    if ReadLen(b, 0, 0).Got? {
      var m := ReadLenFrom(b, 0, 0);
    }
  }

  // ---- little-endian numbers -----------------------------------------------------

  function Le(width: nat, n: nat): (b: seq<byte>)
    ensures |b| == width
  {
    if width == 0 then [] else [n % 256] + Le(width - 1, n / 256)
  }

  function LeValue(b: seq<byte>): nat {
    if b == [] then 0 else b[0] + LeValue(b[1..]) * 256
  }

  lemma {:induction false} LeOfValue(b: seq<byte>)
    ensures Le(|b|, LeValue(b)) == b && LeValue(b) < Pow(256, |b|)
  {
    if b != [] {
      LeOfValue(b[1..]);
      DivMod(256, LeValue(b[1..]), b[0]);
      MulNext(LeValue(b[1..]), Pow(256, |b| - 1), 256);
      assert b == [b[0]] + b[1..];
    }
  }

  lemma {:induction false} ValueOfLe(width: nat, n: nat)
    requires n < Pow(256, width)
    ensures LeValue(Le(width, n)) == n
  {
    if width != 0 {
      LessDiv(256, n, Pow(256, width - 1));
      ValueOfLe(width - 1, n / 256);
      Split(256, n);
      assert Le(width, n)[1..] == Le(width - 1, n / 256);
    }
  }

  lemma U64Pow()
    ensures Pow(256, 8) == U64_END
  {
    assert Pow(256, 0) == 1;
    assert Pow(256, 1) == 0x100;
    assert Pow(256, 2) == 0x1_0000;
    assert Pow(256, 3) == 0x100_0000;
    assert Pow(256, 4) == 0x1_0000_0000;
    assert Pow(256, 5) == 0x100_0000_0000;
    assert Pow(256, 6) == 0x1_0000_0000_0000;
    assert Pow(256, 7) == 0x100_0000_0000_0000;
  }

  /** Eight bytes, or an error outside the unsigned 64-bit range. */
  method U64le(value: int) returns (r: Option<seq<byte>>)
    ensures r == if 0 <= value < U64_END then Some(Le(8, value)) else None
  {
    if value < 0 || value >= U64_END {
      return None;
    }
    var v: nat := value;
    var out := new byte[8](_ => 0);
    for i := 0 to 8
      invariant out[..i] + Le(8 - i, v) == Le(8, value)
    {
      assert out[..i] + Le(8 - i, v) == out[..i] + [v % 256] + Le(8 - (i + 1), v / 256);
      out[i] := v % 256;
      assert out[..i + 1] == out[..i] + [v % 256];
      v := v / 256;
    }
    assert out[..] == out[..8] + Le(0, v);
    r := Some(out[..]);
  }

  // ---- messages --------------------------------------------------------------------

  datatype Instruction = Instruction(program: byte, accounts: seq<byte>, data: seq<byte>)

  /** `signers` keys sign; the last `readonlySigned` of them, and the last
      `readonlyUnsigned` of all keys, are read-only. */
  datatype Message = Message(
    signers: byte, readonlySigned: byte, readonlyUnsigned: byte,
    keys: seq<Bytes32>, blockhash: Bytes32, instructions: seq<Instruction>)

  function Flat(keys: seq<Bytes32>): seq<byte> {
    if keys == [] then [] else keys[0] + Flat(keys[1..])
  }

  function WriteInstruction(ix: Instruction): seq<byte> {
    [ix.program] + (ShortVec(|ix.accounts|) + (ix.accounts + (ShortVec(|ix.data|) + ix.data)))
  }

  function WriteInstructions(ixs: seq<Instruction>): seq<byte> {
    if ixs == [] then [] else WriteInstruction(ixs[0]) + WriteInstructions(ixs[1..])
  }

  function WriteMessage(m: Message): seq<byte> {
    [m.signers, m.readonlySigned, m.readonlyUnsigned]
    + (ShortVec(|m.keys|) + (Flat(m.keys) + (m.blockhash + (ShortVec(|m.instructions|) + WriteInstructions(m.instructions)))))
  }

  /** Every list fits the 16-bit lengths of the format. */
  ghost predicate FitsInstruction(ix: Instruction) {
    |ix.accounts| < LENGTH_END && |ix.data| < LENGTH_END
  }

  ghost predicate Fits(m: Message) {
    |m.keys| < LENGTH_END && |m.instructions| < LENGTH_END && FitAll(m.instructions)
  }

  function ReadBytes(n: nat, b: seq<byte>): (r: Read<seq<byte>>)
    ensures r.Got? <==> |b| >= n
    ensures r.Got? ==> |r.value| == n && b == r.value + r.rest
  {
    if |b| < n then Bad else Got(b[..n], b[n..])
  }

  lemma ReadBytesWrite(x: seq<byte>, tail: seq<byte>)
    ensures ReadBytes(|x|, x + tail) == Got(x, tail)
  {
    assert (x + tail)[..|x|] == x && (x + tail)[|x|..] == tail;
  }

  /** A length, then so many bytes. */
  function ReadVec(b: seq<byte>): Read<seq<byte>> {
    match ReadLen(b, 0, 0)
    case Bad => Bad
    case Got(n, rest) => ReadBytes(n, rest)
  }

  lemma ReadVecWrite(x: seq<byte>, tail: seq<byte>)
    requires |x| < LENGTH_END
    ensures ReadVec(ShortVec(|x|) + (x + tail)) == Got(x, tail)
  {
    ReadLenWrite(|x|, x + tail);
    ReadBytesWrite(x, tail);
  }

  lemma ReadVecExact(b: seq<byte>)
    ensures
      var r := ReadVec(b);
      r.Got? ==> |r.value| < LENGTH_END && b == ShortVec(|r.value|) + (r.value + r.rest)
  {
    ReadLenExact(b);
  }

  function ReadKeys(n: nat, b: seq<byte>): Read<seq<Bytes32>> {
    if n == 0 then Got([], b)
    else if |b| < 32 then Bad
    else
      match ReadKeys(n - 1, b[32..])
      case Bad => Bad
      case Got(keys, rest) => Got([b[..32]] + keys, rest)
  }

  lemma FirstKey(key: Bytes32, more: seq<byte>, tail: seq<byte>)
    ensures
      var b := key + more + tail;
      |b| >= 32 && b[..32] == key && b[32..] == more + tail
  {
  }

  lemma {:induction false} ReadKeysWrite(keys: seq<Bytes32>, tail: seq<byte>)
    ensures ReadKeys(|keys|, Flat(keys) + tail) == Got(keys, tail)
  {
    if keys == [] {
      assert Flat(keys) + tail == tail;
    } else {
      FirstKey(keys[0], Flat(keys[1..]), tail);
      assert Flat(keys) + tail == keys[0] + Flat(keys[1..]) + tail;
      ReadKeysWrite(keys[1..], tail);
      Headed(keys);
    }
  }

  lemma {:induction false} ReadKeysExact(n: nat, b: seq<byte>)
    ensures
      var r := ReadKeys(n, b);
      r.Got? ==> |r.value| == n && b == Flat(r.value) + r.rest
  {
    var r := ReadKeys(n, b);
    if n > 0 && r.Got? {
      ReadKeysExact(n - 1, b[32..]);
      assert r.value[1..] == ReadKeys(n - 1, b[32..]).value;
      assert b == b[..32] + b[32..];
    }
  }

  function ReadInstruction(b: seq<byte>): Read<Instruction> {
    if b == [] then Bad
    else
      match ReadVec(b[1..])
      case Bad => Bad
      case Got(accounts, rest) =>
        match ReadVec(rest)
        case Bad => Bad
        case Got(data, rest') => Got(Instruction(b[0], accounts, data), rest')
  }

  lemma ReadInstructionWrite(ix: Instruction, tail: seq<byte>)
    requires FitsInstruction(ix)
    ensures ReadInstruction(WriteInstruction(ix) + tail) == Got(ix, tail)
  {
    var b := WriteInstruction(ix) + tail;
    var datapart := ShortVec(|ix.data|) + (ix.data + tail);
    assert b[1..] == ShortVec(|ix.accounts|) + (ix.accounts + datapart);
    ReadVecWrite(ix.accounts, datapart);
    ReadVecWrite(ix.data, tail);
  }

  lemma RegroupInstruction(a: seq<byte>, b: seq<byte>, c: seq<byte>, d: seq<byte>, e: seq<byte>, f: seq<byte>)
    ensures a + (b + (c + (d + (e + f)))) == (a + (b + (c + (d + e)))) + f
  {
  }

  lemma ReadInstructionExact(b: seq<byte>)
    ensures
      var r := ReadInstruction(b);
      r.Got? ==> FitsInstruction(r.value) && b == WriteInstruction(r.value) + r.rest
  {
    var r := ReadInstruction(b);
    if r.Got? {
      ReadVecExact(b[1..]);
      var rest := ReadVec(b[1..]).rest;
      ReadVecExact(rest);
      Headed(b);
      RegroupInstruction([b[0]], ShortVec(|r.value.accounts|), r.value.accounts, ShortVec(|r.value.data|), r.value.data, r.rest);
    }
  }

  function ReadInstructions(n: nat, b: seq<byte>): (r: Read<seq<Instruction>>)
    ensures r.Got? ==> |r.value| == n
  {
    if n == 0 then Got([], b)
    else
      match ReadInstruction(b)
      case Bad => Bad
      case Got(ix, rest) =>
        match ReadInstructions(n - 1, rest)
        case Bad => Bad
        case Got(ixs, rest') => Got([ix] + ixs, rest')
  }

  lemma {:induction false} ReadInstructionsWrite(ixs: seq<Instruction>, tail: seq<byte>)
    requires FitAll(ixs)
    ensures ReadInstructions(|ixs|, WriteInstructions(ixs) + tail) == Got(ixs, tail)
  {
    if ixs == [] {
      assert WriteInstructions(ixs) + tail == tail;
    } else {
      var first, more := WriteInstruction(ixs[0]), WriteInstructions(ixs[1..]);
      assert (first + more) + tail == first + (more + tail);
      ReadInstructionWrite(ixs[0], more + tail);
      ReadInstructionsWrite(ixs[1..], tail);
      Headed(ixs);
    }
  }

  ghost predicate FitAll(ixs: seq<Instruction>) {
    forall i :: 0 <= i < |ixs| ==> FitsInstruction(ixs[i])
  }

  /** The bytes are these instructions, written, and a tail. */
  ghost predicate WrittenAs(b: seq<byte>, ixs: seq<Instruction>, tail: seq<byte>) {
    b == WriteInstructions(ixs) + tail && FitAll(ixs)
  }

  lemma JoinInstructions(b: seq<byte>, ix: Instruction, rest: seq<byte>, more: seq<Instruction>, tail: seq<byte>)
    requires b == WriteInstruction(ix) + rest && FitsInstruction(ix) && WrittenAs(rest, more, tail)
    ensures WrittenAs(b, [ix] + more, tail)
  {
    assert ([ix] + more)[1..] == more;
  }

  lemma NoInstructions(b: seq<byte>)
    ensures WrittenAs(b, [], b)
  {
    assert WriteInstructions([]) + b == b;
  }

  lemma ReadInstructionsNext(n: nat, b: seq<byte>, ixs: seq<Instruction>, tail: seq<byte>)
    returns (ix: Instruction, rest: seq<byte>, more: seq<Instruction>)
    requires n > 0 && ReadInstructions(n, b) == Got(ixs, tail)
    ensures b == WriteInstruction(ix) + rest && FitsInstruction(ix)
    ensures ReadInstructions(n - 1, rest) == Got(more, tail) && ixs == [ix] + more
  {
    ReadInstructionExact(b);
    ix, rest := ReadInstruction(b).value, ReadInstruction(b).rest;
    more := ReadInstructions(n - 1, rest).value;
  }

  lemma {:induction false} ReadInstructionsExact(n: nat, b: seq<byte>, ixs: seq<Instruction>, tail: seq<byte>)
    requires ReadInstructions(n, b) == Got(ixs, tail)
    ensures WrittenAs(b, ixs, tail)
  {
    if n == 0 {
      NoInstructions(b);
    } else {
      var ix, rest, more := ReadInstructionsNext(n, b, ixs, tail);
      ReadInstructionsExact(n - 1, rest, more, tail);
      JoinInstructions(b, ix, rest, more, tail);
    }
  }

  /** Bytes behind the message are left over, not an error. */
  function ReadMessage(b: seq<byte>): Read<Message> {
    if |b| < 3 then Bad
    else
      match ReadLen(b[3..], 0, 0)
      case Bad => Bad
      case Got(n, afterLen) =>
        match ReadKeys(n, afterLen)
        case Bad => Bad
        case Got(keys, afterKeys) =>
          match ReadBytes(32, afterKeys)
          case Bad => Bad
          case Got(blockhash, afterHash) =>
            match ReadLen(afterHash, 0, 0)
            case Bad => Bad
            case Got(k, afterCount) =>
              match ReadInstructions(k, afterCount)
              case Bad => Bad
              case Got(ixs, rest) => Got(Message(b[0], b[1], b[2], keys, blockhash, ixs), rest)
  }

  lemma JoinMessage(m: Message, tail: seq<byte>)
    ensures WriteMessage(m) + tail ==
      [m.signers, m.readonlySigned, m.readonlyUnsigned]
      + (ShortVec(|m.keys|) + (Flat(m.keys) + (m.blockhash + (ShortVec(|m.instructions|) + (WriteInstructions(m.instructions) + tail)))))
  {
  }

  lemma BehindHeader(x: byte, y: byte, z: byte, rest: seq<byte>)
    ensures ([x, y, z] + rest)[0] == x && ([x, y, z] + rest)[1] == y && ([x, y, z] + rest)[2] == z
    ensures ([x, y, z] + rest)[3..] == rest
  {
  }

  /** Whatever was written is what is read. */
  lemma ReadMessageWrite(m: Message, tail: seq<byte>)
    requires Fits(m)
    ensures ReadMessage(WriteMessage(m) + tail) == Got(m, tail)
  {
    var ixs := WriteInstructions(m.instructions) + tail;
    var count := ShortVec(|m.instructions|) + ixs;
    var hash := m.blockhash + count;
    var keys := Flat(m.keys) + hash;
    JoinMessage(m, tail);
    BehindHeader(m.signers, m.readonlySigned, m.readonlyUnsigned, ShortVec(|m.keys|) + keys);
    ReadLenWrite(|m.keys|, keys);
    ReadKeysWrite(m.keys, hash);
    ReadBytesWrite(m.blockhash, count);
    ReadLenWrite(|m.instructions|, ixs);
    ReadInstructionsWrite(m.instructions, tail);
  }

  lemma HeadedBy3(b: seq<byte>)
    requires |b| >= 3
    ensures b == [b[0], b[1], b[2]] + b[3..]
  {
  }

  /** Whatever is read is what was written: no two byte strings of the same
      length read alike. */
  lemma ReadMessageExact(b: seq<byte>)
    ensures
      var r := ReadMessage(b);
      r.Got? ==> Fits(r.value) && b == WriteMessage(r.value) + r.rest
  {
    var r := ReadMessage(b);
    if r.Got? {
      var m := r.value;
      var a := ReadLen(b[3..], 0, 0);
      var k := ReadKeys(a.value, a.rest);
      var h := ReadBytes(32, k.rest);
      var c := ReadLen(h.rest, 0, 0);
      ReadLenExact(b[3..]);
      ReadKeysExact(a.value, a.rest);
      ReadLenExact(h.rest);
      ReadInstructionsExact(c.value, c.rest, m.instructions, r.rest);
      assert m.keys == k.value && m.blockhash == h.value;
      JoinMessage(m, r.rest);
      HeadedBy3(b);
    }
  }

  // ---- what the browser builds ---------------------------------------------------------

  /** A public key's 32 bytes, or an error. */
  function PubkeyBytes(s: string): Option<Bytes32> {
    match Base58.Decode(s)
    case None => None
    case Some(b) => if |b| == 32 then Some(b) else None
  }

  /** All of them, or an error when one is missing. */
  function AllSome<T>(xs: seq<Option<T>>): (r: Option<seq<T>>)
    ensures r.Some? <==> forall i :: 0 <= i < |xs| ==> xs[i].Some?
    ensures r.Some? ==> |r.value| == |xs| && forall i :: 0 <= i < |xs| ==> xs[i] == Some(r.value[i])
  {
    if xs == [] then Some([])
    else
      var last, before := xs[|xs| - 1], AllSome(xs[..|xs| - 1]);
      if last.Some? && before.Some? then Some(before.value + [last.value]) else None
  }

  function KeysOf(ss: seq<string>): (r: seq<Option<Bytes32>>)
    ensures |r| == |ss|
  {
    seq(|ss|, i requires 0 <= i < |ss| => PubkeyBytes(ss[i]))
  }

  function AllPubkeys(ss: seq<string>): (r: Option<seq<Bytes32>>)
    ensures r.Some? ==> |r.value| == |ss|
  {
    AllSome(KeysOf(ss))
  }

  lemma KeyAt(ss: seq<string>, i: nat)
    requires i < |ss|
    ensures KeysOf(ss)[i] == PubkeyBytes(ss[i])
    ensures AllPubkeys(ss).Some? ==> PubkeyBytes(ss[i]) == Some(AllPubkeys(ss).value[i])
  {
  }

  predicate AllDistinct<T(==)>(s: seq<T>) {
    forall i, j :: 0 <= i < j < |s| ==> s[i] != s[j]
  }

  lemma SameKey(ss: seq<string>, i: nat, j: nat)
    requires i < |ss| && j < |ss| && AllPubkeys(ss).Some?
    ensures AllPubkeys(ss).value[i] == AllPubkeys(ss).value[j] <==> ss[i] == ss[j]
  {
    KeyAt(ss, i);
    KeyAt(ss, j);
    if AllPubkeys(ss).value[i] == AllPubkeys(ss).value[j] {
      Base58.DecodeInjective(ss[i], ss[j]);
    }
  }

  /** Texts that differ stand for keys that differ: comparing the texts, as the
      browser does, is comparing the keys. */
  lemma DistinctKeys(ss: seq<string>)
    requires AllPubkeys(ss).Some?
    ensures AllDistinct(ss) <==> AllDistinct(AllPubkeys(ss).value)
  {
    forall i, j | 0 <= i < j < |ss|
      ensures AllPubkeys(ss).value[i] == AllPubkeys(ss).value[j] <==> ss[i] == ss[j]
    {
      SameKey(ss, i, j);
    }
  }

  /** The address a key is written as. */
  lemma KeyText(s: string)
    requires PubkeyBytes(s).Some?
    ensures Base58.Encode(PubkeyBytes(s).value) == s
  {
    Base58.EncodeDecode(s);
  }

  lemma {:induction false} PowGrows(base: nat, a: nat, b: nat)
    requires base >= 1 && a <= b
    ensures Pow(base, a) <= Pow(base, b)
  {
    if a < b {
      PowGrows(base, a, b - 1);
      MulMono(1, base, Pow(base, b - 1));
    }
  }

  /** A number between two neighbouring powers has a known number of digits. */
  lemma MinimalLength(base: nat, n: nat, k: nat)
    requires base >= 2 && k >= 1 && Pow(base, k - 1) <= n < Pow(base, k)
    ensures |Minimal(base, n)| == k
  {
    var d := Minimal(base, n);
    MinimalValue(base, n);
    ValueBound(base, d);
    if |d| < k {
      PowGrows(base, |d|, k - 1);
    } else if |d| > k {
      FirstDigitCounts(base, d);
      PowGrows(base, k, |d| - 1);
    }
  }

  lemma FirstDigitCounts(base: nat, d: seq<nat>)
    requires base >= 1 && d != [] && d[0] > 0
    ensures Pow(base, |d| - 1) <= Value(base, d)
  {
    assert d == [d[0]] + d[1..];
    ValueAppend(base, [d[0]], d[1..]);
    assert [d[0]][..0] == [];
    assert Value(base, [d[0]]) == d[0];
    MulMono(1, d[0], Pow(base, |d| - 1));
  }

  lemma KeyRange()
    ensures Pow(256, 31) <= 26 * Pow(58, 42) && 27 * Pow(58, 42) <= Pow(256, 32)
  {
    U64Pow();
    PowAdd(256, 8, 8);
    PowAdd(256, 16, 16);
    PowAdd(58, 3, 3);
    assert Pow(58, 3) == 195112;
    assert Pow(58, 6) == 38068692544;
    PowAdd(58, 6, 6);
    PowAdd(58, 12, 12);
    PowAdd(58, 24, 12);
    PowAdd(58, 36, 6);
    assert Pow(58, 12) == 1449225352009601191936;
    assert Pow(58, 24) == 2100254120907352485526230505830591911428096;
    assert Pow(58, 36) == 3043741517681573408154032751732621616256793128331902261559033856;
    assert Pow(58, 42) == 115871260020027757769182095419415455604368209753879122781949129969750769664;
    assert Pow(256, 16) == 0x1_0000_0000_0000_0000_0000_0000_0000_0000;
    assert Pow(256, 32) == Pow(256, 31) * 256;
  }

  lemma TokenText1()
    ensures |TOKEN_1| == 11 && Base58.InAlphabet(TOKEN_1)
  {
  }

  lemma TokenText2()
    ensures |TOKEN_2| == 11 && Base58.InAlphabet(TOKEN_2)
  {
  }

  lemma TokenText3()
    ensures |TOKEN_3| == 11 && Base58.InAlphabet(TOKEN_3)
  {
  }

  lemma TokenText4()
    ensures |TOKEN_4| == 10 && Base58.InAlphabet(TOKEN_4)
  {
  }

  lemma TokenText()
    ensures |TOKEN_PROGRAM| == 43 && Base58.InAlphabet(TOKEN_PROGRAM) && TOKEN_PROGRAM[0] == 'T'
  {
    TokenText1();
    TokenText2();
    TokenText3();
    TokenText4();
  }

  /** The token program's address is a key: the builders can succeed. */
  lemma TokenProgramIsKey()
    ensures PubkeyBytes(TOKEN_PROGRAM).Some?
  {
    var s := TOKEN_PROGRAM;
    TokenText();
    var d := Base58.ToDigits(s);
    assert d[0] == 26;
    assert d == [26] + d[1..];
    ValueAppend(58, [26], d[1..]);
    assert [26][..0] == [];
    assert Value(58, [26]) == 26;
    ValueBound(58, d[1..]);
    KeyRange();
    MinimalLength(256, Value(58, d), 32);
  }

  function TransferData(amount: nat, decimals: byte): (d: seq<byte>)
    ensures |d| == 10
  {
    [12] + Le(8, amount) + [decimals]
  }

  datatype TransferArgs = TransferArgs(
    feePayer: string, owner: string, source: string, destination: string, mint: string,
    amount: int, decimals: byte, blockhash: string)

  function TransferKeys(a: TransferArgs): seq<string> {
    [a.feePayer, a.owner, a.source, a.destination, a.mint, TOKEN_PROGRAM]
  }

  predicate TransferBuildable(a: TransferArgs) {
    && AllPubkeys(TransferKeys(a)).Some? && AllDistinct(TransferKeys(a))
    && PubkeyBytes(a.blockhash).Some? && 0 <= a.amount < U64_END
  }

  function BuildTransferChecked(a: TransferArgs): (r: Option<seq<byte>>)
    ensures r.Some? <==> TransferBuildable(a)
  {
    if !TransferBuildable(a) then None
    else
      var keys, hash := AllPubkeys(TransferKeys(a)).value, PubkeyBytes(a.blockhash).value;
      var data := TransferData(a.amount, a.decimals);
      Some([2, 1, 2] + ShortVec(|keys|) + Flat(keys) + hash
           + ShortVec(1) + [5] + ShortVec(4) + [2, 4, 3, 1] + ShortVec(|data|) + data)
  }

  datatype ClaimArgs = ClaimArgs(
    relayer: string, client: string, cosigner: string, source: string, destination: string, mint: string,
    amount: int, blockhash: string, authority: string)

  const USDC_DECIMALS: byte := 6

  function ClaimKeys(a: ClaimArgs): seq<string> {
    [a.relayer, a.client, a.cosigner, a.source, a.destination, a.mint, TOKEN_PROGRAM, a.authority]
  }

  predicate ClaimBuildable(a: ClaimArgs) {
    && AllPubkeys(ClaimKeys(a)).Some? && AllDistinct(ClaimKeys(a))
    && PubkeyBytes(a.blockhash).Some? && 0 <= a.amount < U64_END
  }

  function BuildClaim(a: ClaimArgs): (r: Option<seq<byte>>)
    ensures r.Some? <==> ClaimBuildable(a)
  {
    if !ClaimBuildable(a) then None
    else
      var keys, hash := AllPubkeys(ClaimKeys(a)).value, PubkeyBytes(a.blockhash).value;
      var data := TransferData(a.amount, USDC_DECIMALS);
      Some([3, 2, 3] + ShortVec(|keys|) + Flat(keys) + hash
           + ShortVec(1) + [6] + ShortVec(6) + [3, 5, 4, 7, 1, 2] + ShortVec(|data|) + data)
  }

  /** A message with one instruction, as the builders lay it out. */
  lemma OneInstruction(header: seq<byte>, keys: seq<Bytes32>, hash: Bytes32, program: byte, accounts: seq<byte>,
                       data: seq<byte>)
    requires |header| == 3
    ensures
      header + ShortVec(|keys|) + Flat(keys) + hash + ShortVec(1) + [program] + ShortVec(|accounts|) + accounts + ShortVec(|data|) + data
      == WriteMessage(Message(header[0], header[1], header[2], keys, hash, [Instruction(program, accounts, data)]))
  {
    var ix := Instruction(program, accounts, data);
    assert [ix][1..] == [];
    assert WriteInstructions([ix]) == WriteInstruction(ix) + [];
    assert WriteInstructions([ix]) == WriteInstruction(ix);
    assert header == [header[0], header[1], header[2]];
    Flatten(header, ShortVec(|keys|), Flat(keys), hash, ShortVec(1), [program], ShortVec(|accounts|), accounts, ShortVec(|data|), data);
  }

  lemma Flatten(a: seq<byte>, b: seq<byte>, c: seq<byte>, d: seq<byte>, e: seq<byte>, f: seq<byte>, g: seq<byte>,
                h: seq<byte>, i: seq<byte>, j: seq<byte>)
    ensures a + b + c + d + e + f + g + h + i + j == a + (b + (c + (d + (e + (f + (g + (h + (i + j))))))))
  {
    assert f + g + h + i + j == f + (g + (h + (i + j)));
  }

  /** The message of a transfer, and of a claim, with the given keys. */
  function TransferMessage(keys: seq<Bytes32>, hash: Bytes32, amount: nat, decimals: byte): Message {
    Message(2, 1, 2, keys, hash, [Instruction(5, [2, 4, 3, 1], TransferData(amount, decimals))])
  }

  function ClaimMessage(keys: seq<Bytes32>, hash: Bytes32, amount: nat): Message {
    Message(3, 2, 3, keys, hash, [Instruction(6, [3, 5, 4, 7, 1, 2], TransferData(amount, USDC_DECIMALS))])
  }

  /** Who signs a message, and which accounts it may write. */
  predicate Signs(m: Message, i: nat) {
    i < m.signers as nat
  }

  predicate Writes(m: Message, i: nat) {
    if Signs(m, i) then i + m.readonlySigned as nat < m.signers as nat else i + m.readonlyUnsigned as nat < |m.keys|
  }

  /** In a transfer keeper and payer sign, and only the keeper and the two token
      accounts can be written. */
  lemma TransferRoles(keys: seq<Bytes32>, hash: Bytes32, amount: nat, decimals: byte, i: nat)
    requires |keys| == 6 && i < 6
    ensures
      var m := TransferMessage(keys, hash, amount, decimals);
      && (Signs(m, i) <==> i < 2)
      && (Writes(m, i) <==> i in {0, 2, 3})
  {
  }

  /** In a claim relayer, client and cosigner sign, and only the relayer and the
      two token accounts can be written. */
  lemma ClaimRoles(keys: seq<Bytes32>, hash: Bytes32, amount: nat, i: nat)
    requires |keys| == 8 && i < 8
    ensures
      var m := ClaimMessage(keys, hash, amount);
      && (Signs(m, i) <==> i < 3)
      && (Writes(m, i) <==> i in {0, 3, 4})
  {
  }

  lemma TransferDataReads(amount: nat, decimals: byte)
    requires amount < U64_END
    ensures
      var d := TransferData(amount, decimals);
      d[0] == 12 && LeValue(d[1..9]) == amount && d[9] == decimals
  {
    U64Pow();
    ValueOfLe(8, amount);
    assert TransferData(amount, decimals)[1..9] == Le(8, amount);
  }

  lemma KeyTexts(ss: seq<string>)
    requires AllPubkeys(ss).Some?
    ensures forall i :: 0 <= i < |ss| ==> Base58.Encode(AllPubkeys(ss).value[i]) == ss[i]
  {
    forall i | 0 <= i < |ss| ensures Base58.Encode(AllPubkeys(ss).value[i]) == ss[i] {
      KeyAt(ss, i);
      KeyText(ss[i]);
    }
  }

  lemma TransferBytes(a: TransferArgs, keys: seq<Bytes32>, hash: Bytes32)
    requires TransferBuildable(a) && AllPubkeys(TransferKeys(a)) == Some(keys) && PubkeyBytes(a.blockhash) == Some(hash)
    ensures BuildTransferChecked(a) == Some(WriteMessage(TransferMessage(keys, hash, a.amount, a.decimals)))
  {
    OneInstruction([2, 1, 2], keys, hash, 5, [2, 4, 3, 1], TransferData(a.amount, a.decimals));
  }

  lemma ClaimBytes(a: ClaimArgs, keys: seq<Bytes32>, hash: Bytes32)
    requires ClaimBuildable(a) && AllPubkeys(ClaimKeys(a)) == Some(keys) && PubkeyBytes(a.blockhash) == Some(hash)
    ensures BuildClaim(a) == Some(WriteMessage(ClaimMessage(keys, hash, a.amount)))
  {
    OneInstruction([3, 2, 3], keys, hash, 6, [3, 5, 4, 7, 1, 2], TransferData(a.amount, USDC_DECIMALS));
  }

  /** Every byte string the transfer builder makes reads back as its inputs,
      whatever stands behind it. */
  lemma TransferRecovered(a: TransferArgs, tail: seq<byte>) returns (keys: seq<Bytes32>, hash: Bytes32)
    requires BuildTransferChecked(a).Some?
    ensures ReadMessage(BuildTransferChecked(a).value + tail) == Got(TransferMessage(keys, hash, a.amount, a.decimals), tail)
    ensures |keys| == 6 && AllDistinct(keys)
    ensures forall i :: 0 <= i < 6 ==> Base58.Encode(keys[i]) == TransferKeys(a)[i]
    ensures Base58.Encode(hash) == a.blockhash
    ensures LeValue(TransferData(a.amount, a.decimals)[1..9]) == a.amount
    ensures TransferData(a.amount, a.decimals)[9] == a.decimals
  {
    keys, hash := AllPubkeys(TransferKeys(a)).value, PubkeyBytes(a.blockhash).value;
    TransferBytes(a, keys, hash);
    ReadMessageWrite(TransferMessage(keys, hash, a.amount, a.decimals), tail);
    DistinctKeys(TransferKeys(a));
    KeyTexts(TransferKeys(a));
    KeyText(a.blockhash);
    TransferDataReads(a.amount, a.decimals);
  }

  lemma ClaimRecovered(a: ClaimArgs, tail: seq<byte>) returns (keys: seq<Bytes32>, hash: Bytes32)
    requires BuildClaim(a).Some?
    ensures ReadMessage(BuildClaim(a).value + tail) == Got(ClaimMessage(keys, hash, a.amount), tail)
    ensures |keys| == 8 && AllDistinct(keys)
    ensures forall i :: 0 <= i < 8 ==> Base58.Encode(keys[i]) == ClaimKeys(a)[i]
    ensures Base58.Encode(hash) == a.blockhash
    ensures LeValue(TransferData(a.amount, USDC_DECIMALS)[1..9]) == a.amount
  {
    keys, hash := AllPubkeys(ClaimKeys(a)).value, PubkeyBytes(a.blockhash).value;
    ClaimBytes(a, keys, hash);
    ReadMessageWrite(ClaimMessage(keys, hash, a.amount), tail);
    DistinctKeys(ClaimKeys(a));
    KeyTexts(ClaimKeys(a));
    KeyText(a.blockhash);
    TransferDataReads(a.amount, USDC_DECIMALS);
  }

  lemma TextIsKey(key: Bytes32)
    ensures PubkeyBytes(Base58.Encode(key)) == Some(key)
  {
    Base58.DecodeEncode(key);
  }

  /** The addresses keys are written as. */
  function TextsOf(keys: seq<Bytes32>): (r: seq<string>)
    ensures |r| == |keys|
  {
    if keys == [] then []
    else TextsOf(keys[..|keys| - 1]) + [Base58.Encode(keys[|keys| - 1])]
  }

  lemma {:induction false} TextAt(keys: seq<Bytes32>, i: nat)
    requires i < |keys|
    ensures TextsOf(keys)[i] == Base58.Encode(keys[i])
  {
    if i < |keys| - 1 {
      TextAt(keys[..|keys| - 1], i);
    }
  }

  lemma AllKnown<T>(xs: seq<Option<T>>, vs: seq<T>)
    requires |xs| == |vs| && forall i :: 0 <= i < |xs| ==> xs[i] == Some(vs[i])
    ensures AllSome(xs) == Some(vs)
  {
    var r := AllSome(xs);
    assert r.Some?;
    forall i | 0 <= i < |vs| ensures r.value[i] == vs[i] {
      assert xs[i] == Some(r.value[i]);
    }
    assert r.value == vs;
  }

  lemma KeyBack(keys: seq<Bytes32>, i: nat)
    requires i < |keys|
    ensures KeysOf(TextsOf(keys))[i] == Some(keys[i])
  {
    TextAt(keys, i);
    KeyAt(TextsOf(keys), i);
    TextIsKey(keys[i]);
  }

  /** Addresses written from keys are read as those keys. */
  lemma TextsKnown(keys: seq<Bytes32>)
    ensures AllPubkeys(TextsOf(keys)) == Some(keys)
  {
    forall i | 0 <= i < |keys| ensures KeysOf(TextsOf(keys))[i] == Some(keys[i]) {
      KeyBack(keys, i);
    }
    AllKnown(KeysOf(TextsOf(keys)), keys);
  }

  /** The texts of different keys, written the way keys are. */
  ghost predicate TextsOfKeys(ss: seq<string>) {
    exists keys: seq<Bytes32> :: ss == TextsOf(keys) && AllDistinct(keys)
  }

  lemma KeysIff(ss: seq<string>)
    ensures AllPubkeys(ss).Some? && AllDistinct(ss) <==> TextsOfKeys(ss)
  {
    if AllPubkeys(ss).Some? {
      var keys := AllPubkeys(ss).value;
      DistinctKeys(ss);
      KeyTexts(ss);
      forall i | 0 <= i < |ss| ensures ss[i] == TextsOf(keys)[i] {
        TextAt(keys, i);
      }
      assert ss == TextsOf(keys);
    }
    if keys: seq<Bytes32> :| ss == TextsOf(keys) && AllDistinct(keys) {
      TextsKnown(keys);
      DistinctKeys(ss);
    }
  }

  lemma HashIff(s: string)
    ensures PubkeyBytes(s).Some? <==> exists hash: Bytes32 :: s == Base58.Encode(hash)
  {
    if PubkeyBytes(s).Some? {
      KeyText(s);
    }
    if hash: Bytes32 :| s == Base58.Encode(hash) {
      TextIsKey(hash);
    }
  }

  /** A transfer is built exactly when its six addresses are the texts of six
      different keys, its blockhash that of 32 bytes, and its amount has 64 bits. */
  lemma TransferBuildsIff(a: TransferArgs)
    ensures BuildTransferChecked(a).Some? <==>
      TextsOfKeys(TransferKeys(a)) && (exists hash: Bytes32 :: a.blockhash == Base58.Encode(hash)) && 0 <= a.amount < U64_END
  {
    KeysIff(TransferKeys(a));
    HashIff(a.blockhash);
  }

  /** The same for the eight addresses of a claim. */
  lemma ClaimBuildsIff(a: ClaimArgs)
    ensures BuildClaim(a).Some? <==>
      TextsOfKeys(ClaimKeys(a)) && (exists hash: Bytes32 :: a.blockhash == Base58.Encode(hash)) && 0 <= a.amount < U64_END
  {
    KeysIff(ClaimKeys(a));
    HashIff(a.blockhash);
  }

  lemma TransferBuilds(a: TransferArgs, keys: seq<Bytes32>, hash: Bytes32)
    requires AllPubkeys(TransferKeys(a)) == Some(keys) && AllDistinct(keys)
    requires PubkeyBytes(a.blockhash) == Some(hash) && 0 <= a.amount < U64_END
    ensures BuildTransferChecked(a) == Some(WriteMessage(TransferMessage(keys, hash, a.amount, a.decimals)))
  {
    DistinctKeys(TransferKeys(a));
    TransferBytes(a, keys, hash);
  }

  lemma ClaimBuilds(a: ClaimArgs, keys: seq<Bytes32>, hash: Bytes32)
    requires AllPubkeys(ClaimKeys(a)) == Some(keys) && AllDistinct(keys)
    requires PubkeyBytes(a.blockhash) == Some(hash) && 0 <= a.amount < U64_END
    ensures BuildClaim(a) == Some(WriteMessage(ClaimMessage(keys, hash, a.amount)))
  {
    DistinctKeys(ClaimKeys(a));
    ClaimBytes(a, keys, hash);
  }

  /** Any six distinct keys ending in the token program, any blockhash and any
      64-bit amount can be built, and make exactly this message. */
  lemma EveryTransferBuilds(keys: seq<Bytes32>, hash: Bytes32, amount: nat, decimals: byte) returns (a: TransferArgs)
    requires |keys| == 6 && AllDistinct(keys) && Base58.Encode(keys[5]) == TOKEN_PROGRAM && amount < U64_END
    ensures a.amount == amount && a.decimals == decimals
    ensures BuildTransferChecked(a) == Some(WriteMessage(TransferMessage(keys, hash, amount, decimals)))
  {
    var t := TextsOf(keys);
    a := TransferArgs(t[0], t[1], t[2], t[3], t[4], amount, decimals, Base58.Encode(hash));
    TextAt(keys, 5);
    assert TransferKeys(a) == t;
    TextsKnown(keys);
    TextIsKey(hash);
    TransferBuilds(a, keys, hash);
  }

  /** The same for the eight keys of a claim. */
  lemma EveryClaimBuilds(keys: seq<Bytes32>, hash: Bytes32, amount: nat) returns (a: ClaimArgs)
    requires |keys| == 8 && AllDistinct(keys) && Base58.Encode(keys[6]) == TOKEN_PROGRAM && amount < U64_END
    ensures a.amount == amount
    ensures BuildClaim(a) == Some(WriteMessage(ClaimMessage(keys, hash, amount)))
  {
    var t := TextsOf(keys);
    a := ClaimArgs(t[0], t[1], t[2], t[3], t[4], t[5], amount, Base58.Encode(hash), t[7]);
    TextAt(keys, 6);
    assert ClaimKeys(a) == t;
    TextsKnown(keys);
    TextIsKey(hash);
    ClaimBuilds(a, keys, hash);
  }

  // ---- transactions: signature slots in front of a message ----------------------------

  const WORD: nat := 0x1_0000_0000

  /** Bitwise or. */
  function Or(a: nat, b: nat): nat {
    if a == 0 && b == 0 then 0
    else Or(a / 2, b / 2) * 2 + if a % 2 == 1 || b % 2 == 1 then 1 else 0
  }

  lemma {:induction false} OrZero(b: nat)
    ensures Or(0, b) == b
  {
    if b != 0 {
      OrZero(b / 2);
    }
  }

  /** Bits that do not overlap just add up. */
  lemma {:induction false} OrDisjoint(a: nat, x: nat, s: nat)
    requires a < Pow(2, s)
    ensures Or(a, x * Pow(2, s)) == a + x * Pow(2, s)
  {
    if s == 0 {
      OrZero(x);
    } else {
      var half := x * Pow(2, s - 1);
      MulAssoc(x, Pow(2, s - 1), 2);
      LessDiv(2, a, Pow(2, s - 1));
      OrDisjoint(a / 2, x, s - 1);
      assert x * Pow(2, s) == half * 2;
    }
  }

  lemma {:induction false} OrBound(a: nat, b: nat, s: nat)
    requires a < Pow(2, s) && b < Pow(2, s)
    ensures Or(a, b) < Pow(2, s)
  {
    if s > 0 {
      LessDiv(2, a, Pow(2, s - 1));
      LessDiv(2, b, Pow(2, s - 1));
      OrBound(a / 2, b / 2, s - 1);
    }
  }

  /** The script's 32-bit `<<`: the count is taken modulo 32, high bits drop. */
  function ShiftLeft(v: nat, shift: nat): (r: nat)
    ensures r < WORD
  {
    v * Pow(2, shift % 32) % WORD
  }

  function Signed(n: nat): int {
    if n < 0x8000_0000 then n else n - WORD
  }

  lemma WordPow()
    ensures Pow(2, 32) == WORD
  {
    PowAdd(2, 8, 8);
    PowAdd(2, 16, 16);
    assert Pow(2, 4) == 16;
    assert Pow(2, 8) == Pow(2, 7) * 2 == 256;
    assert Pow(2, 16) == 65536;
  }

  function Gather(n: nat, b: byte, shift: nat): (r: nat)
    requires n < WORD
    ensures r < WORD
  {
    WordPow();
    OrBound(n, ShiftLeft(b % 128, shift), 32);
    Or(n, ShiftLeft(b % 128, shift))
  }

  /** Where the count ends and what it is, as an unsigned 32-bit word. */
  function Count(bytes: seq<byte>, i: nat, n: nat, shift: nat): (r: Option<(nat, nat)>)
    requires i <= |bytes| && n < WORD
    ensures r.Some? ==> i < r.value.0 <= |bytes| && r.value.1 < WORD
    decreases |bytes| - i
  {
    if i == |bytes| then None
    else
      var n' := Gather(n, bytes[i], shift);
      if bytes[i] < 128 then Some((i + 1, n')) else Count(bytes, i + 1, n', shift + 7)
  }

  /** `slice(start)`: a negative start counts from the end. */
  function SliceFrom(bytes: seq<byte>, start: int): seq<byte> {
    if start >= |bytes| then []
    else if start >= 0 then bytes[start..]
    else if start + |bytes| >= 0 then bytes[start + |bytes|..]
    else bytes
  }

  datatype Transaction = Transaction(signatures: seq<seq<byte>>, message: seq<byte>)

  /** `k` slots of 64 bytes. */
  function Slots(bytes: seq<byte>, i: nat, k: nat): (r: seq<seq<byte>>)
    requires i + 64 * k <= |bytes|
    ensures |r| == k && forall j :: 0 <= j < k ==> r[j] == bytes[i + 64 * j..i + 64 * (j + 1)]
  {
    seq(k, j requires 0 <= j < k => bytes[i + 64 * j..i + 64 * (j + 1)])
  }

  function ParseTransaction(bytes: seq<byte>): Option<Transaction> {
    match Count(bytes, 0, 0, 0)
    case None => None
    case Some((i, w)) =>
      var n := Signed(w);
      if i + n * 64 > |bytes| then None
      else Some(Transaction(if n < 0 then [] else Slots(bytes, i, n), SliceFrom(bytes, i + n * 64)))
  }

  lemma SlotsAre(bytes: seq<byte>, i: nat, k: nat, s: seq<seq<byte>>)
    requires i + 64 * k <= |bytes| && |s| == k
    requires forall j :: 0 <= j < k ==> s[j] == bytes[i + 64 * j..i + 64 * (j + 1)]
    ensures s == Slots(bytes, i, k)
  {
  }

  method Parse(bytes: seq<byte>) returns (r: Option<Transaction>)
    ensures r == ParseTransaction(bytes)
  {
    var n: nat := 0;
    var shift: nat := 0;
    var i: nat := 0;
    while true
      invariant i <= |bytes| && n < WORD
      invariant Count(bytes, i, n, shift) == Count(bytes, 0, 0, 0)
      decreases |bytes| - i
    {
      if i == |bytes| {
        return None;
      }
      var b := bytes[i];
      i := i + 1;
      n := Gather(n, b, shift);
      if b < 128 {
        break;
      }
      shift := shift + 7;
    }
    var count := Signed(n);
    if i + count * 64 > |bytes| {
      return None;
    }
    var signatures: seq<seq<byte>> := [];
    var k := 0;
    while k < count
      invariant 0 <= k && (count >= 0 ==> k <= count) && (count < 0 ==> k == 0)
      invariant |signatures| == k
      invariant forall j :: 0 <= j < k ==> signatures[j] == bytes[i + 64 * j..i + 64 * (j + 1)]
    {
      signatures := signatures + [bytes[i + k * 64..i + (k + 1) * 64]];
      k := k + 1;
    }
    if count >= 0 {
      SlotsAre(bytes, i, count, signatures);
    }
    r := Some(Transaction(signatures, SliceFrom(bytes, i + count * 64)));
  }

  function UnsignedTransaction(message: seq<byte>, signers: nat): seq<byte> {
    ShortVec(signers) + Zeros(64 * signers) + message
  }

  lemma Shifts(j: nat)
    requires j < 5
    ensures Pow(2, 7 * j) == if j == 0 then 1 else if j == 1 then 128 else if j == 2 then 16384
      else if j == 3 then 2097152 else 268435456
  {
    assert Pow(2, 7) == Pow(2, 6) * 2 == 128;
    PowAdd(2, 7, 7);
    PowAdd(2, 14, 7);
    PowAdd(2, 21, 7);
  }

  lemma ShiftSmall(v: nat, s: nat)
    requires s < 32 && v * Pow(2, s) < WORD
    ensures ShiftLeft(v, s) == v * Pow(2, s)
  {
    var shift := s % 32;
    assert shift == s;
    SmallWord(v * Pow(2, shift));
  }

  lemma SmallWord(n: nat)
    requires n < WORD
    ensures n % WORD == n
  {
  }

  lemma NextShift(j: nat)
    requires j < 4
    ensures Pow(2, 7 * (j + 1)) == 128 * Pow(2, 7 * j)
  {
    Shifts(j);
    Shifts(j + 1);
  }

  lemma DigitFits(n: nat, x: nat, p: nat)
    requires n < p && x < 128
    ensures n + x * p < 128 * p
  {
    MulMono(x, 127, p);
  }

  lemma GatherDigit(n: nat, b: byte, j: nat)
    requires j < 5 && n < Pow(2, 7 * j) && n + b % 128 * Pow(2, 7 * j) < 0x8000_0000
    ensures Gather(n, b, 7 * j) == n + b % 128 * Pow(2, 7 * j)
    ensures j < 4 ==> Gather(n, b, 7 * j) < Pow(2, 7 * (j + 1))
  {
    ShiftSmall(b % 128, 7 * j);
    OrDisjoint(n, b % 128, 7 * j);
    DigitFits(n, b % 128, Pow(2, 7 * j));
    if j < 4 {
      NextShift(j);
    }
  }

  lemma Carry(m: nat, j: nat)
    requires j < 5 && m >= 128 && m * Pow(2, 7 * j) < 0x8000_0000
    ensures j < 4
    ensures m % 128 * Pow(2, 7 * j) + m / 128 * Pow(2, 7 * (j + 1)) == m * Pow(2, 7 * j)
  {
    Shifts(j);
    Split(128, m);
    if j < 4 {
      Shifts(j + 1);
    }
  }

  /** One byte of the count is taken in; what is left moves up seven bits. */
  lemma GatherStep(n: nat, m: nat, b: byte, j: nat) returns (n': nat)
    requires j < 5 && n < Pow(2, 7 * j) && n + m * Pow(2, 7 * j) < 0x8000_0000
    requires b % 128 == m % 128
    ensures n' == Gather(n, b, 7 * j)
    ensures m < 128 ==> n' == n + m * Pow(2, 7 * j)
    ensures m >= 128 ==>
      j < 4 && n' < Pow(2, 7 * (j + 1)) && n' + m / 128 * Pow(2, 7 * (j + 1)) == n + m * Pow(2, 7 * j)
  {
    MulMono(m % 128, m, Pow(2, 7 * j));
    GatherDigit(n, b, j);
    n' := Gather(n, b, 7 * j);
    if m >= 128 {
      Carry(m, j);
    }
  }

  lemma ShortHead(m: nat) returns (b: byte, more: seq<byte>)
    ensures ShortVec(m) == [b] + more && b % 128 == m % 128 && (b < 128 <==> m < 128)
    ensures more == if m < 128 then [] else ShortVec(m / 128)
  {
    b, more := ShortVec(m)[0], ShortVec(m)[1..];
  }

  lemma Resplit(before: seq<byte>, b: byte, more: seq<byte>, tail: seq<byte>)
    ensures before + ([b] + more) + tail == before + [b] + more + tail
    ensures (before + ([b] + more) + tail)[|before|] == b
  {
    assert before + ([b] + more) == before + [b] + more;
  }

  lemma CountStep(bytes: seq<byte>, i: nat, n: nat, shift: nat, b: byte)
    requires i < |bytes| && bytes[i] == b && n < WORD
    ensures Count(bytes, i, n, shift) ==
      if b < 128 then Some((i + 1, Gather(n, b, shift))) else Count(bytes, i + 1, Gather(n, b, shift), shift + 7)
  {
  }

  /** The first byte of a count, and what is left of it. */
  lemma CountHead(before: seq<byte>, m: nat, tail: seq<byte>, n: nat, j: nat) returns (b: byte, n': nat)
    requires j < 5 && n < Pow(2, 7 * j) && n + m * Pow(2, 7 * j) < 0x8000_0000
    ensures m < 128 ==>
      Count(before + ShortVec(m) + tail, |before|, n, 7 * j) == Some((|before| + |ShortVec(m)|, n + m * Pow(2, 7 * j)))
    ensures m >= 128 ==>
      && j < 4 && n' < Pow(2, 7 * (j + 1)) && n' + m / 128 * Pow(2, 7 * (j + 1)) == n + m * Pow(2, 7 * j)
      && |ShortVec(m)| == 1 + |ShortVec(m / 128)|
      && Count(before + ShortVec(m) + tail, |before|, n, 7 * j)
         == Count(before + [b] + ShortVec(m / 128) + tail, |before| + 1, n', 7 * (j + 1))
  {
    var more;
    b, more := ShortHead(m);
    Resplit(before, b, more, tail);
    CountStep(before + ShortVec(m) + tail, |before|, n, 7 * j, b);
    n' := GatherStep(n, m, b, j);
  }

  /** The script reads back any count it writes: `m` is what is left of it. */
  lemma {:induction false} CountReads(before: seq<byte>, m: nat, tail: seq<byte>, n: nat, j: nat)
    requires j < 5 && n < Pow(2, 7 * j) && n + m * Pow(2, 7 * j) < 0x8000_0000
    ensures Count(before + ShortVec(m) + tail, |before|, n, 7 * j)
      == Some((|before| + |ShortVec(m)|, n + m * Pow(2, 7 * j)))
    decreases m
  {
    var b, n' := CountHead(before, m, tail, n, j);
    if m >= 128 {
      CountReads(before + [b], m / 128, tail, n', j + 1);
    }
  }

  /** Slots cut out of zeros are zeros. */
  lemma EmptySlots(before: seq<byte>, n: nat, after: seq<byte>)
    ensures Slots(before + Zeros(64 * n) + after, |before|, n) == seq(n, _ => Zeros(64))
  {
    var bytes, slots, i := before + Zeros(64 * n) + after, Zeros(64 * n), |before|;
    forall j | 0 <= j < n ensures Slots(bytes, i, n)[j] == Zeros(64) {
      assert bytes[i + 64 * j..i + 64 * (j + 1)] == slots[64 * j..64 * (j + 1)];
    }
  }

  lemma UnsignedCount(message: seq<byte>, signers: nat)
    requires signers < 0x8000_0000
    ensures Count(UnsignedTransaction(message, signers), 0, 0, 0) == Some((|ShortVec(signers)|, signers))
  {
    assert Pow(2, 0) == 1;
    CountReads([], signers, Zeros(64 * signers) + message, 0, 0);
    assert [] + ShortVec(signers) + (Zeros(64 * signers) + message) == UnsignedTransaction(message, signers);
  }

  /** As many empty slots as asked for, and the message untouched. */
  lemma ParseUnsigned(message: seq<byte>, signers: nat)
    requires signers < 0x8000_0000
    ensures ParseTransaction(UnsignedTransaction(message, signers)) == Some(Transaction(seq(signers, _ => Zeros(64)), message))
  {
    var bytes := UnsignedTransaction(message, signers);
    UnsignedCount(message, signers);
    EmptySlots(ShortVec(signers), signers, message);
    assert bytes[|ShortVec(signers)| + 64 * signers..] == message;
  }

  function Joined(parts: seq<seq<byte>>): seq<byte> {
    if parts == [] then [] else Joined(parts[..|parts| - 1]) + parts[|parts| - 1]
  }

  lemma {:induction false} SlotsJoin(bytes: seq<byte>, i: nat, k: nat)
    requires i + 64 * k <= |bytes|
    ensures Joined(Slots(bytes, i, k)) == bytes[i..i + 64 * k]
  {
    if k > 0 {
      SlotsJoin(bytes, i, k - 1);
      assert Slots(bytes, i, k)[..k - 1] == Slots(bytes, i, k - 1);
    }
  }

  lemma InThree(bytes: seq<byte>, i: nat, j: nat)
    requires i <= j <= |bytes|
    ensures bytes == bytes[..i] + bytes[i..j] + bytes[j..]
  {
  }

  lemma AllOfIt(bytes: seq<byte>, i: nat, n: nat)
    requires i + 64 * n <= |bytes|
    ensures bytes == bytes[..i] + Joined(Slots(bytes, i, n)) + SliceFrom(bytes, i + 64 * n)
  {
    var j := i + 64 * n;
    SlotsJoin(bytes, i, n);
    InThree(bytes, i, j);
    assert SliceFrom(bytes, j) == bytes[j..];
  }

  /** Whatever is parsed, with a count that is not negative, loses no byte:
      count, slots of 64 bytes and message are all of the input. */
  lemma ParseLossless(bytes: seq<byte>, t: Transaction)
    requires ParseTransaction(bytes) == Some(t)
    ensures
      var count := Count(bytes, 0, 0, 0);
      && count.Some?
      && (forall k :: 0 <= k < |t.signatures| ==> |t.signatures[k]| == 64)
      && (Signed(count.value.1) >= 0 ==>
            |t.signatures| == Signed(count.value.1) && bytes == bytes[..count.value.0] + Joined(t.signatures) + t.message)
  {
    var count := Count(bytes, 0, 0, 0).value;
    if Signed(count.1) >= 0 {
      AllOfIt(bytes, count.0, Signed(count.1));
    }
  }
}
