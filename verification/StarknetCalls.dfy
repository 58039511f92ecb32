/** Felt encodings that go into Starknet transaction hashes: the flattened call
    list of `__execute__` and the packed resource bounds. */
module StarknetCalls {
  import opened Wrappers
  import opened Positional
  import opened Hex
  import opened Routes
  import SolanaWire

  datatype Call = Call(to: nat, selector: nat, calldata: seq<nat>)

  // ---- the call list ------------------------------------------------------------

  function Flatten(calls: seq<Call>): seq<nat> {
    if calls == [] then []
    else
      var c := calls[0];
      [c.to, c.selector, |c.calldata|] + c.calldata + Flatten(calls[1..])
  }

  /** [count, (to, selector, length, ...data)*]. */
  function EncodeCalls(calls: seq<Call>): seq<nat> {
    [|calls|] + Flatten(calls)
  }

  lemma {:induction false} FlattenNext(calls: seq<Call>, c: Call)
    ensures Flatten(calls + [c]) == Flatten(calls) + [c.to, c.selector, |c.calldata|] + c.calldata
  {
    if calls == [] {
      assert [c][1..] == [];
      assert Flatten([c]) == [c.to, c.selector, |c.calldata|] + c.calldata + Flatten([]);
    } else {
      assert (calls + [c])[1..] == calls[1..] + [c];
      FlattenNext(calls[1..], c);
    }
  }

  method EncodeCallsForExecute(calls: seq<Call>) returns (out: seq<nat>)
    ensures out == EncodeCalls(calls)
  {
    out := [|calls|];
    for i := 0 to |calls|
      invariant out == [|calls|] + Flatten(calls[..i])
    {
      var c := calls[i];
      FlattenNext(calls[..i], c);
      assert calls[..i + 1] == calls[..i] + [c];
      out := out + [c.to];
      out := out + [c.selector];
      out := out + [|c.calldata|];
      out := out + c.calldata;
    }
    assert calls[..|calls|] == calls;
  }

  /** Reading `n` calls off a flat list, and what is left of it. */
  function ReadCalls(n: nat, f: seq<nat>): Option<(seq<Call>, seq<nat>)> {
    if n == 0 then Some(([], f))
    else if |f| < 3 || |f| < 3 + f[2] then None
    else
      match ReadCalls(n - 1, f[3 + f[2]..])
      case None => None
      case Some((calls, rest)) => Some(([Call(f[0], f[1], f[3..3 + f[2]])] + calls, rest))
  }

  function DecodeCalls(f: seq<nat>): Option<seq<Call>> {
    if f == [] then None
    else
      match ReadCalls(f[0], f[1..])
      case None => None
      case Some((calls, rest)) => if rest == [] then Some(calls) else None
  }

  /** The pieces of a list that starts with one call. */
  lemma CutCall(c: Call, more: seq<nat>)
    ensures
      var f := [c.to, c.selector, |c.calldata|] + c.calldata + more;
      && |f| >= 3 + |c.calldata| && f[0] == c.to && f[1] == c.selector && f[2] == |c.calldata|
      && f[3..3 + |c.calldata|] == c.calldata && f[3 + |c.calldata|..] == more
  {
  }

  lemma {:induction false} ReadFlatten(calls: seq<Call>, rest: seq<nat>)
    ensures ReadCalls(|calls|, Flatten(calls) + rest) == Some((calls, rest))
  {
    if calls == [] {
      assert Flatten(calls) + rest == rest;
    } else {
      var c := calls[0];
      var more := Flatten(calls[1..]) + rest;
      assert Flatten(calls) + rest == [c.to, c.selector, |c.calldata|] + c.calldata + more;
      CutCall(c, more);
      ReadFlatten(calls[1..], rest);
      assert [c] + calls[1..] == calls;
    }
  }

  /** The flat list determines the calls. */
  lemma CallsDecode(calls: seq<Call>)
    ensures DecodeCalls(EncodeCalls(calls)) == Some(calls)
  {
    ReadFlatten(calls, []);
    assert Flatten(calls) + [] == Flatten(calls);
    assert EncodeCalls(calls)[1..] == Flatten(calls);
  }

  lemma JoinCall(f: seq<nat>, calls: seq<Call>, rest: seq<nat>)
    requires |f| >= 3 && |f| >= 3 + f[2] && f[3 + f[2]..] == Flatten(calls) + rest
    ensures f == Flatten([Call(f[0], f[1], f[3..3 + f[2]])] + calls) + rest
  {
    var c := Call(f[0], f[1], f[3..3 + f[2]]);
    assert ([c] + calls)[1..] == calls;
    assert f == [f[0], f[1], f[2]] + c.calldata + f[3 + f[2]..];
  }

  lemma {:induction false} ReadExact(n: nat, f: seq<nat>)
    ensures
      var r := ReadCalls(n, f);
      r.Some? ==> |r.value.0| == n && f == Flatten(r.value.0) + r.value.1
  {
    if n > 0 && |f| >= 3 && |f| >= 3 + f[2] {
      var rest := f[3 + f[2]..];
      ReadExact(n - 1, rest);
      var tail := ReadCalls(n - 1, rest);
      if tail.Some? {
        JoinCall(f, tail.value.0, tail.value.1);
      }
    }
  }

  /** And nothing but an encoding decodes. */
  lemma CallsExact(f: seq<nat>, calls: seq<Call>)
    requires DecodeCalls(f) == Some(calls)
    ensures f == EncodeCalls(calls)
  {
    ReadExact(f[0], f[1..]);
    assert f == [f[0]] + f[1..];
  }

  // ---- the browser's transfer -----------------------------------------------------

  /** A felt as text, or an error outside the field. */
  function Felt(n: nat): Option<string> {
    if n < STARK_PRIME then Some("0x" + ToHex(n)) else None
  }

  /** The hand-built calldata of one token transfer; `to` is a canonical address. */
  function TransferCalldata(usdc: nat, selector: nat, to: string, balance: nat): Option<seq<string>> {
    if balance == 0 then None
    else
      match (Felt(balance % MASK_END), Felt(balance / MASK_END), Felt(usdc), Felt(selector))
      case (Some(low), Some(high), Some(u), Some(s)) => Some(["0x1", u, s, "0x3", to, low, high])
      case _ => None
  }

  lemma FeltReads(n: nat)
    ensures Felt(n).Some? ==> IsNumber(Felt(n).value) && JsNumber(Felt(n).value) == n
  {
    ToHexValue(n);
    assert ("0x" + ToHex(n))[2..] == ToHex(n);
  }

  lemma SmallReads()
    ensures IsNumber("0x1") && JsNumber("0x1") == 1 && IsNumber("0x3") && JsNumber("0x3") == 3
  {
    assert "0x1"[2..] == "1" && "0x3"[2..] == "3";
    assert Nibbles("1") == [1] && Nibbles("3") == [3];
    assert [1][..0] == [] && [3][..0] == [];
    assert Value(16, [1]) == 1 && Value(16, [3]) == 3;
  }

  lemma OneCall(usdc: nat, selector: nat, x: nat, y: nat, z: nat)
    ensures EncodeCalls([Call(usdc, selector, [x, y, z])]) == [1, usdc, selector, 3, x, y, z]
  {
    var c := Call(usdc, selector, [x, y, z]);
    assert [c][1..] == [];
    assert Flatten([c]) == [usdc, selector, 3] + c.calldata + Flatten([]);
  }

  lemma AddressReads(v: string, to: string) returns (n: nat)
    requires CanonicalFelt(v) == Some(to)
    ensures Stands(to, n)
  {
    var r := FeltRecipient(v, to);
    EncodeValue(r);
    n := Number(r);
    assert to[2..] == Encode(r);
  }

  /** A list of texts and the felts they stand for. */
  ghost predicate StandFor(texts: seq<string>, felts: seq<nat>) {
    |texts| == |felts| && forall i :: 0 <= i < |texts| ==> Stands(texts[i], felts[i])
  }

  ghost predicate Stands(s: string, n: nat) {
    IsNumber(s) && JsNumber(s) == n
  }

  lemma SevenStand(a: string, b: string, c: string, d: string, e: string, f: string, g: string,
                   i: nat, j: nat, k: nat, l: nat, m: nat, n: nat, o: nat)
    requires Stands(a, i) && Stands(b, j) && Stands(c, k) && Stands(d, l) && Stands(e, m) && Stands(f, n) && Stands(g, o)
    ensures StandFor([a, b, c, d, e, f, g], [i, j, k, l, m, n, o])
  {
  }

  /** The browser's literal is the encoding of one transfer call, felt for felt,
      and the two amount words make up the balance. */
  lemma TransferIsOneCall(usdc: nat, selector: nat, v: string, to: string, balance: nat, texts: seq<string>)
    returns (recipient: nat)
    requires CanonicalFelt(v) == Some(to) && TransferCalldata(usdc, selector, to, balance) == Some(texts)
    ensures Stands(to, recipient)
    ensures StandFor(texts, EncodeCalls([Call(usdc, selector, [recipient, balance % MASK_END, balance / MASK_END])]))
    ensures balance % MASK_END + balance / MASK_END * MASK_END == balance
  {
    recipient := AddressReads(v, to);
    FeltReads(usdc);
    FeltReads(selector);
    FeltReads(balance % MASK_END);
    FeltReads(balance / MASK_END);
    SmallReads();
    Split(MASK_END, balance);
    var low, high := balance % MASK_END, balance / MASK_END;
    SevenStand("0x1", Felt(usdc).value, Felt(selector).value, "0x3", to, Felt(low).value, Felt(high).value,
               1, usdc, selector, 3, recipient, low, high);
    OneCall(usdc, selector, recipient, balance % MASK_END, balance / MASK_END);
  }

  // ---- resource bounds ----------------------------------------------------------------

  const NAME_L1_GAS: nat := 0x4c31_5f47_4153
  const NAME_L2_GAS: nat := 0x4c32_5f47_4153
  const NAME_L1_DATA: nat := 0x4c_315f_4441_5441
  const U64_END: nat := 0x1_0000_0000_0000_0000
  const U128_END: nat := 0x1_0000_0000_0000_0000_0000_0000_0000_0000
  const NAME_END: nat := 0x800_0000_0000_0011   // names below it leave room in the field

  function BoundBytes(name: nat, amount: nat, price: nat): seq<nat> {
    Fixed(256, 8, name) + Fixed(256, 8, amount) + Fixed(256, 16, price)
  }

  /** Thirty-two big-endian bytes, read as a felt. */
  function PackBound(name: nat, amount: nat, price: nat): nat {
    Value(256, BoundBytes(name, amount, price)) % STARK_PRIME
  }

  method PackBoundBytes(name: nat, maxAmount: nat, maxPrice: nat) returns (felt: nat)
    requires name < U64_END && maxAmount < U64_END && maxPrice < U128_END
    ensures felt == PackBound(name, maxAmount, maxPrice)
  {
    var bytes := new nat[32](_ => 0);
    var n, a, p := Fixed(256, 8, name), Fixed(256, 8, maxAmount), Fixed(256, 16, maxPrice);
    forall i | 0 <= i < 8 {
      bytes[i] := n[i];
    }
    forall i | 8 <= i < 16 {
      bytes[i] := a[i - 8];
    }
    forall i | 16 <= i < 32 {
      bytes[i] := p[i - 16];
    }
    assert bytes[..] == n + a + p;
    felt := Value(256, bytes[..]) % STARK_PRIME;
  }

  lemma Widths()
    ensures Pow(256, 8) == U64_END && Pow(256, 16) == U128_END
  {
    SolanaWire.U64Pow();
    PowAdd(256, 8, 8);
  }

  lemma BoundValue(name: nat, amount: nat, price: nat)
    requires name < U64_END && amount < U64_END && price < U128_END
    ensures Value(256, BoundBytes(name, amount, price)) == (name * U64_END + amount) * U128_END + price
  {
    Widths();
    FixedValue(256, 8, name);
    FixedValue(256, 8, amount);
    FixedValue(256, 16, price);
    var n, a, p := Fixed(256, 8, name), Fixed(256, 8, amount), Fixed(256, 16, price);
    ValueAppend(256, n, a);
    ValueAppend(256, n + a, p);
  }

  lemma SumFits(name: nat, amount: nat, price: nat)
    requires name < NAME_END && amount < U64_END && price < U128_END
    ensures (name * U64_END + amount) * U128_END + price == name * (U64_END * U128_END) + amount * U128_END + price < STARK_PRIME
  {
  }

  lemma Unreduced(v: nat)
    requires v < STARK_PRIME
    ensures v % STARK_PRIME == v
  {
  }

  /** Name at bit 192, amount at bit 128, price below: for every name that leaves
      room in the field nothing is reduced. */
  lemma BoundIsSum(name: nat, amount: nat, price: nat)
    requires name < NAME_END && amount < U64_END && price < U128_END
    ensures PackBound(name, amount, price) == name * (U64_END * U128_END) + amount * U128_END + price
    ensures name * (U64_END * U128_END) + amount * U128_END + price < STARK_PRIME
  {
    BoundValue(name, amount, price);
    SumFits(name, amount, price);
    Unreduced(Value(256, BoundBytes(name, amount, price)));
  }

  /** The three resource names are such names, and a packed bound can be unpacked. */
  lemma BoundInjective(name: nat, amount: nat, price: nat, name': nat, amount': nat, price': nat)
    requires name in {NAME_L1_GAS, NAME_L2_GAS, NAME_L1_DATA} && name' in {NAME_L1_GAS, NAME_L2_GAS, NAME_L1_DATA}
    requires amount < U64_END && amount' < U64_END && price < U128_END && price' < U128_END
    requires PackBound(name, amount, price) == PackBound(name', amount', price')
    ensures name == name' && amount == amount' && price == price'
  {
    BoundIsSum(name, amount, price);
    BoundIsSum(name', amount', price');
    var v, v' := name * U64_END + amount, name' * U64_END + amount';
    assert v * U128_END + price == v' * U128_END + price';
    SplitUnique(U128_END, v, price, v', price');
    SplitUnique(U64_END, name, amount, name', amount');
  }
}
