/** Hex text of byte strings, and the two fixed-size byte strings of the EVM side. */
module Hex {
  import opened Wrappers
  import opened Positional

  type Address = b: seq<byte> | |b| == 20 witness seq(20, _ => 0)
  type Bytes32 = b: seq<byte> | |b| == 32 witness seq(32, _ => 0)

  function Nibble(n: nat): (c: char)
    requires n < 16
    ensures NibbleOf(c) == Some(n)
    ensures c != 'x'
  {
    if n < 10 then '0' + n as char else 'a' + (n - 10) as char
  }

  /** Both letter cases are read; only lower case is printed. */
  function NibbleOf(c: char): (n: Option<nat>)
    ensures n.Some? ==> n.value < 16
  {
    if '0' <= c <= '9' then Some((c - '0') as nat)
    else if 'a' <= c <= 'f' then Some((c - 'a') as nat + 10)
    else if 'A' <= c <= 'F' then Some((c - 'A') as nat + 10)
    else None
  }

  /** `hex::encode`: two lower-case digits a byte. */
  function Encode(b: seq<byte>): (s: string)
    ensures |s| == 2 * |b|
    ensures forall i :: 0 <= i < |s| ==> s[i] != 'x'
  {
    if b == [] then "" else [Nibble(b[0] / 16), Nibble(b[0] % 16)] + Encode(b[1..])
  }

  /** `hex::decode`: odd length and foreign characters are errors. */
  function Decode(s: string): (b: Option<seq<byte>>)
    ensures b.Some? ==> |s| == 2 * |b.value|
  {
    if s == "" then Some([])
    else if |s| == 1 then None
    else
      match (NibbleOf(s[0]), NibbleOf(s[1]), Decode(s[2..]))
      case (Some(h), Some(l), Some(rest)) => Some([h * 16 + l] + rest)
      case _ => None
  }

  lemma {:induction false} DecodeEncode(b: seq<byte>)
    ensures Decode(Encode(b)) == Some(b)
  {
    if b != [] {
      var s := Encode(b);
      assert s[2..] == Encode(b[1..]);
      DecodeEncode(b[1..]);
      assert b == [b[0]] + b[1..];
    }
  }

  predicate Starts0x(s: string) {
    |s| >= 2 && s[0] == '0' && s[1] == 'x'
  }

  /** `trim_start_matches("0x")`: every leading "0x" goes, not just one. */
  function TrimStart0x(s: string): string {
    if Starts0x(s) then TrimStart0x(s[2..]) else s
  }

  function Strip0x(s: string): string {
    if Starts0x(s) then s[2..] else s
  }

  /** How an address prints under `{:?}`. */
  function AddressText(a: Address): string {
    "0x" + Encode(a)
  }

  /** `parse::<Address>()`: one optional "0x", then exactly forty digits. */
  function ParseAddress(s: string): Option<Address> {
    match Decode(Strip0x(s))
    case Some(b) => if |b| == 20 then Some(b) else None
    case None => None
  }

  function Bytes32Text(b: Bytes32): string {
    "0x" + Encode(b)
  }

  function ParseBytes32(s: string): Option<Bytes32> {
    match Decode(TrimStart0x(s))
    case Some(b) => if |b| == 32 then Some(b) else None
    case None => None
  }

  lemma AddressRoundTrip(a: Address)
    ensures ParseAddress(AddressText(a)) == Some(a)
  {
    assert AddressText(a)[2..] == Encode(a);
    DecodeEncode(a);
  }

  lemma Bytes32RoundTrip(b: Bytes32)
    ensures ParseBytes32(Bytes32Text(b)) == Some(b)
  {
    assert Bytes32Text(b)[2..] == Encode(b);
    assert Encode(b)[1] != 'x';
    assert TrimStart0x(Bytes32Text(b)) == Encode(b);
    DecodeEncode(b);
  }

  lemma AddressTextInjective(a: Address, b: Address)
    requires AddressText(a) == AddressText(b)
    ensures a == b
  {
    AddressRoundTrip(a);
    AddressRoundTrip(b);
  }
}
