/** Settlement routes, encoded once in the browser as text and once in the backend
    as bytes and felts. Both feed predicted receiver addresses, so they must agree. */
module Routes {
  import opened Wrappers
  import opened Positional
  import opened Hex
  import SolanaWire
  import Base58

  datatype Chain = Base | Ethereum | Arbitrum | Monad | Starknet | Solana

  function ChainKey(c: Chain): string {
    match c
    case Base => "BASE"
    case Ethereum => "ETHEREUM"
    case Arbitrum => "ARBITRUM"
    case Monad => "MONAD"
    case Starknet => "STARKNET"
    case Solana => "SOLANA"
  }

  predicate Ascii(s: string) {
    forall i :: 0 <= i < |s| ==> 0 < s[i] as int < 128
  }

  function TextBytes(s: string): (b: seq<byte>)
    requires Ascii(s)
    ensures |b| == |s| && forall i :: 0 <= i < |s| ==> b[i] == s[i] as int
  {
    seq(|s|, i requires 0 <= i < |s| => s[i] as int)
  }

  function NameBytes(c: Chain): (b: seq<byte>)
    ensures 4 <= |b| <= 8 && b[0] != 0
  {
    TextBytes(ChainKey(c))
  }

  /** The first two letters already tell the chains apart. */
  lemma NamesDiffer(c: Chain, d: Chain)
    requires NameBytes(c)[..2] == NameBytes(d)[..2]
    ensures c == d
  {
    var x, y := NameBytes(c), NameBytes(d);
    assert x[..2][0] == x[0] && x[..2][1] == x[1] && y[..2][0] == y[0] && y[..2][1] == y[1];
  }

  // ---- hexadecimal numbers ---------------------------------------------------------

  const STARK_PRIME: nat := 0x800000000000011000000000000000000000000000000000000000000000001
  const EVM_LIMIT: nat := 0x1_0000_0000_0000_0000_0000_0000_0000_0000_0000_0000
  const MASK_END: nat := 0x1_0000_0000_0000_0000_0000_0000_0000_0000

  predicate AllHex(s: string) {
    forall i :: 0 <= i < |s| ==> NibbleOf(s[i]).Some?
  }

  function Nibbles(s: string): (d: seq<nat>)
    requires AllHex(s)
    ensures |d| == |s| && Digits(16, d)
    ensures forall i :: 0 <= i < |s| ==> d[i] == NibbleOf(s[i]).value
  {
    seq(|s|, i requires 0 <= i < |s| => NibbleOf(s[i]).value)
  }

  function HexText(d: seq<nat>): (s: string)
    requires Digits(16, d)
    ensures |s| == |d| && AllHex(s) && Nibbles(s) == d
    ensures forall i :: 0 <= i < |d| ==> s[i] == Nibble(d[i])
  {
    seq(|d|, i requires 0 <= i < |d| => Nibble(d[i]))
  }

  function LowerHex(s: string): (t: string)
    requires AllHex(s)
    ensures |t| == |s| && AllHex(t) && Nibbles(t) == Nibbles(s)
  {
    HexText(Nibbles(s))
  }

  function HexValue(s: string): nat
    requires AllHex(s)
  {
    Value(16, Nibbles(s))
  }

  /** `toString(16)`: no leading zeros, one digit for zero. */
  function ToHex(n: nat): (s: string)
    ensures AllHex(s)
  {
    if n == 0 then "0" else HexText(Minimal(16, n))
  }

  function ZeroText(n: nat): (s: string)
    ensures |s| == n && AllHex(s) && Nibbles(s) == Zeros(n)
  {
    HexText(Zeros(n))
  }

  function PadStart(s: string, width: nat): string {
    if |s| >= width then s else ZeroText(width - |s|) + s
  }

  function PadEnd(s: string, width: nat): string {
    if |s| >= width then s else s + ZeroText(width - |s|)
  }

  lemma ToHexValue(n: nat)
    ensures HexValue(ToHex(n)) == n
  {
    if n == 0 {
      assert Nibbles("0") == [0];
      assert [0][..0] == [];
      assert Value(16, [0]) == 0;
    } else {
      MinimalValue(16, n);
    }
  }

  lemma NibblesAppend(a: string, b: string)
    requires AllHex(a) && AllHex(b)
    ensures AllHex(a + b) && Nibbles(a + b) == Nibbles(a) + Nibbles(b)
  {
  }

  lemma {:induction false} EncodeAppend(a: seq<byte>, b: seq<byte>)
    ensures Encode(a + b) == Encode(a) + Encode(b)
  {
    if a == [] {
      assert a + b == b;
    } else {
      assert (a + b)[1..] == a[1..] + b;
      EncodeAppend(a[1..], b);
    }
  }

  /** The hex text of bytes is the number they stand for. */
  lemma {:induction false} EncodeValue(b: seq<byte>)
    ensures AllHex(Encode(b)) && HexValue(Encode(b)) == Value(256, b)
  {
    if b != [] {
      var n := |b| - 1;
      var x := b[n];
      EncodeValue(b[..n]);
      assert b == b[..n] + [x];
      EncodeAppend(b[..n], [x]);
      assert [x][1..] == [];
      var last := [Nibble(x / 16), Nibble(x % 16)];
      assert Encode([x]) == last + Encode([x][1..]) == last;
      assert Nibbles(last) == [x / 16, x % 16];
      NibblesAppend(Encode(b[..n]), last);
      ByteDigits(Nibbles(Encode(b[..n])), x);
    }
  }

  lemma ByteDigits(d: seq<nat>, x: byte)
    ensures Value(16, d + [x / 16, x % 16]) == Value(16, d) * 256 + x
  {
    var e := d + [x / 16, x % 16];
    assert e[..|e| - 1] == d + [x / 16];
    assert (d + [x / 16])[..|d|] == d;
    assert Value(16, d + [x / 16]) == Value(16, d) * 16 + x / 16;
  }

  /** Lower-case text of known length is the encoding of its number. */
  lemma TextOfValue(s: string, b: seq<byte>)
    requires AllHex(s) && s == LowerHex(s) && |s| == 2 * |b| && HexValue(s) == Value(256, b)
    ensures s == Encode(b)
  {
    EncodeValue(b);
    ValueInjective(16, Nibbles(s), Nibbles(Encode(b)));
    EncodeLower(b);
  }

  lemma EncodeLower(b: seq<byte>)
    ensures AllHex(Encode(b)) && LowerHex(Encode(b)) == Encode(b)
  {
    EncodeValue(b);
    forall i | 0 <= i < |Encode(b)| ensures LowerHex(Encode(b))[i] == Encode(b)[i] {
      EncodeNibble(b, i);
    }
  }

  lemma {:induction false} EncodeNibble(b: seq<byte>, i: nat)
    requires i < 2 * |b|
    ensures exists n :: 0 <= n < 16 && Encode(b)[i] == Nibble(n)
  {
    if i >= 2 {
      EncodeNibble(b[1..], i - 2);
      assert Encode(b)[i] == Encode(b[1..])[i - 2];
    } else if i == 0 {
      assert Encode(b)[0] == Nibble(b[0] / 16);
    } else {
      assert Encode(b)[1] == Nibble(b[0] % 16);
    }
  }

  lemma EncodeFirst(h: nat, l: nat, rest: seq<byte>, b: seq<byte>)
    requires h < 16 && l < 16 && b == [h * 16 + l] + rest
    ensures Encode(b) == [Nibble(h), Nibble(l)] + Encode(rest)
  {
    assert b[1..] == rest && b[0] / 16 == h && b[0] % 16 == l;
  }

  lemma HexTextFirst(d: seq<nat>)
    requires Digits(16, d) && |d| >= 2
    ensures Digits(16, d[2..]) && HexText(d) == [Nibble(d[0]), Nibble(d[1])] + HexText(d[2..])
  {
    var t, rest := HexText(d), HexText(d[2..]);
    forall i | 0 <= i < |rest| ensures t[2 + i] == rest[i] {
      assert rest[i] == Nibble(d[2..][i]) && d[2..][i] == d[2 + i];
    }
  }

  lemma NibblesLater(s: string)
    requires AllHex(s) && |s| >= 2
    ensures Nibbles(s[2..]) == Nibbles(s)[2..]
  {
  }

  lemma LowerHexFirst(s: string)
    requires AllHex(s) && |s| >= 2
    ensures LowerHex(s) == [Nibble(NibbleOf(s[0]).value), Nibble(NibbleOf(s[1]).value)] + LowerHex(s[2..])
  {
    HexTextFirst(Nibbles(s));
    NibblesLater(s);
  }

  /** Reading lower-case text back gives the bytes it encodes. */
  lemma {:induction false} DecodeText(s: string)
    requires AllHex(s) && |s| % 2 == 0
    ensures Decode(s).Some? && Encode(Decode(s).value) == LowerHex(s)
  {
    if s != "" {
      DecodeText(s[2..]);
      EncodeFirst(NibbleOf(s[0]).value, NibbleOf(s[1]).value, Decode(s[2..]).value, Decode(s).value);
      LowerHexFirst(s);
    }
  }

  // ---- canonical recipients -----------------------------------------------------------

  predicate IsEvm(c: Chain) {
    c.Base? || c.Ethereum? || c.Arbitrum? || c.Monad?
  }

  function CanonicalEvm(v: string): Option<string> {
    if |v| == 42 && Starts0x(v) && AllHex(v[2..]) then Some("0x" + LowerHex(v[2..])) else None
  }

  function StripPrefix(v: string): string {
    if |v| >= 2 && v[0] == '0' && (v[1] == 'x' || v[1] == 'X') then v[2..] else v
  }

  function CanonicalFelt(v: string): Option<string> {
    var hex := StripPrefix(v);
    if 1 <= |hex| <= 64 && AllHex(hex) && EVM_LIMIT <= HexValue(hex) < STARK_PRIME
    then Some("0x" + PadStart(LowerHex(hex), 64)) else None
  }

  function CanonicalSolana(v: string): Option<string> {
    if 32 <= |v| <= 44 && SolanaWire.PubkeyBytes(v).Some? then Some(v) else None
  }

  function Canonical(c: Chain, v: string): Option<string> {
    if IsEvm(c) then CanonicalEvm(v) else if c.Starknet? then CanonicalFelt(v) else CanonicalSolana(v)
  }

  lemma AddressBelowLimit(hex: string)
    requires |hex| == 40 && AllHex(hex)
    ensures HexValue(hex) < EVM_LIMIT
  {
    DecodeText(hex);
    var a := Decode(hex).value;
    EncodeValue(a);
    assert |Encode(a)| == 40 && Nibbles(Encode(a)) == Nibbles(LowerHex(hex)) == Nibbles(hex);
    ValueBound(256, a);
    SolanaWire.U64Pow();
    PowAdd(256, 8, 8);
    PowAdd(256, 16, 4);
    assert Pow(256, 4) == 0x1_0000_0000;
  }

  /** An EVM address is never taken for a Starknet one, with its prefix or without,
      nor for a Solana one. */
  lemma KindsApart(v: string)
    requires CanonicalEvm(v).Some?
    ensures CanonicalFelt(v).None? && CanonicalFelt(v[2..]).None? && CanonicalSolana(v).None?
  {
    AddressBelowLimit(v[2..]);
    assert Base58.Index(v[0]).None?;
    assert StripPrefix(v) == v[2..];
    assert NibbleOf(v[2..][1]).Some?;
    assert StripPrefix(v[2..]) == v[2..];
  }

  lemma LowerTwice(s: string)
    requires AllHex(s)
    ensures LowerHex(LowerHex(s)) == LowerHex(s)
  {
  }

  lemma FeltTwice(v: string, t: string)
    requires CanonicalFelt(v) == Some(t)
    ensures CanonicalFelt(t) == Some(t)
  {
    var low := LowerHex(StripPrefix(v));
    var zeros := ZeroText(64 - |low|);
    NibblesAppend(zeros, low);
    ValueZeros(16, 64 - |low|, Nibbles(low));
    LowerTwice(StripPrefix(v));
    PaddedLower(low, 64 - |low|);
    assert PadStart(low, 64) == zeros + low;
    assert StripPrefix(t) == zeros + low;
  }

  /** What is canonical stays as it is. */
  lemma CanonicalTwice(c: Chain, v: string, t: string)
    requires Canonical(c, v) == Some(t)
    ensures Canonical(c, t) == Some(t)
  {
    if IsEvm(c) {
      LowerTwice(v[2..]);
      assert t[2..] == LowerHex(v[2..]);
    } else if c.Starknet? {
      FeltTwice(v, t);
    }
  }

  // ---- the browser's route ------------------------------------------------------------

  datatype JsRoute = JsRoute(chain32: string, recipient32: string, chainFelt: string, low: string, high: string)

  function Zero32(): string {
    "0x" + ZeroText(64)
  }

  /** The recipient's 64 digits; a Solana recipient is the wallet itself. */
  function RecipientHex(target: Chain, recipient: string): string {
    if target.Solana? then
      match SolanaWire.PubkeyBytes(recipient)
      case Some(key) => Encode(key)
      case None => ""
    else PadStart(Strip0x(recipient), 64)
  }

  function CctpRoute(source: Chain, target: Chain, targetRecipient: string): Option<JsRoute> {
    if targetRecipient == "" then None
    else if source == target then Some(JsRoute(Zero32(), Zero32(), "0x0", "0x0", "0x0"))
    else
      match Canonical(target, targetRecipient)
      case None => None
      case Some(recipient) =>
        var name := Encode(NameBytes(target));
        var hex := RecipientHex(target, recipient);
        var r := if AllHex(hex) then HexValue(hex) else 0;
        Some(JsRoute("0x" + PadEnd(name, 64), "0x" + hex, "0x" + name, "0x" + ToHex(r % MASK_END), "0x" + ToHex(r / MASK_END)))
  }

  /** The number a "0x" text stands for. */
  function JsNumber(s: string): nat
    requires |s| >= 2 && AllHex(s[2..])
  {
    HexValue(s[2..])
  }

  // ---- the backend's routes -----------------------------------------------------------

  function FeltFromHex(s: string): Option<nat> {
    var hex := Strip0x(s);
    if 1 <= |hex| <= 64 && AllHex(hex) && HexValue(hex) < STARK_PRIME then Some(HexValue(hex)) else None
  }

  function RecipientBytes32(target: Chain, recipient: string): Option<Bytes32> {
    if IsEvm(target) then
      match ParseAddress(recipient)
      case None => None
      case Some(a) => Some(Zeros(12) + a)
    else if target.Starknet? then
      match FeltFromHex(recipient)
      case None => None
      case Some(n) => Some(Fixed(256, 32, n))
    else SolanaWire.PubkeyBytes(recipient)
  }

  function ZeroBytes32(): Bytes32 {
    seq(32, _ => 0)
  }

  /** The bytes in front, zeros behind. */
  function Padded(b: seq<byte>): (r: seq<byte>)
    requires |b| <= 32
    ensures |r| == 32
  {
    b + Zeros(32 - |b|)
  }

  function NameBuffer(c: Chain): Bytes32 {
    Padded(NameBytes(c))
  }

  function Number(b: seq<byte>): nat {
    Value(256, b)
  }

  function Low(r: Bytes32): nat {
    Number(r[16..])
  }

  function High(r: Bytes32): nat {
    Number(r[..16])
  }

  /** `evm_route` and `solana_route`. */
  function ByteRoute(source: Chain, target: Chain, recipient: string): Option<(Bytes32, Bytes32)> {
    if source == target then Some((ZeroBytes32(), ZeroBytes32()))
    else
      match RecipientBytes32(target, recipient)
      case None => None
      case Some(r) => Some((NameBuffer(target), r))
  }

  function FeltRoute(source: Chain, target: Chain, recipient: string): Option<(nat, nat, nat)> {
    if source == target then Some((0, 0, 0))
    else
      match RecipientBytes32(target, recipient)
      case None => None
      case Some(r) => Some((Number(NameBytes(target)), Low(r), High(r)))
  }

  // ---- agreement ---------------------------------------------------------------------------

  lemma EncodeZero(z: seq<byte>)
    requires |z| == 1 && z[0] == 0
    ensures Encode(z) == "00"
  {
    assert z[1..] == [];
  }

  lemma ZeroTextNext(n: nat)
    ensures ZeroText(n + 2) == ZeroText(n) + "00"
  {
  }

  lemma {:induction false} EncodeZeros(n: nat)
    ensures Encode(Zeros(n)) == ZeroText(2 * n)
  {
    if n > 0 {
      var before, last := Zeros(n - 1), Zeros(1);
      EncodeZeros(n - 1);
      EncodeZero(last);
      EncodeAppend(before, last);
      assert Zeros(n) == before + last;
      ZeroTextNext(2 * n - 2);
    }
  }

  lemma Starts(t: string)
    ensures Strip0x("0x" + t) == t
  {
    assert ("0x" + t)[2..] == t;
  }

  /** A canonical EVM recipient: both sides pad the same twenty bytes. */
  lemma EvmRecipient(v: string, t: string) returns (r: Bytes32)
    requires CanonicalEvm(v) == Some(t)
    ensures ParseAddress(t).Some? && r == Zeros(12) + ParseAddress(t).value
    ensures PadStart(Strip0x(t), 64) == Encode(r) && t == "0x" + Encode(r[12..])
  {
    var hex := LowerHex(v[2..]);
    Starts(hex);
    DecodeText(hex);
    var a := Decode(hex).value;
    assert LowerHex(hex) == hex;
    r := Zeros(12) + a;
    EncodeAppend(Zeros(12), a);
    EncodeZeros(12);
    assert r[12..] == a;
  }

  lemma StarkPrimeFits(n: nat)
    requires n < STARK_PRIME
    ensures n < Pow(256, 32)
  {
    SolanaWire.U64Pow();
    PowAdd(256, 8, 8);
    PowAdd(256, 16, 16);
    assert Pow(256, 16) == MASK_END;
    assert Pow(256, 32) == MASK_END * MASK_END;
  }

  lemma FeltRecipient(v: string, t: string) returns (r: Bytes32)
    requires CanonicalFelt(v) == Some(t)
    ensures FeltFromHex(t).Some? && r == Fixed(256, 32, FeltFromHex(t).value)
    ensures PadStart(Strip0x(t), 64) == Encode(r) && t == Bytes32Text(r)
  {
    var hex := StripPrefix(v);
    var low := LowerHex(hex);
    var padded := PadStart(low, 64);
    NibblesAppend(ZeroText(64 - |low|), low);
    assert padded == ZeroText(64 - |low|) + low;
    ValueZeros(16, 64 - |low|, Nibbles(low));
    Starts(padded);
    var n := HexValue(padded);
    assert n == HexValue(hex);
    StarkPrimeFits(n);
    r := Fixed(256, 32, n);
    FixedValue(256, 32, n);
    PaddedLower(low, 64 - |low|);
    TextOfValue(padded, r);
  }

  lemma PaddedLower(s: string, n: nat)
    requires AllHex(s) && LowerHex(s) == s
    ensures AllHex(ZeroText(n) + s) && LowerHex(ZeroText(n) + s) == ZeroText(n) + s
  {
  }

  /** Whatever is canonical for a chain, the browser's digits are the hex text of
      the backend's bytes, and only that recipient has them. */
  lemma RecipientsAgree(target: Chain, v: string, t: string) returns (r: Bytes32)
    requires Canonical(target, v) == Some(t)
    ensures RecipientBytes32(target, t) == Some(r) && RecipientHex(target, t) == Encode(r)
    ensures IsEvm(target) ==> t == "0x" + Encode(r[12..])
    ensures target.Starknet? ==> t == Bytes32Text(r)
    ensures target.Solana? ==> t == Base58.Encode(r)
  {
    if IsEvm(target) {
      r := EvmRecipient(v, t);
    } else if target.Starknet? {
      r := FeltRecipient(v, t);
    } else {
      r := SolanaWire.PubkeyBytes(t).value;
      SolanaWire.KeyText(t);
    }
  }

  lemma Halves(r: Bytes32)
    ensures Number(r) % MASK_END == Low(r) && Number(r) / MASK_END == High(r)
    ensures Low(r) < MASK_END && High(r) < MASK_END
  {
    SolanaWire.U64Pow();
    PowAdd(256, 8, 8);
    assert Pow(256, 16) == MASK_END;
    assert r == r[..16] + r[16..];
    ValueAppend(256, r[..16], r[16..]);
    ValueBound(256, r[16..]);
    ValueBound(256, r[..16]);
    DivMod(MASK_END, High(r), Low(r));
  }

  /** The browser's texts for a chain name and a recipient, both in bytes. */
  function Texts(name: seq<byte>, r: Bytes32): JsRoute {
    JsRoute("0x" + PadEnd(Encode(name), 64), "0x" + Encode(r), "0x" + Encode(name),
            "0x" + ToHex(Low(r)), "0x" + ToHex(High(r)))
  }

  lemma BrowserTexts(source: Chain, target: Chain, v: string, t: string, r: Bytes32)
    requires source != target && Canonical(target, v) == Some(t) && v != "" && RecipientHex(target, t) == Encode(r)
    ensures CctpRoute(source, target, v) == Some(Texts(NameBytes(target), r))
  {
    EncodeValue(r);
    Halves(r);
  }

  predicate IsNumber(s: string) {
    |s| >= 2 && AllHex(s[2..])
  }

  lemma NumberOfText(s: string)
    requires AllHex(s)
    ensures IsNumber("0x" + s) && JsNumber("0x" + s) == HexValue(s)
  {
    assert ("0x" + s)[2..] == s;
  }

  lemma PadEndBy(s: string, n: nat, width: nat)
    requires |s| + n == width
    ensures PadEnd(s, width) == s + ZeroText(n)
  {
    if n == 0 {
      assert s + ZeroText(0) == s;
    }
  }

  lemma EncodePadded(name: seq<byte>, n: nat)
    ensures Encode(name + Zeros(n)) == Encode(name) + ZeroText(2 * n)
  {
    EncodeAppend(name, Zeros(n));
    EncodeZeros(n);
  }

  lemma PaddedBy(name: seq<byte>, n: nat, width: nat)
    requires 2 * |name| + 2 * n == width
    ensures PadEnd(Encode(name), width) == Encode(name + Zeros(n))
  {
    EncodePadded(name, n);
    PadEndBy(Encode(name), 2 * n, width);
  }

  lemma PaddedName(name: seq<byte>, n: nat)
    requires |name| + n == 32
    ensures PadEnd(Encode(name), 64) == Encode(Padded(name))
  {
    PaddedBy(name, n, 64);
    assert Padded(name) == name + Zeros(n);
  }

  lemma TextsRead(name: seq<byte>, r: Bytes32)
    requires |name| <= 32
    ensures
      var js := Texts(name, r);
      && js.chain32 == "0x" + Encode(Padded(name)) && js.recipient32 == Bytes32Text(r)
      && IsNumber(js.chainFelt) && JsNumber(js.chainFelt) == Number(name)
      && IsNumber(js.low) && JsNumber(js.low) == Low(r)
      && IsNumber(js.high) && JsNumber(js.high) == High(r)
  {
    var low, high := Low(r), High(r);
    PaddedName(name, 32 - |name|);
    EncodeValue(name);
    ToHexValue(low);
    ToHexValue(high);
    NumberOfText(Encode(name));
    NumberOfText(ToHex(low));
    NumberOfText(ToHex(high));
  }

  /** The zeros of a route that stays on its chain. */
  lemma ZerosAgree()
    ensures Zero32() == Bytes32Text(ZeroBytes32()) && Number(ZeroBytes32()) == 0
    ensures IsNumber("0x0") && JsNumber("0x0") == 0
  {
    assert ZeroBytes32() == Zeros(32);
    EncodeZeros(32);
    assert Zeros(32) + [] == Zeros(32);
    ValueZeros(256, 32, []);
    assert ToHex(0) == "0";
    ToHexValue(0);
    NumberOfText("0");
  }

  /** What browser and backend make of one choice. */
  ghost predicate Made(source: Chain, target: Chain, v: string, t: string, js: JsRoute, chain: Bytes32, r: Bytes32,
                       felts: (nat, nat, nat))
  {
    && CctpRoute(source, target, v) == Some(js) && ByteRoute(source, target, t) == Some((chain, r))
    && FeltRoute(source, target, t) == Some(felts)
  }

  /** The two encodings agree, byte for byte and felt for felt, and the halves make
      up the recipient. */
  ghost predicate Agree(js: JsRoute, chain: Bytes32, r: Bytes32, felts: (nat, nat, nat)) {
    && js.chain32 == Bytes32Text(chain) && js.recipient32 == Bytes32Text(r)
    && IsNumber(js.chainFelt) && JsNumber(js.chainFelt) == felts.0
    && IsNumber(js.low) && JsNumber(js.low) == felts.1
    && IsNumber(js.high) && JsNumber(js.high) == felts.2
    && felts.1 + felts.2 * MASK_END == Number(r)
  }

  lemma TextsAgree(name: seq<byte>, r: Bytes32, chain: Bytes32)
    requires |name| <= 32 && chain == Padded(name)
    ensures Agree(Texts(name, r), chain, r, (Number(name), Low(r), High(r)))
  {
    TextsRead(name, r);
    Halves(r);
    Split(MASK_END, Number(r));
  }

  lemma Backend(source: Chain, target: Chain, t: string, r: Bytes32)
    requires source != target && RecipientBytes32(target, t) == Some(r)
    ensures ByteRoute(source, target, t) == Some((NameBuffer(target), r))
    ensures FeltRoute(source, target, t) == Some((Number(NameBytes(target)), Low(r), High(r)))
  {
  }

  lemma SameChainRoutes(source: Chain, v: string, t: string)
    returns (js: JsRoute, chain: Bytes32, r: Bytes32, felts: (nat, nat, nat))
    requires v != ""
    ensures Made(source, source, v, t, js, chain, r, felts) && Agree(js, chain, r, felts)
  {
    js, chain, r, felts := JsRoute(Zero32(), Zero32(), "0x0", "0x0", "0x0"), ZeroBytes32(), ZeroBytes32(), (0, 0, 0);
    ZerosAgree();
  }

  lemma OtherChainRoutes(source: Chain, target: Chain, v: string, t: string)
    returns (js: JsRoute, chain: Bytes32, r: Bytes32, felts: (nat, nat, nat))
    requires source != target && Canonical(target, v) == Some(t) && v != ""
    ensures Made(source, target, v, t, js, chain, r, felts) && Agree(js, chain, r, felts)
  {
    r := RecipientsAgree(target, v, t);
    var name := NameBytes(target);
    js, chain, felts := Texts(name, r), NameBuffer(target), (Number(name), Low(r), High(r));
    BrowserTexts(source, target, v, t, r);
    Backend(source, target, t, r);
    assert Made(source, target, v, t, js, chain, r, felts);
    TextsAgree(name, r, chain);
  }

  /** For every pair of chains and every recipient the two encodings agree. A
      recipient on another chain is canonical, one on the same chain is not looked
      at. */
  lemma RoutesAgree(source: Chain, target: Chain, v: string, t: string)
    returns (js: JsRoute, chain: Bytes32, r: Bytes32, felts: (nat, nat, nat))
    requires v != "" && (source != target ==> Canonical(target, v) == Some(t))
    ensures Made(source, target, v, t, js, chain, r, felts) && Agree(js, chain, r, felts)
  {
    if source == target {
      js, chain, r, felts := SameChainRoutes(source, v, t);
    } else {
      js, chain, r, felts := OtherChainRoutes(source, target, v, t);
    }
  }

  /** The chain field is zero exactly when the chains are the same, and then all
      of the route is. */
  lemma ZeroIffSame(source: Chain, target: Chain, t: string, chain: Bytes32, r: Bytes32, felts: (nat, nat, nat))
    requires ByteRoute(source, target, t) == Some((chain, r)) && FeltRoute(source, target, t) == Some(felts)
    ensures chain == ZeroBytes32() <==> source == target
    ensures felts.0 == 0 <==> source == target
    ensures source == target ==> r == ZeroBytes32() && felts == (0, 0, 0)
  {
    if source != target {
      assert chain[0] == NameBytes(target)[0];
      LeadingDigit(256, NameBytes(target));
    }
  }

  lemma FieldsDiffer(x: seq<byte>, y: seq<byte>)
    requires 2 <= |x| <= 32 && 2 <= |y| <= 32 && x[0] != 0 && y[0] != 0
    ensures Padded(x) == Padded(y) ==> x[..2] == y[..2]
    ensures Number(x) == Number(y) ==> x == y
  {
    assert x[..2] == Padded(x)[..2] && y[..2] == Padded(y)[..2];
    ValueMinimal(256, x);
    ValueMinimal(256, y);
  }

  /** The same name field, in bytes or as a felt, means the same chain. */
  lemma NameFieldsDiffer(c: Chain, d: Chain)
    requires NameBuffer(c) == NameBuffer(d) || Number(NameBytes(c)) == Number(NameBytes(d))
    ensures c == d
  {
    FieldsDiffer(NameBytes(c), NameBytes(d));
    NamesDiffer(c, d);
  }

  lemma HalvesInjective(r: Bytes32, r': Bytes32)
    requires Low(r) == Low(r') && High(r) == High(r')
    ensures r == r'
  {
    ValueInjective(256, r[16..], r'[16..]);
    ValueInjective(256, r[..16], r'[..16]);
    assert r == r[..16] + r[16..] && r' == r'[..16] + r'[16..];
  }

  /** Different settlement chains or recipients never share a route, neither in
      bytes nor in felts. `t` and `t'` are canonical forms. */
  lemma RoutesInjective(source: Chain, target: Chain, v: string, t: string, target': Chain, v': string, t': string)
    requires source != target && source != target'
    requires Canonical(target, v) == Some(t) && Canonical(target', v') == Some(t')
    requires
      ByteRoute(source, target, t) == ByteRoute(source, target', t') || FeltRoute(source, target, t) == FeltRoute(source, target', t')
    ensures target == target' && t == t'
  {
    var r := RecipientsAgree(target, v, t);
    var r' := RecipientsAgree(target', v', t');
    NameFieldsDiffer(target, target');
    if FeltRoute(source, target, t) == FeltRoute(source, target', t') {
      HalvesInjective(r, r');
    }
  }
}
