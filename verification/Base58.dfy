/** Base-58 text of byte strings, as the browser reads and prints Solana keys. */
module Base58 {
  import opened Wrappers
  import opened Positional

  const DIGITS := "123456789"
  const UPPER_A_H := "ABCDEFGH"
  const UPPER_J_N := "JKLMN"
  const UPPER_P_Z := "PQRSTUVWXYZ"
  const LOWER_A_K := "abcdefghijk"
  const LOWER_M_Z := "mnopqrstuvwxyz"
  const ALPHABET := DIGITS + UPPER_A_H + UPPER_J_N + UPPER_P_Z + LOWER_A_K + LOWER_M_Z

  /** The digit a character stands for; `None` outside the alphabet. */
  function Index(c: char): (i: Option<nat>)
    ensures i.Some? ==> i.value < 58
  {
    if '1' <= c <= '9' then Some((c - '1') as nat)
    else if 'A' <= c <= 'H' then Some((c - 'A') as nat + 9)
    else if 'J' <= c <= 'N' then Some((c - 'J') as nat + 17)
    else if 'P' <= c <= 'Z' then Some((c - 'P') as nat + 22)
    else if 'a' <= c <= 'k' then Some((c - 'a') as nat + 33)
    else if 'm' <= c <= 'z' then Some((c - 'm') as nat + 44)
    else None
  }

  lemma RunDigits(i: nat)
    requires i < 9
    ensures |DIGITS| == 9 && DIGITS[i] as int == '1' as int + i
  {
  }

  lemma RunUpperAH(i: nat)
    requires i < 8
    ensures |UPPER_A_H| == 8 && UPPER_A_H[i] as int == 'A' as int + i
  {
  }

  lemma RunUpperJN(i: nat)
    requires i < 5
    ensures |UPPER_J_N| == 5 && UPPER_J_N[i] as int == 'J' as int + i
  {
  }

  lemma RunUpperPZ(i: nat)
    requires i < 11
    ensures |UPPER_P_Z| == 11 && UPPER_P_Z[i] as int == 'P' as int + i
  {
  }

  lemma RunLowerAK(i: nat)
    requires i < 11
    ensures |LOWER_A_K| == 11 && LOWER_A_K[i] as int == 'a' as int + i
  {
  }

  lemma RunLowerMZ(i: nat)
    requires i < 14
    ensures |LOWER_M_Z| == 14 && LOWER_M_Z[i] as int == 'm' as int + i
  {
  }

  /** The character of a digit; `LetterIsPosition` ties it to the alphabet. */
  function Letter(i: nat): (c: char)
    requires i < 58
    ensures Index(c) == Some(i)
  {
    if i < 9 then '1' + i as char
    else if i < 17 then 'A' + (i - 9) as char
    else if i < 22 then 'J' + (i - 17) as char
    else if i < 33 then 'P' + (i - 22) as char
    else if i < 44 then 'a' + (i - 33) as char
    else 'm' + (i - 44) as char
  }

  lemma LetterIsPosition(i: nat)
    requires i < 58
    ensures |ALPHABET| == 58 && ALPHABET[i] == Letter(i)
  {
    if i < 9 {
      RunDigits(i);
    } else if i < 17 {
      RunUpperAH(i - 9);
    } else if i < 22 {
      RunUpperJN(i - 17);
    } else if i < 33 {
      RunUpperPZ(i - 22);
    } else if i < 44 {
      RunLowerAK(i - 33);
    } else {
      RunLowerMZ(i - 44);
    }
  }

  lemma LetterOfIndex(c: char)
    requires Index(c).Some?
    ensures Letter(Index(c).value) == c
  {
  }

  predicate InAlphabet(s: string) {
    forall i :: 0 <= i < |s| ==> Index(s[i]).Some?
  }

  function ToDigits(s: string): (d: seq<nat>)
    requires InAlphabet(s)
    ensures |d| == |s| && Digits(58, d)
    ensures forall i :: 0 <= i < |s| ==> d[i] == Index(s[i]).value
  {
    if s == "" then [] else ToDigits(s[..|s| - 1]) + [Index(s[|s| - 1]).value]
  }

  function ToText(d: seq<nat>): (s: string)
    requires Digits(58, d)
    ensures |s| == |d| && InAlphabet(s)
    ensures forall i :: 0 <= i < |d| ==> s[i] == Letter(d[i])
  {
    if d == [] then "" else ToText(d[..|d| - 1]) + [Letter(d[|d| - 1])]
  }

  /** What `base58Decode` answers. */
  function Decode(s: string): (r: Option<seq<byte>>)
    ensures r.Some? <==> s != "" && InAlphabet(s)
  {
    if s == "" || !InAlphabet(s) then None
    else
      var d := ToDigits(s);
      Some(Zeros(Leading(d)) + Minimal(256, Value(58, d)))
  }

  /** What `base58Encode` answers. */
  function Encode(b: seq<byte>): (s: string)
    ensures InAlphabet(s)
  {
    ToText(Zeros(Leading(b)) + Minimal(58, Value(256, b)))
  }

  lemma TextOfDigits(s: string)
    requires InAlphabet(s)
    ensures ToText(ToDigits(s)) == s
  {
    forall i | 0 <= i < |s| ensures ToText(ToDigits(s))[i] == s[i] {
      LetterOfIndex(s[i]);
    }
  }

  /** The zeros in front, then digits that start with no zero. */
  lemma LeadingOf(z: nat, m: seq<nat>)
    requires m != [] ==> m[0] != 0
    ensures Leading(Zeros(z) + m) == z
  {
    var e := Zeros(z) + m;
    assert forall i :: 0 <= i < z ==> e[i] == 0;
    assert z < |e| ==> e[z] == m[0];
  }

  /** A digit sequence is its zeros followed by the digits of its value. */
  lemma Normal(base: nat, d: seq<nat>)
    requires base >= 2 && Digits(base, d)
    ensures Zeros(Leading(d)) + Minimal(base, Value(base, d)) == d
  {
    var z := Leading(d);
    assert d == Zeros(z) + d[z..];
    ValueZeros(base, z, d[z..]);
    ValueMinimal(base, d[z..]);
  }

  /** Changing the base keeps the zeros in front and the value behind them. */
  lemma Rebase(from: nat, to: nat, d: seq<nat>)
    requires from >= 2 && to >= 2 && Digits(from, d)
    ensures
      var e := Zeros(Leading(d)) + Minimal(to, Value(from, d));
      Leading(e) == Leading(d) && Value(to, e) == Value(from, d)
  {
    var m := Minimal(to, Value(from, d));
    ValueZeros(to, Leading(d), m);
    MinimalValue(to, Value(from, d));
    LeadingOf(Leading(d), m);
  }

  /** Decoding what was encoded gives the bytes back, leading zeros included. */
  lemma DecodeEncode(b: seq<byte>)
    requires b != []
    ensures Decode(Encode(b)) == Some(b)
  {
    var e := Zeros(Leading(b)) + Minimal(58, Value(256, b));
    Rebase(256, 58, b);
    Normal(256, b);
    assert ToDigits(Encode(b)) == e;
  }

  /** Encoding what was decoded gives the text back, leading '1's included. */
  lemma EncodeDecode(s: string)
    requires s != "" && InAlphabet(s)
    ensures Encode(Decode(s).value) == s
  {
    Rebase(58, 256, ToDigits(s));
    Normal(58, ToDigits(s));
    TextOfDigits(s);
  }

  /** Two addresses of the same key are the same text. */
  lemma DecodeInjective(s: string, t: string)
    requires Decode(s).Some? && Decode(s) == Decode(t)
    ensures s == t
  {
    EncodeDecode(s);
    EncodeDecode(t);
  }

  function Reversed(s: seq<byte>): (r: seq<byte>)
    ensures |r| == |s|
  {
    if s == [] then [] else Reversed(s[1..]) + [s[0]]
  }

  lemma ReversedAppend(s: seq<byte>, b: byte)
    ensures Reversed(s + [b]) == [b] + Reversed(s)
  {
    if s != [] {
      assert (s + [b])[1..] == s[1..] + [b];
      ReversedAppend(s[1..], b);
    }
  }

  lemma ToDigitsNext(s: string, i: nat)
    requires i < |s| && InAlphabet(s[..i]) && Index(s[i]).Some?
    ensures InAlphabet(s[..i + 1])
    ensures ToDigits(s[..i + 1]) == ToDigits(s[..i]) + [Index(s[i]).value]
    ensures Value(58, ToDigits(s[..i + 1])) == Value(58, ToDigits(s[..i])) * 58 + Index(s[i]).value
  {
    assert s[..i + 1][..i] == s[..i];
    var d := ToDigits(s[..i]);
    assert (d + [Index(s[i]).value])[..i] == d;
  }

  /** The loop that takes bytes off the low end and reverses them. */
  method BytesOf(all: nat) returns (r: seq<byte>)
    ensures r == Minimal(256, all)
  {
    var n := all;
    var bytes: seq<byte> := [];
    while n > 0
      invariant Minimal(256, n) + Reversed(bytes) == Minimal(256, all)
      decreases n
    {
      Quotient(256, n);
      ReversedAppend(bytes, n % 256);
      assert Minimal(256, n) + Reversed(bytes) == Minimal(256, n / 256) + ([n % 256] + Reversed(bytes));
      bytes := bytes + [n % 256];
      n := n / 256;
    }
    r := Reversed(bytes);
  }

  method Base58Decode(value: string) returns (r: Option<seq<byte>>)
    ensures r == Decode(value)
  {
    if value == "" {
      return None;
    }
    var n: nat := 0;
    for i := 0 to |value|
      invariant InAlphabet(value[..i])
      invariant n == Value(58, ToDigits(value[..i]))
    {
      var v := Index(value[i]);
      if v.None? {
        return None;
      }
      ToDigitsNext(value, i);
      n := n * 58 + v.value;
    }
    assert value[..|value|] == value;
    var bytes := BytesOf(n);
    var zeros := CountOnes(value);
    r := Some(Zeros(zeros) + bytes);
  }

  method CountOnes(value: string) returns (zeros: nat)
    requires InAlphabet(value)
    ensures zeros == Leading(ToDigits(value))
  {
    zeros := 0;
    while zeros < |value| && value[zeros] == '1'
      invariant zeros <= Leading(ToDigits(value))
      invariant zeros <= |value|
    {
      assert ToDigits(value)[zeros] == 0;
      zeros := zeros + 1;
    }
    if zeros < |value| {
      LetterOfIndex(value[zeros]);
    }
  }

  lemma TextCons(x: nat, d: seq<nat>)
    requires x < 58 && Digits(58, d)
    ensures Digits(58, [x] + d) && ToText([x] + d) == [Letter(x)] + ToText(d)
  {
  }

  lemma TextOnes(z: nat, d: seq<nat>)
    requires Digits(58, d)
    ensures Digits(58, Zeros(z) + d) && ToText(Zeros(z) + d) == seq(z, _ => '1') + ToText(d)
  {
  }

  lemma MinimalStep(base: nat, n: nat, d: seq<nat>)
    requires base >= 2 && n > 0
    ensures n / base < n
    ensures Minimal(base, n) + d == Minimal(base, n / base) + ([n % base] + d)
  {
    Quotient(base, n);
  }

  /** The loop that puts letters in front, least significant first. */
  method LettersOf(all: nat) returns (out: string)
    ensures out == ToText(Minimal(58, all))
  {
    var n := all;
    out := "";
    ghost var digits: seq<nat> := [];
    while n > 0
      invariant Digits(58, digits) && out == ToText(digits)
      invariant Minimal(58, n) + digits == Minimal(58, all)
      decreases n
    {
      MinimalStep(58, n, digits);
      TextCons(n % 58, digits);
      digits := [n % 58] + digits;
      out := [Letter(n % 58)] + out;
      n := n / 58;
    }
  }

  method NumberOf(bytes: seq<byte>) returns (n: nat)
    ensures n == Value(256, bytes)
  {
    n := 0;
    for i := 0 to |bytes|
      invariant n == Value(256, bytes[..i])
    {
      assert bytes[..i + 1][..i] == bytes[..i];
      n := n * 256 + bytes[i];
    }
    assert bytes[..|bytes|] == bytes;
  }

  method CountZeros(bytes: seq<byte>) returns (zeros: nat)
    ensures zeros == Leading(bytes)
  {
    zeros := 0;
    while zeros < |bytes| && bytes[zeros] == 0
      invariant zeros <= Leading(bytes)
    {
      zeros := zeros + 1;
    }
  }

  method Base58Encode(bytes: seq<byte>) returns (s: string)
    ensures s == Encode(bytes)
  {
    var n := NumberOf(bytes);
    var out := LettersOf(n);
    var zeros := CountZeros(bytes);
    TextOnes(zeros, Minimal(58, n));
    s := seq(zeros, _ => '1') + out;
  }
}
