/**
 The string forms that entity ids are built from: `BigInt.toHexString`,
 `Bytes.toHexString` (addresses, hashes), `BigInt.toString`, and ids joined by a
 dash. Each is given a concrete definition so that the property the handlers rely
 on, that different values give different ids, is proved rather than assumed.
 */
module Encoding {

  /** One byte of a `Bytes` value. */
  type Byte = b: int | 0 <= b < 256

  /** An address, a transaction hash or a content hash. */
  type Bytes = seq<Byte>

  /** The character joining the two halves of a composite id. */
  const Dash: char := '-'

  /** True iff `s` never contains the joining character. */
  predicate DashFree(s: string) {
    forall i :: 0 <= i < |s| ==> s[i] != Dash
  }

  /** A lower-case hexadecimal (and so also decimal) digit. */
  function Digit(d: nat): (c: char)
    requires d < 16
    ensures c != Dash
  {
    if d < 10 then (48 + d) as char else (87 + d) as char
  }

  lemma DigitInjective(d: nat, e: nat)
    requires d < 16 && e < 16
    requires Digit(d) == Digit(e)
    ensures d == e
  {
  }

  /** The digits of `n` in `base`, most significant first, without leading zeros. */
  function Digits(n: nat, base: nat): (r: string)
    requires 2 <= base <= 16
    ensures |r| >= 1
    ensures n >= base ==> |r| >= 2
    decreases n
  {
    if n < base then [Digit(n)] else Digits(n / base, base) + [Digit(n % base)]
  }

  /** Digit strings never contain the joining character. */
  lemma {:induction false} DigitsDashFree(n: nat, base: nat)
    requires 2 <= base <= 16
    ensures DashFree(Digits(n, base))
    decreases n
  {
    if n >= base {
      DivMod(n, base);
      DigitsDashFree(n / base, base);
    }
  }

  lemma DivMod(n: nat, base: nat)
    requires base >= 2
    ensures n == base * (n / base) + n % base
    ensures n >= base ==> n / base < n
  {
    if n >= base {
      var q := n / base;
      assert base * q <= n;
      assert q + q <= base * q;
    }
  }

  /**
   Splits two numbers of at least two digits into their quotients and last digits:
   each digit string is its quotient's digits followed by its last digit, and equal
   quotients and last digits mean equal numbers.
   */
  lemma SplitBoth(a: nat, b: nat, base: nat) returns (qa: nat, ra: nat, qb: nat, rb: nat)
    requires 2 <= base <= 16
    requires a >= base && b >= base
    ensures qa < a && ra < base && rb < base
    ensures Digits(a, base) == Digits(qa, base) + [Digit(ra)]
    ensures Digits(b, base) == Digits(qb, base) + [Digit(rb)]
    ensures qa == qb && ra == rb ==> a == b
  {
    qa, ra, qb, rb := a / base, a % base, b / base, b % base;
    DivMod(a, base);
    DivMod(b, base);
  }

  /** Equal strings that end in one character each agree on the prefix and on that character. */
  lemma SnocInjective(s: string, c: char, t: string, d: char)
    requires s + [c] == t + [d]
    ensures s == t && c == d
  {
    assert s == (s + [c])[..|s|];
    assert t == (t + [d])[..|t|];
  }

  /** Equal digit strings where one number has a single digit: both are that digit. */
  lemma DigitsShort(a: nat, b: nat, base: nat)
    requires 2 <= base <= 16
    requires a < base || b < base
    requires Digits(a, base) == Digits(b, base)
    ensures a == b
  {
    if a < base && b < base {
      DigitInjective(a, b);
    }
  }

  /** Different numbers have different digit strings. */
  lemma {:induction false} DigitsInjective(a: nat, b: nat, base: nat)
    requires 2 <= base <= 16
    requires Digits(a, base) == Digits(b, base)
    ensures a == b
    decreases a
  {
    if a < base || b < base {
      DigitsShort(a, b, base);
    } else {
      var qa, ra, qb, rb := SplitBoth(a, b, base);
      SnocInjective(Digits(qa, base), Digit(ra), Digits(qb, base), Digit(rb));
      DigitInjective(ra, rb);
      DigitsInjective(qa, qb, base);
    }
  }

  /** `BigInt.toHexString`: `0x` followed by the minimal hexadecimal digits. */
  function NatHex(n: nat): (r: string)
    ensures DashFree(r)

  {
    DigitsDashFree(n, 16);
    "0x" + Digits(n, 16)
  }

  /** `BigInt.toString`: the decimal digits. */
  function NatDecimal(n: nat): (r: string)
    ensures DashFree(r)
    ensures |r| >= 1
  {
    DigitsDashFree(n, 10);
    Digits(n, 10)
  }

  lemma NatHexInjective(a: nat, b: nat)
    requires NatHex(a) == NatHex(b)
    ensures a == b
  {
    assert Digits(a, 16) == NatHex(a)[2..] == NatHex(b)[2..] == Digits(b, 16);
    DigitsInjective(a, b, 16);
  }

  lemma NatDecimalInjective(a: nat, b: nat)
    requires NatDecimal(a) == NatDecimal(b)
    ensures a == b
  {
    DigitsInjective(a, b, 10);
  }

  /** The two hexadecimal digits of one byte. */
  function ByteHex(b: Byte): string {
    [Digit(b / 16), Digit(b % 16)]
  }

  /** The hexadecimal digits of a byte string, two per byte. */
  function HexOfBytes(bs: Bytes): (r: string)
    ensures |r| == 2 * |bs|
    ensures DashFree(r)
  {
    if bs == [] then "" else ByteHex(bs[0]) + HexOfBytes(bs[1..])
  }

  /** Different byte strings have different hexadecimal forms. */
  lemma {:induction false} HexOfBytesInjective(a: Bytes, b: Bytes)
    requires HexOfBytes(a) == HexOfBytes(b)
    ensures a == b
  {
    if a != [] {
      var s := HexOfBytes(a);
      assert s == ByteHex(a[0]) + HexOfBytes(a[1..]);
      assert s == ByteHex(b[0]) + HexOfBytes(b[1..]);
      assert s[0] == Digit(a[0] / 16) == Digit(b[0] / 16);
      assert s[1] == Digit(a[0] % 16) == Digit(b[0] % 16);
      DigitInjective(a[0] / 16, b[0] / 16);
      DigitInjective(a[0] % 16, b[0] % 16);
      assert HexOfBytes(a[1..]) == s[2..] == HexOfBytes(b[1..]);
      HexOfBytesInjective(a[1..], b[1..]);
      assert a == [a[0]] + a[1..];
      assert b == [b[0]] + b[1..];
    }
  }

  /** `Bytes.toHexString` (also `Address.toHexString`): `0x` and two digits per byte. */
  function BytesHex(bs: Bytes): (r: string)
    ensures DashFree(r)

  {
    "0x" + HexOfBytes(bs)
  }

  lemma BytesHexInjective(a: Bytes, b: Bytes)
    requires BytesHex(a) == BytesHex(b)
    ensures a == b
  {
    assert HexOfBytes(a) == BytesHex(a)[2..] == BytesHex(b)[2..] == HexOfBytes(b);
    HexOfBytesInjective(a, b);
  }

  /** The template `${left}-${right}` used for composite ids. */
  function JoinDash(left: string, right: string): string {
    left + [Dash] + right
  }

  /** A composite id determines both of its halves when the left half is dash-free. */
  lemma JoinDashInjective(a: string, b: string, c: string, d: string)
    requires DashFree(a) && DashFree(c)
    requires JoinDash(a, b) == JoinDash(c, d)
    ensures a == c && b == d
  {
    var s := JoinDash(a, b);
    assert s[|a|] == Dash;
    assert s[|c|] == Dash;
    assert forall i :: 0 <= i < |a| ==> s[i] == a[i];
    assert forall i :: 0 <= i < |c| ==> s[i] == c[i];
    assert |a| == |c|;
    assert a == s[..|a|] == c;
    assert b == s[|a| + 1..] == d;
  }
}
