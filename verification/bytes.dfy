/** Bytes as the program handles them: 8-bit characters, the line-ending
    rewrite applied on output, and decimal rendering and parsing of
    unsigned numbers. */
module Bytes {

  type byte = x: int | 0 <= x < 256

  const NUL: byte := 0
  const TAB: byte := 9
  const LF: byte := 10
  const CR: byte := 13
  const SPACE: byte := 32
  const HASH: byte := 35
  const AMP: byte := 38
  const SEMI: byte := 59
  const ZERO: byte := 48
  const UNDERSCORE: byte := 95
  const LOWER_X: byte := 120

  /** The byte of each character of an ASCII (or Latin-1) string. */
  function Ascii(s: string): (r: seq<byte>)
    requires forall i :: 0 <= i < |s| ==> s[i] as int < 256
    ensures |r| == |s|
    ensures forall i :: 0 <= i < |s| ==> r[i] == s[i] as int
  {
    if s == [] then [] else [s[0] as int] + Ascii(s[1..])
  }

  /** n copies of byte b. */
  function Repeat(b: byte, n: nat): (r: seq<byte>)
    ensures |r| == n
    ensures forall i :: 0 <= i < n ==> r[i] == b
  {
    if n == 0 then [] else Repeat(b, n - 1) + [b]
  }

  // ---------------------------------------------------------------------
  // Line-ending rewrite of the output writer

  /** The output convention of the target platform: a line feed is stored
      as a carriage return, every other byte as it is. */
  function NormalizeByte(b: byte): (r: byte)
    ensures r != LF
    ensures b != LF ==> r == b
  {
    if b == LF then CR else b
  }

  /** The rewrite applied byte by byte to a whole stream. */
  function Normalize(s: seq<byte>): (r: seq<byte>)
    ensures |r| == |s|
    ensures forall i :: 0 <= i < |s| ==> r[i] == NormalizeByte(s[i])
  {
    if s == [] then [] else [NormalizeByte(s[0])] + Normalize(s[1..])
  }

  /** The rewrite distributes over concatenation, so writing a stream piece
      by piece gives the same output as writing it at once. */
  lemma NormalizeAppend(a: seq<byte>, b: seq<byte>)
    ensures Normalize(a + b) == Normalize(a) + Normalize(b)
  {
    var l, r := Normalize(a + b), Normalize(a) + Normalize(b);
    assert |l| == |r|;
    forall i | 0 <= i < |l| ensures l[i] == r[i] {
      if i < |a| {
        assert (a + b)[i] == a[i];
      } else {
        assert (a + b)[i] == b[i - |a|];
      }
    }
  }

  /** No line feed survives the rewrite, and a stream without line feeds is
      left as it is; in particular the rewrite is idempotent. */
  lemma NormalizeFixesLineFeedFree(s: seq<byte>)
    ensures LF !in Normalize(s)
    ensures LF !in s ==> Normalize(s) == s
    ensures Normalize(Normalize(s)) == Normalize(s)
  {
    var n := Normalize(s);
    if LF !in s {
      forall i | 0 <= i < |s| ensures n[i] == s[i] {
        assert s[i] != LF;
      }
    }
    var nn := Normalize(n);
    forall i | 0 <= i < |n| ensures nn[i] == n[i] {
      assert n[i] != LF;
    }
  }

  // ---------------------------------------------------------------------
  // Digits

  /** The value of a byte read as a digit in any base up to 36 ('0'..'9',
      then 'a'..'z' or 'A'..'Z' for 10..35), or 36 when it is no digit. */
  function DigitValue(b: byte): (r: nat)
    ensures r <= 36
    ensures b < 48 || b == 59 ==> r == 36
  {
    if 48 <= b <= 57 then b - 48
    else if 97 <= b <= 122 then b - 97 + 10
    else if 65 <= b <= 90 then b - 65 + 10
    else 36
  }

  predicate IsDigit(b: byte, base: nat) {
    DigitValue(b) < base
  }

  predicate AllDigits(s: seq<byte>, base: nat) {
    forall i :: 0 <= i < |s| ==> IsDigit(s[i], base)
  }

  /** The number written by a run of digits, most significant first. */
  function DigitsValue(s: seq<byte>, base: nat): nat
    requires AllDigits(s, base)
  {
    if s == [] then 0
    else DigitsValue(s[..|s| - 1], base) * base + DigitValue(s[|s| - 1])
  }

  /** The length of the longest prefix of s that is made of digits. */
  function DigitRun(s: seq<byte>, base: nat): (k: nat)
    ensures k <= |s|
    ensures AllDigits(s[..k], base)
    ensures k < |s| ==> !IsDigit(s[k], base)
  {
    if s == [] || !IsDigit(s[0], base) then 0
    else
      var k := 1 + DigitRun(s[1..], base);
      assert s[..k] == [s[0]] + s[1..][..k - 1];
      k
  }

  /** printf's "%u": the decimal digits of n, without leading zeros. */
  function Decimal(n: nat): (r: seq<byte>)
    ensures 1 <= |r|
    ensures AllDigits(r, 10)
    ensures |r| > 1 ==> r[0] != ZERO
  {
    if n < 10 then [ZERO + n]
    else Decimal(n / 10) + [ZERO + n % 10]
  }

  /** Reading back the digits that Decimal renders gives the number. */
  lemma {:induction false} DecimalRoundTrip(n: nat)
    ensures DigitsValue(Decimal(n), 10) == n
  {
    var d := Decimal(n);
    if n >= 10 {
      DecimalRoundTrip(n / 10);
      assert d[..|d| - 1] == Decimal(n / 10);
    }
  }

  /** A rendered number followed by a non-digit is read as exactly its
      digits. */
  lemma {:induction false} DecimalRun(n: nat, rest: seq<byte>)
    requires rest != [] && !IsDigit(rest[0], 10)
    ensures DigitRun(Decimal(n) + rest, 10) == |Decimal(n)|
  {
    var d := Decimal(n);
    DigitRunOfDigits(d, rest, 10);
  }

  /** A run of digits followed by the end or by a non-digit is read as
      exactly that run. */
  lemma {:induction false} DigitRunOfDigits(d: seq<byte>, rest: seq<byte>, base: nat)
    requires AllDigits(d, base)
    requires rest == [] || !IsDigit(rest[0], base)
    ensures DigitRun(d + rest, base) == |d|
  {
    if d != [] {
      assert (d + rest)[1..] == d[1..] + rest;
      DigitRunOfDigits(d[1..], rest, base);
    } else {
      assert d + rest == rest;
    }
  }
}
