/** Bytes and the few text operations the app performs on them: ASCII codes of
    characters (Swift's `Character.asciiValue`), ASCII lower-casing, substring
    search and the decimal rendering of an integer. */
module Ascii {
  import opened Wrappers

  /** Swift's `UInt8`. Swift traps on overflow, so every arithmetic step on a
      `Byte` in this model must be proved to stay in range. */
  newtype Byte = b: int | 0 <= b < 0x100

  /** `Character.asciiValue`: the code of a character below 128, nil otherwise. */
  function AsciiValue(c: char): Option<Byte> {
    if c as int < 128 then Some(c as int as Byte) else None
  }

  predicate IsAsciiString(s: string) {
    forall i :: 0 <= i < |s| ==> s[i] as int < 128
  }

  /** The bytes of the ASCII characters of `s`, in order; other characters are skipped. */
  function AsciiBytes(s: string): seq<Byte> {
    if s == [] then []
    else
      match AsciiValue(s[0])
      case Some(b) => [b] + AsciiBytes(s[1..])
      case None => AsciiBytes(s[1..])
  }

  /** The characters a byte sequence stands for (one character per byte). */
  function CharsOf(bs: seq<Byte>): string {
    seq(|bs|, i requires 0 <= i < |bs| => bs[i] as int as char)
  }

  lemma {:induction false} AsciiBytesAppend(s: string, t: string)
    ensures AsciiBytes(s + t) == AsciiBytes(s) + AsciiBytes(t)
  {
    if s == [] {
      assert s + t == t;
    } else {
      assert (s + t)[0] == s[0];
      assert (s + t)[1..] == s[1..] + t;
      AsciiBytesAppend(s[1..], t);
    }
  }

  /** Every byte produced is an ASCII code, and there is at most one per character. */
  lemma {:induction false} AsciiBytesBounds(s: string)
    ensures |AsciiBytes(s)| <= |s|
    ensures forall i :: 0 <= i < |AsciiBytes(s)| ==> AsciiBytes(s)[i] < 128
  {
    if s != [] {
      AsciiBytesBounds(s[1..]);
    }
  }

  /** On an all-ASCII string nothing is skipped and the bytes spell the string back. */
  lemma {:induction false} AsciiRoundTrip(s: string)
    requires IsAsciiString(s)
    ensures |AsciiBytes(s)| == |s|
    ensures CharsOf(AsciiBytes(s)) == s
  {
    if s != [] {
      assert IsAsciiString(s[1..]) by {
        forall i | 0 <= i < |s[1..]| ensures s[1..][i] as int < 128 {
          assert s[1..][i] == s[i + 1];
        }
      }
      AsciiRoundTrip(s[1..]);
      var rest := AsciiBytes(s[1..]);
      assert AsciiBytes(s) == [s[0] as int as Byte] + rest;
      forall i | 0 <= i < |s| ensures CharsOf(AsciiBytes(s))[i] == s[i] {
        if i > 0 {
          assert CharsOf(rest)[i - 1] == s[1..][i - 1];
        }
      }
    }
  }

  /** A string with no ASCII character produces no byte. */
  lemma {:induction false} AsciiBytesOfNonAscii(s: string)
    requires forall i :: 0 <= i < |s| ==> s[i] as int >= 128
    ensures AsciiBytes(s) == []
  {
    if s != [] {
      AsciiBytesOfNonAscii(s[1..]);
    }
  }

  function LowerChar(c: char): char {
    if IsUpperLetter(c) then (c as int + 32) as char else c
  }

  predicate IsUpperLetter(c: char) {
    'A' <= c <= 'Z'
  }

  /** `lowercased()`, restricted to the ASCII letters: each of A-Z becomes the
      letter 32 code points above it, a-z, and every other character stays. */
  function Lowercased(s: string): (r: string)
    ensures |r| == |s|
    ensures forall i :: 0 <= i < |s| && IsUpperLetter(s[i]) ==> r[i] as int == s[i] as int + 32
    ensures forall i :: 0 <= i < |s| && !IsUpperLetter(s[i]) ==> r[i] == s[i]
  {
    seq(|s|, i requires 0 <= i < |s| => LowerChar(s[i]))
  }

  /** A lower-cased string has no upper-case letter left, so lower-casing it
      again changes nothing. */
  lemma LowercasedIsLower(s: string)
    ensures forall i :: 0 <= i < |s| ==> !IsUpperLetter(Lowercased(s)[i])
    ensures Lowercased(Lowercased(s)) == Lowercased(s)
  {
    var r := Lowercased(s);
    forall i | 0 <= i < |s|
      ensures !IsUpperLetter(r[i])
    {
      if IsUpperLetter(s[i]) {
        assert r[i] as int == s[i] as int + 32;
      } else {
        assert r[i] == s[i];
      }
    }
  }

  /** `t` occurs in `s` starting at position `i`. */
  predicate OccursAt(s: string, t: string, i: int) {
    0 <= i && i + |t| <= |s| && s[i..i + |t|] == t
  }

  /** `s.contains(t)`: a search that tries every position of `s` in turn. */
  function Contains(s: string, t: string): bool
    decreases |s|
  {
    if |t| > |s| then false
    else s[..|t|] == t || Contains(s[1..], t)
  }

  /** The search finds `t` exactly when `t` occurs somewhere in `s`. */
  lemma {:induction false} ContainsIff(s: string, t: string)
    ensures Contains(s, t) <==> exists i :: OccursAt(s, t, i)
    decreases |s|
  {
    if |t| <= |s| {
      if s[..|t|] == t {
        assert OccursAt(s, t, 0);
      } else {
        ContainsIff(s[1..], t);
        if Contains(s[1..], t) {
          var i :| OccursAt(s[1..], t, i);
          SliceOfTail(s, i + 1, |t|);
          assert OccursAt(s, t, i + 1);
        } else {
          forall i ensures !OccursAt(s, t, i) {
            if i == 0 {
              assert s[i..i + |t|] == s[..|t|];
            } else if 0 < i && i + |t| <= |s| {
              SliceOfTail(s, i, |t|);
              assert !OccursAt(s[1..], t, i - 1);
            }
          }
        }
      }
    }
  }

  /** A slice of `s` that skips the first character is a slice of its tail. */
  lemma SliceOfTail(s: string, i: int, n: int)
    requires 1 <= i && 0 <= n && i + n <= |s|
    ensures s[i..i + n] == s[1..][i - 1..i - 1 + n]
  {
    var a, b := s[i..i + n], s[1..][i - 1..i - 1 + n];
    assert |a| == |b| == n;
    assert forall k :: 0 <= k < n ==> a[k] == b[k];
  }

  function DigitChar(d: nat): char
    requires d < 10
  {
    ('0' as int + d) as char
  }

  /** The decimal digits of `n`, most significant first, without leading zeros. */
  function NatDigits(n: nat): string
    decreases n
  {
    if n < 10 then [DigitChar(n)] else NatDigits(n / 10) + [DigitChar(n % 10)]
  }

  /** String interpolation of an integer: an optional minus sign and the digits. */
  function DecimalString(n: int): string {
    if n < 0 then "-" + NatDigits(-n) else NatDigits(n)
  }

  predicate IsDigit(c: char) {
    '0' <= c <= '9'
  }

  /** The number a non-empty string of digits spells. */
  function DigitsValue(s: string): nat
    requires forall i :: 0 <= i < |s| ==> IsDigit(s[i])
  {
    if s == [] then 0
    else
      assert IsDigit(s[|s| - 1]);
      DigitsValue(s[..|s| - 1]) * 10 + (s[|s| - 1] as int - '0' as int)
  }

  lemma {:induction false} NatDigitsRoundTrip(n: nat)
    ensures |NatDigits(n)| > 0
    ensures forall i :: 0 <= i < |NatDigits(n)| ==> IsDigit(NatDigits(n)[i])
    ensures DigitsValue(NatDigits(n)) == n
    decreases n
  {
    if n >= 10 {
      NatDigitsRoundTrip(n / 10);
      var s := NatDigits(n);
      assert s[..|s| - 1] == NatDigits(n / 10);
    }
  }

  /** A negative number's rendering starts with '-', a non-negative one's with a digit. */
  lemma DecimalStringSign(n: int)
    ensures |DecimalString(n)| > 0
    ensures DecimalString(n)[0] == '-' <==> n < 0
  {
    NatDigitsRoundTrip(if n < 0 then -n else n);
    if n >= 0 {
      assert IsDigit(NatDigits(n)[0]);
    }
  }

  /** Different integers are rendered as different strings. */
  lemma DecimalStringInjective(a: int, b: int)
    ensures DecimalString(a) == DecimalString(b) ==> a == b
  {
    DecimalStringSign(a);
    DecimalStringSign(b);
    NatDigitsRoundTrip(if a < 0 then -a else a);
    NatDigitsRoundTrip(if b < 0 then -b else b);
    if a < 0 && b < 0 {
      assert NatDigits(-a) == DecimalString(a)[1..];
      assert NatDigits(-b) == DecimalString(b)[1..];
    }
  }
}
