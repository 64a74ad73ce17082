/** The string operations the command line and the object naming rely on:
    ASCII case mapping, decimal digits (`str(n)`, `int(s)`), `zfill` and `split`. */
module Text {

  // ---------------------------------------------------------------------------
  // Case mapping (ASCII letters only)

  function LowerChar(c: char): char {
    if 'A' <= c <= 'Z' then (c as int + 32) as char else c
  }

  function UpperChar(c: char): char {
    if 'a' <= c <= 'z' then (c as int - 32) as char else c
  }

  /** `s.lower()`. */
  function Lower(s: string): (r: string)
    ensures |r| == |s|
    ensures forall i :: 0 <= i < |s| ==> r[i] == LowerChar(s[i])
  {
    seq(|s|, i requires 0 <= i < |s| => LowerChar(s[i]))
  }

  /** Lower-casing twice is lower-casing once. */
  lemma LowerIdempotent(s: string)
    ensures Lower(Lower(s)) == Lower(s)
  {
  }

  /** Lower-casing works piece by piece. */
  lemma LowerAppend(a: string, b: string)
    ensures Lower(a + b) == Lower(a) + Lower(b)
  {
    var l, r := Lower(a + b), Lower(a) + Lower(b);
    forall k | 0 <= k < |l| ensures l[k] == r[k] {
      if k < |a| {
        assert (a + b)[k] == a[k];
      } else {
        assert (a + b)[k] == b[k - |a|];
      }
    }
  }

  // ---------------------------------------------------------------------------
  // Decimal digits

  predicate IsDigit(c: char) {
    '0' <= c <= '9'
  }

  predicate AllDigits(s: string) {
    forall i :: 0 <= i < |s| ==> IsDigit(s[i])
  }

  function DigitChar(d: nat): (c: char)
    requires d < 10
    ensures IsDigit(c)
  {
    ('0' as int + d) as char
  }

  function DigitValue(c: char): (d: nat)
    requires IsDigit(c)
    ensures d < 10 && DigitChar(d) == c
  {
    c as int - '0' as int
  }

  /** Digits have no case. */
  lemma LowerDigits(s: string)
    requires AllDigits(s)
    ensures Lower(s) == s
  {
  }

  /** `str(n)` for a non-negative integer: its decimal digits, no leading zeros. */
  function NatToString(n: nat): (s: string)
    ensures |s| > 0 && AllDigits(s)
    ensures |s| > 1 ==> s[0] != '0'
  {
    if n < 10 then [DigitChar(n)]
    else NatToString(n / 10) + [DigitChar(n % 10)]
  }

  /** The number a string of decimal digits denotes (leading zeros allowed). */
  function DigitsValue(s: string): nat
    requires AllDigits(s)
  {
    if s == [] then 0
    else DigitsValue(s[..|s| - 1]) * 10 + DigitValue(s[|s| - 1])
  }

  /** Reading back the digits of `str(n)` gives n. */
  lemma {:induction false} NatToStringRoundTrip(n: nat)
    ensures DigitsValue(NatToString(n)) == n
  {
    if n >= 10 {
      var s := NatToString(n);
      assert s[..|s| - 1] == NatToString(n / 10);
      NatToStringRoundTrip(n / 10);
    }
  }

  /** A run of zeros. */
  function Zeros(k: nat): (z: string)
    ensures |z| == k && AllDigits(z)
  {
    seq(k, _ => '0')
  }

  /** Leading zeros do not change the value of a digit string. */
  lemma {:induction false} LeadingZerosValue(k: nat, s: string)
    requires AllDigits(s)
    ensures DigitsValue(Zeros(k) + s) == DigitsValue(s)
  {
    if s == [] {
      ZerosValue(k);
      assert Zeros(k) + s == Zeros(k);
    } else {
      var p := s[..|s| - 1];
      assert (Zeros(k) + s)[..|Zeros(k) + s| - 1] == Zeros(k) + p;
      LeadingZerosValue(k, p);
    }
  }

  /** A run of zeros denotes 0. */
  lemma {:induction false} ZerosValue(k: nat)
    ensures DigitsValue(Zeros(k)) == 0
  {
    if k > 0 {
      assert Zeros(k)[..k - 1] == Zeros(k - 1);
      ZerosValue(k - 1);
    }
  }

  /** `s.zfill(width)` for a digit string: padded on the left with zeros to at least `width` characters. */
  function ZeroPad(s: string, width: nat): (r: string)
    ensures |r| == if |s| >= width then |s| else width
    ensures r[|r| - |s|..] == s
    ensures forall i :: 0 <= i < |r| - |s| ==> r[i] == '0'
  {
    if |s| >= width then s else Zeros(width - |s|) + s
  }

  /** `str(n).zfill(width)` still denotes n, so distinct numbers give distinct names. */
  lemma ZeroPadRoundTrip(n: nat, width: nat)
    ensures AllDigits(ZeroPad(NatToString(n), width))
    ensures DigitsValue(ZeroPad(NatToString(n), width)) == n
  {
    var s := NatToString(n);
    NatToStringRoundTrip(n);
    if |s| < width {
      assert ZeroPad(s, width) == Zeros(width - |s|) + s;
      LeadingZerosValue(width - |s|, s);
    } else {
      assert ZeroPad(s, width) == s;
    }
  }

  /** Two zero-padded numbers are equal only when the numbers are. */
  lemma ZeroPadInjective(n1: nat, n2: nat, width: nat)
    requires n1 != n2
    ensures ZeroPad(NatToString(n1), width) != ZeroPad(NatToString(n2), width)
  {
    ZeroPadRoundTrip(n1, width);
    ZeroPadRoundTrip(n2, width);
  }

  // ---------------------------------------------------------------------------
  // Splitting on a separator (`s.split(sep)`)

  /** The number of occurrences of c in s. */
  function Occurrences(s: string, c: char): nat {
    if s == [] then 0 else (if s[0] == c then 1 else 0) + Occurrences(s[1..], c)
  }

  /** `s.split(sep)`: the pieces between separators, empty pieces included. */
  function Split(s: string, sep: char): (parts: seq<string>)
    ensures |parts| == Occurrences(s, sep) + 1
    ensures forall k :: 0 <= k < |parts| ==> sep !in parts[k]
  {
    if s == [] then [[]]
    else
      var rest := Split(s[1..], sep);
      if s[0] == sep then [[]] + rest
      else [[s[0]] + rest[0]] + rest[1..]
  }

  /** `sep.join(parts)`. */
  function Join(parts: seq<string>, sep: char): string
    requires |parts| > 0
  {
    if |parts| == 1 then parts[0] else parts[0] + [sep] + Join(parts[1..], sep)
  }

  /** Splitting undoes joining when no piece holds the separator. */
  lemma {:induction false} SplitJoin(parts: seq<string>, sep: char)
    requires |parts| > 0
    requires forall k :: 0 <= k < |parts| ==> sep !in parts[k]
    ensures Split(Join(parts, sep), sep) == parts
  {
    if |parts| == 1 {
      SplitNoSeparator(parts[0], sep);
    } else {
      SplitJoin(parts[1..], sep);
      SplitAfterPiece(parts[0], Join(parts[1..], sep), sep);
      assert parts == [parts[0]] + parts[1..];
    }
  }

  /** A string without the separator splits into itself. */
  lemma {:induction false} SplitNoSeparator(s: string, sep: char)
    requires sep !in s
    ensures Split(s, sep) == [s]
  {
    if s != [] {
      SplitNoSeparator(s[1..], sep);
      assert [s[0]] + s[1..] == s;
    }
  }

  /** A leading piece followed by the separator splits off as the first part. */
  lemma {:induction false} SplitAfterPiece(p: string, rest: string, sep: char)
    requires sep !in p
    ensures Split(p + [sep] + rest, sep) == [p] + Split(rest, sep)
  {
    if p == [] {
      assert p + [sep] + rest == [sep] + rest;
      assert ([sep] + rest)[1..] == rest;
    } else {
      var s := p + [sep] + rest;
      assert s[1..] == p[1..] + [sep] + rest;
      SplitAfterPiece(p[1..], rest, sep);
      assert [p[0]] + p[1..] == p;
    }
  }
}
