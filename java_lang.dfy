/**
 * The few pieces of java.lang that the login core relies on: the 64-bit `long`
 * range and its wrap-around, `long` division, `String.toLowerCase`,
 * `String.trim`, `Long.toString` and `Long.parseLong`.
 */
module JavaLang {
  import opened Wrappers

  const MinLong: int := -0x8000_0000_0000_0000
  const MaxLong: int := 0x7FFF_FFFF_FFFF_FFFF
  const LongModulus: int := 0x1_0000_0000_0000_0000

  /** Java's `long`. */
  type Long = x: int | MinLong <= x <= MaxLong

  /** The value Java's two's-complement `long` arithmetic yields for the exact result `x`. */
  function WrapLong(x: int): (r: Long)
    ensures MinLong <= x <= MaxLong ==> r == x
    ensures (x - r) % LongModulus == 0
  {
    (x - MinLong) % LongModulus + MinLong
  }

  /** Java's `long` division by 1000: the quotient truncated toward zero (Dafny's `/` is Euclidean). */
  function TruncDivBy1000(a: Long): (q: Long)
    ensures 0 <= a ==> 1000 * q <= a < 1000 * q + 1000
    ensures a < 0 ==> 1000 * q - 1000 < a <= 1000 * q
  {
    if 0 <= a then a / 1000 else -((-(a as int)) / 1000)
  }

  // ----- characters and String -----

  predicate IsUpperAscii(c: char) { 'A' <= c <= 'Z' }

  /** True of the characters `String.trim` removes: every code point up to and including the space. */
  predicate IsTrimmable(c: char) { c <= ' ' }

  function ToLowerChar(c: char): (d: char)
    ensures !IsUpperAscii(d)
    ensures IsTrimmable(d) <==> IsTrimmable(c)
    ensures !IsUpperAscii(c) ==> d == c
  {
    if IsUpperAscii(c) then (c as int - 'A' as int + 'a' as int) as char else c
  }

  /** `String.toLowerCase`, restricted to the ASCII letters: every other character is kept. */
  function ToLowerCase(s: string): (r: string)
    ensures |r| == |s|
    ensures forall i :: 0 <= i < |s| ==> r[i] == ToLowerChar(s[i])
  {
    seq(|s|, i requires 0 <= i < |s| => ToLowerChar(s[i]))
  }

  predicate NoUpperAscii(s: string) { forall i :: 0 <= i < |s| ==> !IsUpperAscii(s[i]) }

  lemma ToLowerCaseLeavesLower(s: string)
    requires NoUpperAscii(s)
    ensures ToLowerCase(s) == s
  {
  }

  /** Lower-casing a slice is slicing the lower-cased string. */
  lemma ToLowerCaseSlice(s: string, a: nat, b: nat)
    requires a <= b <= |s|
    ensures ToLowerCase(s[a..b]) == ToLowerCase(s)[a..b]
  {
  }

  /** A string whose lower-cased form is all blanks is itself all blanks. */
  lemma ToLowerCaseKeepsBlanks(s: string)
    requires AllTrimmable(ToLowerCase(s))
    ensures AllTrimmable(s)
  {
    forall i | 0 <= i < |s|
      ensures IsTrimmable(s[i])
    {
      assert IsTrimmable(ToLowerCase(s)[i]);
    }
  }

  /**
   * Lower-casing commutes with taking the slice `s[lo..hi]`, and where the
   * lower-cased string is blank around that slice, so is `s`.
   */
  lemma LowerCaseAroundSlice(s: string, lo: nat, hi: nat)
    requires lo <= hi <= |s|
    requires AllTrimmable(ToLowerCase(s)[..lo]) && AllTrimmable(ToLowerCase(s)[hi..])
    ensures ToLowerCase(s[lo..hi]) == ToLowerCase(s)[lo..hi]
    ensures AllTrimmable(s[..lo]) && AllTrimmable(s[hi..])
  {
    ToLowerCaseSlice(s, lo, hi);
    ToLowerCaseSlice(s, 0, lo);
    ToLowerCaseSlice(s, hi, |s|);
    assert s[..lo] == s[0..lo] && ToLowerCase(s)[..lo] == ToLowerCase(s)[0..lo];
    assert s[hi..] == s[hi..|s|] && ToLowerCase(s)[hi..] == ToLowerCase(s)[hi..|s|];
    ToLowerCaseKeepsBlanks(s[..lo]);
    ToLowerCaseKeepsBlanks(s[hi..]);
  }

  /** The number of trimmable characters at the front of `s`. */
  function LeadingBlanks(s: string): (n: nat)
    ensures n <= |s|
    ensures forall i :: 0 <= i < n ==> IsTrimmable(s[i])
    ensures n < |s| ==> !IsTrimmable(s[n])
  {
    if |s| > 0 && IsTrimmable(s[0]) then 1 + LeadingBlanks(s[1..]) else 0
  }

  /** The number of trimmable characters at the end of `s`. */
  function TrailingBlanks(s: string): (n: nat)
    ensures n <= |s|
    ensures forall i :: |s| - n <= i < |s| ==> IsTrimmable(s[i])
    ensures n < |s| ==> !IsTrimmable(s[|s| - 1 - n])
  {
    if |s| > 0 && IsTrimmable(s[|s| - 1]) then 1 + TrailingBlanks(s[..|s| - 1]) else 0
  }

  /** Trimmed: nothing trimmable at either end. */
  predicate IsTrimmed(s: string) {
    s == [] || (!IsTrimmable(s[0]) && !IsTrimmable(s[|s| - 1]))
  }

  /** `String.trim`: drops every character up to U+0020 from both ends. */
  function Trim(s: string): (r: string)
    ensures IsTrimmed(r)
    ensures r == [] <==> forall i :: 0 <= i < |s| ==> IsTrimmable(s[i])
    ensures forall c :: c in r ==> c in s
  {
    var lo := LeadingBlanks(s);
    var hi := |s| - TrailingBlanks(s);
    if lo == |s| then [] else s[lo..hi]
  }

  predicate AllTrimmable(s: string) { forall i :: 0 <= i < |s| ==> IsTrimmable(s[i]) }

  /**
   * `Trim(s)` is the slice of `s` that starts after its leading blanks;
   * everything cut off on either side is trimmable.
   */
  lemma {:induction false} TrimIsSlice(s: string)
    ensures var lo := LeadingBlanks(s);
      && lo + |Trim(s)| <= |s| && s[lo..lo + |Trim(s)|] == Trim(s)
      && AllTrimmable(s[..lo]) && AllTrimmable(s[lo + |Trim(s)|..])
  {
    var lo := LeadingBlanks(s);
    if lo == |s| {
      assert s[lo..] == [];
    } else {
      var hi := |s| - TrailingBlanks(s);
      assert lo <= hi;
      assert s[lo..hi] == Trim(s) && AllTrimmable(s[..lo]) && AllTrimmable(s[hi..]);
    }
  }

  lemma TrimLeavesTrimmed(s: string)
    requires IsTrimmed(s)
    ensures Trim(s) == s
  {
  }

  // ----- Long.toString and Long.parseLong (radix 10) -----

  predicate IsDigit(c: char) { '0' <= c <= '9' }

  predicate AllDigits(s: string) { forall i :: 0 <= i < |s| ==> IsDigit(s[i]) }

  function DigitChar(d: nat): (c: char)
    requires d < 10
    ensures IsDigit(c)
  {
    ('0' as int + d) as char
  }

  function DigitValue(c: char): (d: nat)
    requires IsDigit(c)
    ensures d < 10 && DigitChar(d) == c
  {
    c as int - '0' as int
  }

  /** The decimal digits of `n`, most significant first, without leading zeros. */
  function NatToDecimal(n: nat): (s: string)
    ensures |s| > 0 && AllDigits(s)
    ensures s[0] == '0' ==> n == 0
    decreases n
  {
    if n < 10 then [DigitChar(n)] else NatToDecimal(n / 10) + [DigitChar(n % 10)]
  }

  /** The number a string of decimal digits denotes. */
  function DecimalValue(s: string): nat
    requires AllDigits(s)
  {
    if s == [] then 0 else 10 * DecimalValue(s[..|s| - 1]) + DigitValue(s[|s| - 1])
  }

  lemma {:induction false} DecimalValueOfNatToDecimal(n: nat)
    ensures DecimalValue(NatToDecimal(n)) == n
    decreases n
  {
    if n >= 10 {
      var s := NatToDecimal(n);
      assert s[..|s| - 1] == NatToDecimal(n / 10);
      DecimalValueOfNatToDecimal(n / 10);
    }
  }

  /** `Long.toString(n)`: a minus sign for negatives, then the digits of the magnitude. */
  function LongToString(n: Long): (s: string)
    ensures |s| > 0
    ensures s[0] == '-' <==> n < 0
  {
    if n < 0 then "-" + NatToDecimal(-(n as int)) else NatToDecimal(n)
  }

  /**
   * `Long.parseLong(s)`: an optional '-' or '+', then at least one decimal digit,
   * and the value must lie in the `long` range; anything else is a
   * NumberFormatException, here `None`.
   */
  function ParseLong(s: string): (r: Option<Long>)
    ensures r.Some? ==> |s| > 0 && AllDigits(s[1..]) && (IsDigit(s[0]) || s[0] in "+-")
    ensures r.Some? && s[0] == '-' ==> r.value <= 0
    ensures r.Some? && s[0] != '-' ==> r.value >= 0
  {
    if |s| == 0 then None
    else
      var signed := s[0] == '-' || s[0] == '+';
      var digits := if signed then s[1..] else s;
      if |digits| == 0 || !AllDigits(digits) then None
      else
        var v: int := if s[0] == '-' then -(DecimalValue(digits) as int) else DecimalValue(digits);
        if MinLong <= v <= MaxLong then Some(v) else None
  }

  /** `Long.parseLong` inverts `Long.toString` on every `long`. */
  lemma {:induction false} ParseLongOfLongToString(n: Long)
    ensures ParseLong(LongToString(n)) == Some(n)
  {
    var s := LongToString(n);
    if n < 0 {
      assert s[1..] == NatToDecimal(-(n as int));
      DecimalValueOfNatToDecimal(-(n as int));
    } else {
      DecimalValueOfNatToDecimal(n);
    }
  }
}
