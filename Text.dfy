/**
 * String helpers the generator relies on: decimal rendering of numbers in
 * template literals, ASCII lower-casing and substring search
 * (`String.prototype.includes`).
 */
module Text {

  predicate IsDigit(c: char) {
    '0' <= c <= '9'
  }

  predicate AllDigits(s: string) {
    forall i :: 0 <= i < |s| ==> IsDigit(s[i])
  }

  function DigitChar(d: nat): (c: char)
    requires d < 10
    ensures IsDigit(c) && c as int - '0' as int == d
  {
    ('0' as int + d) as char
  }

  /** Decimal rendering of a natural number, as `${n}` prints an integral number. */
  function NatToString(n: nat): (s: string)
    ensures |s| >= 1 && AllDigits(s)
    ensures s[0] == '0' <==> n == 0
    decreases n
  {
    if n < 10 then [DigitChar(n)] else NatToString(n / 10) + [DigitChar(n % 10)]
  }

  /** The number a string of decimal digits denotes; the inverse of NatToString. */
  function DigitsValue(s: string): nat
    requires AllDigits(s)
    decreases |s|
  {
    if |s| == 0 then 0
    else DigitsValue(s[..|s| - 1]) * 10 + (s[|s| - 1] as int - '0' as int)
  }

  lemma {:induction false} DigitsValueOfNatToString(n: nat)
    ensures DigitsValue(NatToString(n)) == n
    decreases n
  {
    if n >= 10 {
      var s := NatToString(n);
      assert s[..|s| - 1] == NatToString(n / 10);
      DigitsValueOfNatToString(n / 10);
    }
  }

  lemma NatToStringInjective(a: nat, b: nat)
    requires NatToString(a) == NatToString(b)
    ensures a == b
  {
    DigitsValueOfNatToString(a);
    DigitsValueOfNatToString(b);
  }

  /**
   * In prefix + x + mid + y + suffix, with x and y digit strings each followed
   * by a non-digit or by the end, both numbers are read back at their offsets.
   */
  lemma ReadBackTwoNumbers(prefix: string, x: string, mid: string, y: string, suffix: string)
    requires AllDigits(x) && AllDigits(y)
    requires |mid| > 0 && !IsDigit(mid[0])
    requires suffix == [] || !IsDigit(suffix[0])
    ensures var s := prefix + x + mid + y + suffix;
      && |prefix| + |x| + |mid| <= |s|
      && s[..|prefix|] == prefix
      && LeadingDigits(s[|prefix|..]) == x
      && LeadingDigits(s[|prefix| + |x| + |mid|..]) == y
  {
    var s := prefix + x + mid + y + suffix;
    assert s[|prefix|..] == x + (mid + y + suffix);
    LeadingDigitsAppend(x, mid + y + suffix);
    assert s[|prefix| + |x| + |mid|..] == y + suffix;
    LeadingDigitsAppend(y, suffix);
  }

  /** The same, with the second number at the end of the string. */
  lemma ReadBackTwoNumbersAtEnd(prefix: string, x: string, mid: string, y: string)
    requires AllDigits(x) && AllDigits(y)
    requires |mid| > 0 && !IsDigit(mid[0])
    ensures var s := prefix + x + mid + y;
      && |prefix| + |x| + |mid| <= |s|
      && s[..|prefix|] == prefix
      && LeadingDigits(s[|prefix|..]) == x
      && LeadingDigits(s[|prefix| + |x| + |mid|..]) == y
  {
    ReadBackTwoNumbers(prefix, x, mid, y, []);
    assert prefix + x + mid + y + [] == prefix + x + mid + y;
  }

  /** ASCII case folding; other characters are left as they are. */
  function LowerChar(c: char): char {
    if IsUpper(c) then (c as int - 'A' as int + 'a' as int) as char else c
  }

  predicate IsUpper(c: char) {
    'A' <= c <= 'Z'
  }

  /**
   * Lower-casing keeps the length, leaves no upper-case ASCII letter, changes
   * nothing else, and maps each upper-case letter to the letter 32 code points on.
   */
  function ToLower(s: string): (r: string)
    ensures |r| == |s|
    ensures forall i :: 0 <= i < |s| ==> !IsUpper(r[i])
    ensures forall i :: 0 <= i < |s| && !IsUpper(s[i]) ==> r[i] == s[i]
    ensures forall i :: 0 <= i < |s| && IsUpper(s[i]) ==> r[i] as int == s[i] as int + 32
  {
    seq(|s|, i requires 0 <= i < |s| => LowerChar(s[i]))
  }

  /** Lower-casing twice is lower-casing once. */
  lemma ToLowerIdempotent(s: string)
    ensures ToLower(ToLower(s)) == ToLower(s)
  {
    var t := ToLower(s);
    assert forall i :: 0 <= i < |t| ==> !IsUpper(t[i]);
  }

  /** The longest prefix of `s` made of decimal digits. */
  function LeadingDigits(s: string): (p: string)
    ensures AllDigits(p) && |p| <= |s| && p == s[..|p|]
    ensures |p| == |s| || !IsDigit(s[|p|])
    decreases |s|
  {
    if |s| > 0 && IsDigit(s[0]) then [s[0]] + LeadingDigits(s[1..]) else []
  }

  /** A digit string followed by a non-digit, or by nothing, is read back whole. */
  lemma {:induction false} LeadingDigitsAppend(x: string, r: string)
    requires AllDigits(x)
    requires r == [] || !IsDigit(r[0])
    ensures LeadingDigits(x + r) == x
    decreases |x|
  {
    if |x| > 0 {
      assert (x + r)[1..] == x[1..] + r;
      LeadingDigitsAppend(x[1..], r);
      assert x == [x[0]] + x[1..];
    }
  }

  /** `p` occurs in `s` starting at index `i`. */
  ghost predicate OccursAt(s: string, p: string, i: int) {
    0 <= i && i + |p| <= |s| && s[i..i + |p|] == p
  }

  /** `s.includes(p)`: true exactly when `p` occurs somewhere in `s`. */
  function Includes(s: string, p: string): (r: bool)
    ensures r <==> exists i :: OccursAt(s, p, i)
    decreases |s|
  {
    if |p| > |s| then false
    else if s[..|p|] == p then assert OccursAt(s, p, 0); true
    else
      var r := Includes(s[1..], p);
      assert r ==> exists i :: OccursAt(s, p, i) by {
        if r {
          var j :| OccursAt(s[1..], p, j);
          assert s[1..][j..j + |p|] == s[j + 1..j + 1 + |p|];
          assert OccursAt(s, p, j + 1);
        }
      }
      assert (exists i :: OccursAt(s, p, i)) ==> r by {
        if exists i :: OccursAt(s, p, i) {
          var i :| OccursAt(s, p, i);
          assert i != 0;
          assert s[1..][i - 1..i - 1 + |p|] == s[i..i + |p|];
          assert OccursAt(s[1..], p, i - 1);
        }
      }
      r
  }

  /** A match found in a string survives ASCII lower-casing when the pattern is lower case. */
  lemma LowerKeepsMatch(s: string, p: string, i: int)
    requires OccursAt(s, p, i)
    requires ToLower(p) == p
    ensures Includes(ToLower(s), p)
  {
    var t := ToLower(s);
    forall k | 0 <= k < |p| ensures t[i..i + |p|][k] == p[k] {
      assert s[i..i + |p|][k] == p[k];
      assert ToLower(p)[k] == LowerChar(p[k]);
      assert LowerChar(p[k]) == p[k];
    }
    assert OccursAt(t, p, i);
  }
}
