/**
 * Text helpers the Python runtime supplies implicitly: `str(n)` of an
 * integer, the reading of digit strings as numbers (what a JSON reader does
 * to numeric-looking text), `int(s)`, and the code-point order that
 * `list.sort()` uses on strings.
 */
module Strings {

  import opened Base

  predicate IsDigit(c: char)
  {
    '0' <= c <= '9'
  }

  /** A non-empty string of ASCII digits. */
  predicate IsDigits(s: string)
  {
    |s| > 0 && forall k :: 0 <= k < |s| ==> IsDigit(s[k])
  }

  /** A digit string as `str` prints a natural number: no leading zero. */
  predicate Canonical(s: string)
  {
    IsDigits(s) && (s[0] != '0' || |s| == 1)
  }

  function DigitChar(d: nat): (c: char)
    requires d < 10
    ensures IsDigit(c) && DigitValue(c) == d
  {
    (d + '0' as int) as char
  }

  /** Python's `str(n)` for n >= 0. */
  function Natural(n: nat): (s: string)
    ensures Canonical(s)
    ensures |s| > 0 && s[|s| - 1] == DigitChar(n % 10)
  {
    if n < 10 then [DigitChar(n)] else Natural(n / 10) + [DigitChar(n % 10)]
  }

  /** Python's `str(n)` for any integer. */
  function Decimal(n: int): (s: string)
    ensures n >= 0 ==> Canonical(s)
    ensures n < 0 ==> |s| > 1 && s[0] == '-' && Canonical(s[1..])
  {
    if n < 0 then "-" + Natural(-n) else Natural(n)
  }

  function DigitValue(c: char): nat
    requires IsDigit(c)
  {
    c as int - '0' as int
  }

  /** The number written by a string of digits (0 for the empty string). */
  function DigitsValue(s: string): nat
    requires forall k :: 0 <= k < |s| ==> IsDigit(s[k])
  {
    if s == [] then 0
    else DigitsValue(s[..|s| - 1]) * 10 + DigitValue(s[|s| - 1])
  }

  /** Reading back what `str` printed gives the number again. */
  lemma {:induction false} ValueOfNatural(n: nat)
    ensures DigitsValue(Natural(n)) == n
  {
    var s := Natural(n);
    if n >= 10 {
      ValueOfNatural(n / 10);
      assert s[..|s| - 1] == Natural(n / 10);
    }
  }

  lemma {:induction false} LeadingDigitPositive(s: string)
    requires IsDigits(s) && s[0] != '0'
    ensures DigitsValue(s) >= 1
  {
    if |s| > 1 {
      LeadingDigitPositive(s[..|s| - 1]);
    }
  }

  /** Printing the number a canonical digit string denotes gives the string back. */
  lemma {:induction false} NaturalOfValue(s: string)
    requires Canonical(s)
    ensures Natural(DigitsValue(s)) == s
  {
    var n := |s|;
    var d := DigitValue(s[n - 1]);
    if n > 1 {
      var init := s[..n - 1];
      assert Canonical(init);
      LeadingDigitPositive(init);
      NaturalOfValue(init);
      var v := DigitsValue(s);
      assert v == DigitsValue(init) * 10 + d;
      assert v / 10 == DigitsValue(init) && v % 10 == d;
      assert [DigitChar(d)] == [s[n - 1]];
      assert s == init + [s[n - 1]];
    } else {
      assert s == [DigitChar(d)];
    }
  }

  /**
   * Python's `int(s)`, restricted to strings of ASCII digits; every other
   * string raises ValueError here.
   */
  function ParseInt(s: string): (r: Option<nat>)
    ensures r.Some? <==> IsDigits(s)
    ensures Canonical(s) ==> r == Some(DigitsValue(s)) && Natural(r.value) == s
  {
    if IsDigits(s) then
      (if Canonical(s) then NaturalOfValue(s); Some(DigitsValue(s)) else Some(DigitsValue(s)))
    else None
  }

  /** Code-point order on strings, as Python compares `str` values. */
  predicate Less(a: string, b: string)
  {
    if |a| == 0 then |b| > 0
    else if |b| == 0 then false
    else if a[0] != b[0] then a[0] < b[0]
    else Less(a[1..], b[1..])
  }

  lemma {:induction false} LessIrreflexive(a: string)
    ensures !Less(a, a)
  {
    if |a| > 0 {
      LessIrreflexive(a[1..]);
    }
  }

  lemma {:induction false} LessTransitive(a: string, b: string, c: string)
    requires Less(a, b) && Less(b, c)
    ensures Less(a, c)
  {
    if |a| > 0 && |b| > 0 && |c| > 0 && a[0] == b[0] == c[0] {
      LessTransitive(a[1..], b[1..], c[1..]);
    }
  }

  lemma {:induction false} LessTotal(a: string, b: string)
    requires a != b
    ensures Less(a, b) || Less(b, a)
  {
    if |a| > 0 && |b| > 0 && a[0] == b[0] {
      assert a == [a[0]] + a[1..] && b == [b[0]] + b[1..];
      LessTotal(a[1..], b[1..]);
    }
  }

  /** Strictly increasing in code-point order: sorted and free of duplicates. */
  predicate StrictlySorted(s: seq<string>)
  {
    forall i, j :: 0 <= i < j < |s| ==> Less(s[i], s[j])
  }

  /** Adds `x` to a strictly sorted list unless it is already there. */
  function Insert(x: string, s: seq<string>): (r: seq<string>)
    requires StrictlySorted(s)
    ensures StrictlySorted(r)
    ensures forall y :: y in r <==> y == x || y in s
  {
    if s == [] then [x]
    else if x == s[0] then s
    else if Less(x, s[0]) then
      assert forall j :: 0 <= j < |s| ==> Less(x, s[j]) by {
        forall j | 0 <= j < |s| ensures Less(x, s[j]) {
          if j > 0 { LessTransitive(x, s[0], s[j]); }
        }
      }
      [x] + s
    else
      var rest := Insert(x, s[1..]);
      LessTotal(x, s[0]);
      assert forall y :: y in rest ==> Less(s[0], y);
      [s[0]] + rest
  }
}
