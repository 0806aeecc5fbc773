/** The two string operations of the Python standard library the client relies
    on: `str.find` (to spot usage text in an error message) and `str(int)` (to
    write the port into the URL), each with an independent characterisation. */
module Text {
  import opened Wrappers

  /** `pat` occurs in `s` starting at index `i`. */
  predicate OccursAt(s: string, pat: string, i: int) {
    0 <= i && i + |pat| <= |s| && s[i..i + |pat|] == pat
  }

  lemma ShiftOccurrence(s: string, pat: string, j: int)
    requires |s| > 0 && 0 <= j
    ensures OccursAt(s[1..], pat, j) <==> OccursAt(s, pat, j + 1)
  {
    if j + |pat| <= |s| - 1 {
      assert s[1..][j..j + |pat|] == s[j + 1..j + 1 + |pat|];
    }
  }

  /** Python's `s.find(pat)`: the lowest index where `pat` occurs, or -1. */
  function Find(s: string, pat: string): (r: int)
    ensures -1 <= r
    ensures r >= 0 ==> OccursAt(s, pat, r) && forall j :: 0 <= j < r ==> !OccursAt(s, pat, j)
    ensures r == -1 ==> forall j :: !OccursAt(s, pat, j)
    decreases |s|
  {
    if |s| < |pat| then -1
    else if s[..|pat|] == pat then 0
    else
      var r := Find(s[1..], pat);
      assert !OccursAt(s, pat, 0);
      assert forall j | 1 <= j :: OccursAt(s, pat, j) <==> OccursAt(s[1..], pat, j - 1) by {
        forall j | 1 <= j ensures OccursAt(s, pat, j) <==> OccursAt(s[1..], pat, j - 1) {
          ShiftOccurrence(s, pat, j - 1);
        }
      }
      if r < 0 then -1 else r + 1
  }

  function DigitChar(d: nat): (c: char)
    requires d < 10
    ensures '0' <= c <= '9' && c as int - '0' as int == d
  {
    "0123456789"[d]
  }

  /** Python's `str(n)` for a non-negative integer: its decimal digits. */
  function NatToDecimal(n: nat): string
    decreases n
  {
    if n < 10 then [DigitChar(n)] else NatToDecimal(n / 10) + [DigitChar(n % 10)]
  }


  predicate IsDigits(s: string) {
    forall i | 0 <= i < |s| :: '0' <= s[i] <= '9'
  }

  /** The number a string of decimal digits denotes. */
  function DigitsValue(s: string): nat
    requires IsDigits(s)
    decreases |s|
  {
    if |s| == 0 then 0 else DigitsValue(s[..|s| - 1]) * 10 + (s[|s| - 1] as int - '0' as int)
  }

  /** Reads an optionally signed decimal numeral; `None` for anything else. */
  function ParseInt(s: string): Option<int> {
    if |s| > 0 && s[0] == '-' then
      if |s| > 1 && IsDigits(s[1..]) then Some(0 - DigitsValue(s[1..])) else None
    else if |s| > 0 && IsDigits(s) then Some(DigitsValue(s))
    else None
  }

  /** The form `str()` gives an integer: "0", or a numeral whose first digit
      (after an optional minus sign) is not 0. */
  predicate IsCanonical(s: string) {
    s == "0" || (|s| > 0 && s[0] != '0' && (s[0] == '-' ==> |s| > 1 && s[1] != '0'))
  }

  lemma {:induction false} NatToDecimalDigits(n: nat)
    ensures |NatToDecimal(n)| > 0 && IsDigits(NatToDecimal(n))
    ensures DigitsValue(NatToDecimal(n)) == n
    ensures NatToDecimal(n)[0] == '0' ==> NatToDecimal(n) == "0"
    decreases n
  {
    if n >= 10 {
      NatToDecimalDigits(n / 10);
      var s := NatToDecimal(n);
      assert s[..|s| - 1] == NatToDecimal(n / 10);
      assert s[0] == NatToDecimal(n / 10)[0];
    }
  }

  lemma ParseDigits(s: string)
    requires |s| > 0 && IsDigits(s)
    ensures ParseInt(s) == Some(DigitsValue(s))
  {
    assert '0' <= s[0] <= '9';
  }

  lemma ParseNegated(digits: string)
    requires |digits| > 0 && IsDigits(digits)
    ensures ParseInt("-" + digits) == Some(0 - DigitsValue(digits))
  {
    var s := "-" + digits;
    assert s[0] == '-' && |s| > 1 && s[1..] == digits;
  }

  /** Python's `str(n)` for any integer: a minus sign before negative numbers.
      The result is a canonical numeral that reads back as `n`. */
  function IntToDecimal(n: int): (r: string)
    ensures ParseInt(r) == Some(n)
    ensures IsCanonical(r)
  {
    if n < 0 then
      NatToDecimalDigits(-n);
      ParseNegated(NatToDecimal(-n));
      "-" + NatToDecimal(-n)
    else
      NatToDecimalDigits(n);
      ParseDigits(NatToDecimal(n));
      NatToDecimal(n)
  }

  /** A digit string that does not start with 0 denotes a positive number. */
  lemma {:induction false} LeadingDigitPositive(d: string)
    requires |d| > 0 && IsDigits(d) && d[0] != '0'
    ensures DigitsValue(d) > 0
    decreases |d|
  {
    if |d| > 1 {
      LeadingDigitPositive(d[..|d| - 1]);
    }
  }

  /** A digit string without a superfluous leading 0 is the decimal form of its value. */
  lemma {:induction false} DigitsAreDecimal(d: string)
    requires |d| > 0 && IsDigits(d) && (d[0] == '0' ==> d == "0")
    ensures d == NatToDecimal(DigitsValue(d))
    decreases |d|
  {
    var last := d[|d| - 1];
    var c := last as int - '0' as int;
    if |d| == 1 {
      assert d[..0] == [];
      assert DigitsValue(d) == c;
      assert DigitChar(c) == last;
    } else {
      var p := d[..|d| - 1];
      DigitsAreDecimal(p);
      LeadingDigitPositive(p);
      var v := DigitsValue(d);
      assert v == DigitsValue(p) * 10 + c;
      assert v / 10 == DigitsValue(p) && v % 10 == c;
      assert DigitChar(c) == last;
      assert d == p + [last];
    }
  }

  /** `str(n)` is the only canonical numeral that reads back as `n`. */
  lemma CanonicalIsIntToDecimal(s: string, n: int)
    requires IsCanonical(s) && ParseInt(s) == Some(n)
    ensures s == IntToDecimal(n)
  {
    if s[0] == '-' {
      var digits := s[1..];
      LeadingDigitPositive(digits);
      DigitsAreDecimal(digits);
      assert s == "-" + digits;
    } else {
      DigitsAreDecimal(s);
    }
  }
}
