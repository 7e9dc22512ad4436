/** The few pieces of Python text handling the scripts rely on: decimal
    formatting of integers (`str(n)`, `"{:02d}"`, `strftime`), `int(text)`
    and the substring test `pattern in text`. */
module Text {
  import opened Wrappers

  predicate IsDigit(c: char) { '0' <= c <= '9' }

  predicate AllDigits(s: string) { forall i :: 0 <= i < |s| ==> IsDigit(s[i]) }

  function DigitChar(d: nat): (c: char)
    requires d < 10
    ensures IsDigit(c)
  {
    ('0' as int + d) as char
  }

  function DigitValue(c: char): (d: nat)
    requires IsDigit(c)
    ensures d < 10 && DigitChar(d) == c
  {
    c as int - '0' as int
  }

  /** `str(n)` for a non-negative integer: its decimal digits, without
      leading zeros. */
  function DecimalDigits(n: nat): (s: string)
    ensures 1 <= |s| && AllDigits(s)
    ensures s[0] == '0' ==> n == 0
    decreases n
  {
    if n < 10 then [DigitChar(n)] else DecimalDigits(n / 10) + [DigitChar(n % 10)]
  }

  /** The value of a string of decimal digits (the empty string reads as 0). */
  function ParseDigits(s: string): nat
    requires AllDigits(s)
  {
    if s == [] then 0 else ParseDigits(s[..|s| - 1]) * 10 + DigitValue(s[|s| - 1])
  }

  lemma {:induction false} ParseDecimalDigits(n: nat)
    ensures ParseDigits(DecimalDigits(n)) == n
    decreases n
  {
    if n >= 10 {
      var s := DecimalDigits(n);
      assert s[..|s| - 1] == DecimalDigits(n / 10);
      ParseDecimalDigits(n / 10);
    }
  }

  /** Four decimal digits exactly for the years 1000 to 9999. */
  lemma DecimalDigitsOfYear(n: nat)
    requires 1000 <= n <= 9999
    ensures |DecimalDigits(n)| == 4
  {
    assert DecimalDigits(n / 1000) == [DigitChar(n / 1000)];
    assert |DecimalDigits(n / 100)| == 2;
    assert |DecimalDigits(n / 10)| == 3;
  }

  /** Python's `"{:02d}".format(n)` for a non-negative integer: the decimal
      digits, padded on the left with zeros to a width of at least two. */
  function Pad2(n: nat): (s: string)
    ensures 2 <= |s| && AllDigits(s)
    ensures n < 100 ==> |s| == 2
  {
    if n < 10 then ['0', DigitChar(n)]
    else
      assert n >= 100 || DecimalDigits(n / 10) == [DigitChar(n / 10)];
      DecimalDigits(n)
  }

  lemma ParsePad2(n: nat)
    ensures ParseDigits(Pad2(n)) == n
  {
    if n < 10 {
      var s := Pad2(n);
      assert s[..1] == ['0'] && s[..1][..0] == [];
      assert ParseDigits(s[..1]) == 0;
      assert DigitValue(s[1]) == n;
    } else {
      ParseDecimalDigits(n);
    }
  }

  /** `str(n)` for any integer. */
  function IntText(n: int): (s: string)
    ensures 1 <= |s|
  {
    if n < 0 then "-" + DecimalDigits(-n) else DecimalDigits(n)
  }

  /** Python's `int(text)` on a string made of an optional sign and ASCII
      digits; `None` where `int` raises `ValueError`. */
  function ParseInt(s: string): (r: Option<int>)
    ensures r.Some? ==> 1 <= |s|
  {
    if |s| >= 1 && (s[0] == '-' || s[0] == '+') then
      var rest := s[1..];
      if |rest| >= 1 && AllDigits(rest) then
        var v: int := ParseDigits(rest);
        Some(if s[0] == '-' then -v else v)
      else None
    else if |s| >= 1 && AllDigits(s) then Some(ParseDigits(s))
    else None
  }

  /** `int(str(n)) == n`. */
  lemma ParseIntText(n: int)
    ensures ParseInt(IntText(n)) == Some(n)
  {
    var s := IntText(n);
    if n < 0 {
      var digits := DecimalDigits(-n);
      assert s == "-" + digits && s[0] == '-' && s[1..] == digits;
      ParseDecimalDigits(-n);
    } else {
      var digits := DecimalDigits(n);
      assert s == digits && IsDigit(s[0]);
      ParseDecimalDigits(n);
    }
  }

  /** `pat` occurs in `text` starting at index `i`. */
  predicate OccursAt(text: string, pat: string, i: nat)
  {
    i + |pat| <= |text| && text[i..i + |pat|] == pat
  }

  /** Python's `pat in text` for strings. */
  function Contains(text: string, pat: string): bool
    decreases |text|
  {
    if |text| < |pat| then false
    else if text[..|pat|] == pat then true
    else Contains(text[1..], pat)
  }

  lemma {:induction false} ContainsIff(text: string, pat: string)
    ensures Contains(text, pat) <==> exists i: nat :: OccursAt(text, pat, i)
    decreases |text|
  {
    if |text| < |pat| {
    } else if text[..|pat|] == pat {
      assert OccursAt(text, pat, 0);
    } else {
      ContainsIff(text[1..], pat);
      if Contains(text[1..], pat) {
        var i: nat :| OccursAt(text[1..], pat, i);
        assert text[i + 1..i + 1 + |pat|] == text[1..][i..i + |pat|];
        assert OccursAt(text, pat, i + 1);
      }
      if i: nat :| OccursAt(text, pat, i) {
        assert i != 0;
        assert text[1..][i - 1..i - 1 + |pat|] == text[i..i + |pat|];
        assert OccursAt(text[1..], pat, i - 1);
      }
    }
  }

  /** Index of the first `c` in `s`, or `|s|` when there is none. */
  function IndexOf(s: string, c: char): (k: nat)
    ensures k <= |s|
    ensures k < |s| ==> s[k] == c
    ensures forall j :: 0 <= j < k ==> s[j] != c
  {
    if s == [] then 0 else if s[0] == c then 0 else 1 + IndexOf(s[1..], c)
  }
}
