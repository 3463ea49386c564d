/** Decimal integer literals as the codemod reads and writes them: Python's
    `int(value)` on the text of an integer token, and `str(n)` back. */
module Literals {

  datatype Option<+T> = None | Some(value: T)

  predicate IsDigit(c: char) {
    '0' <= c <= '9'
  }

  function DigitValue(c: char): (d: nat)
    requires IsDigit(c)
    ensures d < 10
  {
    c as int - '0' as int
  }

  function DigitChar(d: nat): (c: char)
    requires d < 10
    ensures IsDigit(c) && DigitValue(c) == d
  {
    ('0' as int + d) as char
  }

  predicate AllDigits(s: string) {
    forall i :: 0 <= i < |s| ==> IsDigit(s[i])
  }

  /** The value of a string of digits, most significant digit first. */
  function DigitsValue(s: string): nat
    requires AllDigits(s)
  {
    if s == [] then 0 else DigitsValue(s[..|s| - 1]) * 10 + DigitValue(s[|s| - 1])
  }

  /** The text `int()` accepts in base 10 from an integer token: ASCII digits,
      starting and ending with a digit, with underscores allowed only one at a
      time. Leading zeros are accepted, as `int("007")` is 7. */
  predicate IsDecimal(s: string) {
    |s| > 0 && IsDigit(s[0]) && IsDigit(s[|s| - 1]) &&
    (forall i :: 0 <= i < |s| ==> IsDigit(s[i]) || s[i] == '_') &&
    forall i :: 0 <= i < |s| - 1 ==> !UnderscorePairAt(s, i)
  }

  predicate UnderscorePairAt(s: string, i: nat)
    requires i + 1 < |s|
  {
    s[i] == '_' && s[i + 1] == '_'
  }

  function StripUnderscores(s: string): (r: string)
    ensures forall c :: c in r ==> c in s && c != '_'
    ensures (forall c :: c in s ==> c != '_') ==> r == s
  {
    if s == [] then []
    else
      assert s == [s[0]] + s[1..];
      assert s[0] in s && forall c :: c in s[1..] ==> c in s;
      (if s[0] == '_' then [] else [s[0]]) + StripUnderscores(s[1..])
  }

  /** `int(s)`: the value of a decimal literal, or None where Python raises
      ValueError (hexadecimal, octal and binary forms, stray underscores). */
  function Parse(s: string): (r: Option<nat>)
    ensures r.Some? <==> IsDecimal(s)
  {
    if IsDecimal(s) then
      var digits := StripUnderscores(s);
      assert AllDigits(digits) by {
        forall i | 0 <= i < |digits| ensures IsDigit(digits[i]) {
          assert digits[i] in digits;
          var j :| 0 <= j < |s| && s[j] == digits[i];
        }
      }
      Some(DigitsValue(digits))
    else None
  }

  /** `str(n)` for a non-negative integer: its shortest decimal rendering. */
  function Show(n: nat): (s: string)
    ensures |s| > 0 && AllDigits(s)
    ensures s[0] == '0' ==> s == "0"
  {
    if n < 10 then [DigitChar(n)] else Show(n / 10) + [DigitChar(n % 10)]
  }

  lemma {:induction false} ShowValue(n: nat)
    ensures DigitsValue(Show(n)) == n
  {
    var s := Show(n);
    if n >= 10 {
      assert s[..|s| - 1] == Show(n / 10);
      ShowValue(n / 10);
    } else {
      assert s[..|s| - 1] == [];
    }
  }

  /** Reading back what `str` wrote gives the same number. */
  lemma ParseShow(n: nat)
    ensures Parse(Show(n)) == Some(n)
  {
    var s := Show(n);
    assert forall c :: c in s ==> c != '_' by {
      forall c | c in s ensures c != '_' {
        var i :| 0 <= i < |s| && s[i] == c;
      }
    }
    ShowValue(n);
  }
}
