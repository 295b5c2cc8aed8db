/**
 * Decimal digit strings: the reading of a string of ASCII digits as a natural
 * number (what `int(s, 10)` does for such a string) and the canonical rendering
 * of a natural number (what `str(n)` and an f-string produce).
 */
module Decimal {
  import opened Wrappers

  predicate IsDigit(c: char) { '0' <= c <= '9' }

  function DigitValue(c: char): (d: nat)
    requires IsDigit(c)
    ensures d < 10
  {
    (c as int) - ('0' as int)
  }

  function DigitChar(d: nat): (c: char)
    requires d < 10
    ensures IsDigit(c) && DigitValue(c) == d
  {
    ('0' as int + d) as char
  }

  predicate AllDigits(s: string) { forall i :: 0 <= i < |s| ==> IsDigit(s[i]) }

  /** The number a string of digits denotes, most significant digit first. */
  function Value(s: string): nat
    requires AllDigits(s)
  {
    if s == [] then 0 else Value(s[..|s| - 1]) * 10 + DigitValue(s[|s| - 1])
  }

  /** `str(n)`: no leading zero, except for "0" itself. */
  function Render(n: nat): (s: string)
    ensures |s| > 0 && AllDigits(s)
  {
    if n < 10 then [DigitChar(n)] else Render(n / 10) + [DigitChar(n % 10)]
  }

  /** The strings `Render` can produce. */
  predicate Canonical(s: string)
  {
    |s| > 0 && AllDigits(s) && (s[0] == '0' ==> |s| == 1)
  }

  /**
   * `int(s)` restricted to strings that pass `s.isascii() and s.isdigit()`;
   * anything else (the empty string included) is rejected.
   */
  function Parse(s: string): (r: Option<nat>)
    ensures r.Some? <==> |s| > 0 && AllDigits(s)
  {
    if |s| > 0 && AllDigits(s) then Some(Value(s)) else None
  }

  lemma {:induction false} ValueOfRender(n: nat)
    ensures Value(Render(n)) == n
  {
    if n >= 10 {
      var s := Render(n);
      assert s[..|s| - 1] == Render(n / 10);
      ValueOfRender(n / 10);
    }
  }

  /** Rendering then parsing gives the number back. */
  lemma ParseRender(n: nat)
    ensures Parse(Render(n)) == Some(n)
  {
    ValueOfRender(n);
  }

  lemma {:induction false} RenderIsCanonical(n: nat)
    ensures Canonical(Render(n))
  {
    if n >= 10 {
      RenderIsCanonical(n / 10);
      assert Render(n)[0] == Render(n / 10)[0];
    }
  }

  lemma {:induction false} RenderLength(n: nat)
    ensures n < 10 ==> |Render(n)| == 1
    ensures 10 <= n < 100 ==> |Render(n)| == 2
    ensures 100 <= n < 1000 ==> |Render(n)| == 3
  {
    if n >= 10 {
      RenderLength(n / 10);
    }
  }

  lemma {:induction false} LeadingNonZero(s: string)
    requires |s| > 0 && AllDigits(s) && s[0] != '0'
    ensures Value(s) >= 1
  {
    if |s| > 1 {
      var p := s[..|s| - 1];
      assert p[0] == s[0];
      LeadingNonZero(p);
    }
  }

  /** A canonical digit string is the rendering of the number it denotes. */
  lemma {:induction false} RenderOfValue(s: string)
    requires Canonical(s)
    ensures Render(Value(s)) == s
  {
    if |s| > 1 {
      var p := s[..|s| - 1];
      assert p[0] == s[0];
      LeadingNonZero(p);
      RenderOfValue(p);
      var v := Value(s);
      assert v / 10 == Value(p) && v % 10 == DigitValue(s[|s| - 1]);
      assert s == p + [s[|s| - 1]];
    }
  }
}
