/** Decimal digit strings: the `\d` class of JavaScript regular expressions,
    the value a digit string denotes, and the rendering of a non-negative
    integer that a template string `${n}` produces. */
module Decimal {

  /** `\d`: an ASCII decimal digit (JavaScript's `\d` is ASCII only). */
  predicate IsDigit(c: char) {
    '0' <= c <= '9'
  }

  predicate AllDigits(s: string) {
    forall i :: 0 <= i < |s| ==> IsDigit(s[i])
  }

  function DigitValue(c: char): (d: nat)
    requires IsDigit(c)
    ensures d < 10
  {
    c as int - '0' as int
  }

  function DigitChar(d: nat): (c: char)
    requires d < 10
    ensures IsDigit(c) && DigitValue(c) == d
  {
    ('0' as int + d) as char
  }

  /** The number a digit string denotes, most significant digit first;
      leading zeros are allowed and add nothing. */
  function Value(s: string): nat
    requires AllDigits(s)
    decreases |s|
  {
    if s == [] then 0 else 10 * Value(s[..|s| - 1]) + DigitValue(s[|s| - 1])
  }

  /** The decimal text of `n`: never empty, digits only, and without a
      leading zero except for "0" itself. */
  function Render(n: nat): (r: string)
    ensures r != [] && AllDigits(r)
    ensures r == "0" <==> n == 0
    ensures r[0] == '0' ==> r == "0"
  {
    if n < 10 then [DigitChar(n)] else Render(n / 10) + [DigitChar(n % 10)]
  }

  lemma ValueSnoc(s: string, c: char)
    requires AllDigits(s) && IsDigit(c)
    ensures AllDigits(s + [c])
    ensures Value(s + [c]) == 10 * Value(s) + DigitValue(c)
  {
    assert (s + [c])[..|s|] == s;
  }

  /** Reading back a rendered number gives the number. */
  lemma {:induction false} ValueOfRender(n: nat)
    ensures Value(Render(n)) == n
  {
    if n < 10 {
      assert Render(n)[..0] == [];
    } else {
      ValueOfRender(n / 10);
      ValueSnoc(Render(n / 10), DigitChar(n % 10));
    }
  }

  /** Distinct numbers render to distinct texts. */
  lemma RenderInjective(m: nat, n: nat)
    requires Render(m) == Render(n)
    ensures m == n
  {
    ValueOfRender(m);
    ValueOfRender(n);
  }

  /** The value of a three-digit string, place by place. */
  lemma ValueOfThree(g: string)
    requires |g| == 3 && AllDigits(g)
    ensures Value(g) == 100 * DigitValue(g[0]) + 10 * DigitValue(g[1]) + DigitValue(g[2])
  {
    assert g[..2][..1] == g[..1];
    assert g[..2][1] == g[1];
    assert g[..1][..0] == [];
    assert Value(g[..1]) == DigitValue(g[0]);
    assert Value(g[..2]) == 10 * DigitValue(g[0]) + DigitValue(g[1]);
  }

  /** The value of a two-digit string, place by place. */
  lemma ValueOfTwo(g: string)
    requires |g| == 2 && AllDigits(g)
    ensures Value(g) == 10 * DigitValue(g[0]) + DigitValue(g[1])
  {
    assert g[..1][..0] == [];
    assert Value(g[..1]) == DigitValue(g[0]);
  }

  /** The length of the run of digits a string starts with. */
  function LeadingDigits(s: string): (n: nat)
    ensures n <= |s|
  {
    if s != [] && IsDigit(s[0]) then 1 + LeadingDigits(s[1..]) else 0
  }

  /** A digit string followed by text that starts with a non-digit is read
      back as exactly that many leading digits. */
  lemma {:induction false} LeadingDigitsOf(d: string, rest: string)
    requires AllDigits(d)
    requires rest != [] && !IsDigit(rest[0])
    ensures LeadingDigits(d + rest) == |d|
  {
    if d == [] {
      assert d + rest == rest;
    } else {
      assert (d + rest)[1..] == d[1..] + rest;
      LeadingDigitsOf(d[1..], rest);
    }
  }
}
