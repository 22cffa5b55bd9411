/** Strings as the TypeScript sources use them: white space and trim, decimal numerals. */
module Text {

  // ---- White space -----------------------------------------------------------------

  /** The characters that trim() removes and that \s matches. */
  predicate IsSpace(c: char) {
    || c == ' ' || '\t' <= c <= '\r'
    || c == '\U{A0}' || c == '\U{1680}' || '\U{2000}' <= c <= '\U{200A}'
    || c == '\U{2028}' || c == '\U{2029}' || c == '\U{202F}' || c == '\U{205F}' || c == '\U{3000}'
    || c == '\U{FEFF}'
  }

  predicate Blank(s: string) { forall c :: c in s ==> IsSpace(c) }

  function TrimStart(s: string): (r: string)
    ensures |r| <= |s|
  {
    if s != "" && IsSpace(s[0]) then TrimStart(s[1..]) else s
  }

  function TrimEnd(s: string): (r: string)
    ensures |r| <= |s|
  {
    if s != "" && IsSpace(s[|s| - 1]) then TrimEnd(s[..|s| - 1]) else s
  }

  function Trim(s: string): (r: string)
    ensures |r| <= |s|
  {
    TrimEnd(TrimStart(s))
  }

  /** The text without its white space. */
  function Solid(s: string): string {
    if s == "" then "" else (if IsSpace(s[0]) then "" else [s[0]]) + Solid(s[1..])
  }

  lemma {:induction false} SolidConcat(a: string, b: string)
    ensures Solid(a + b) == Solid(a) + Solid(b)
  {
    if a == "" {
      assert a + b == b;
    } else {
      assert (a + b)[1..] == a[1..] + b;
      SolidConcat(a[1..], b);
    }
  }

  lemma {:induction false} TrimEndKeepsSolid(s: string)
    ensures Solid(TrimEnd(s)) == Solid(s)
  {
    if s != "" && IsSpace(s[|s| - 1]) {
      var front, last := s[..|s| - 1], s[|s| - 1..];
      assert s == front + last;
      SolidConcat(front, last);
      assert Solid(last) == "" by { assert last[1..] == ""; }
      TrimEndKeepsSolid(front);
    }
  }

  lemma {:induction false} TrimStartKeepsSolid(s: string)
    ensures Solid(TrimStart(s)) == Solid(s)
  {
    if s != "" && IsSpace(s[0]) {
      TrimStartKeepsSolid(s[1..]);
    }
  }

  /** Trimming removes white space and nothing else. */
  lemma TrimKeepsSolid(s: string)
    ensures Solid(Trim(s)) == Solid(s)
  {
    TrimStartKeepsSolid(s);
    TrimEndKeepsSolid(TrimStart(s));
  }

  lemma {:induction false} BlankIffNothingSolid(s: string)
    ensures Blank(s) <==> Solid(s) == ""
  {
    if s != "" {
      assert s == [s[0]] + s[1..];
      BlankIffNothingSolid(s[1..]);
    }
  }

  lemma {:induction false} TrimStartBlank(s: string)
    ensures Blank(s) <==> TrimStart(s) == ""
  {
    if s != "" {
      assert s == [s[0]] + s[1..];
      TrimStartBlank(s[1..]);
    }
  }

  lemma {:induction false} TrimEndBlank(s: string)
    ensures Blank(s) <==> TrimEnd(s) == ""
  {
    if s != "" {
      assert s == s[..|s| - 1] + [s[|s| - 1]];
      TrimEndBlank(s[..|s| - 1]);
    }
  }

  lemma BlankIffTrimsAway(s: string)
    ensures Blank(s) <==> Trim(s) == ""
  {
    TrimStartBlank(s);
    TrimEndBlank(TrimStart(s));
    BlankIffNothingSolid(s);
    BlankIffNothingSolid(TrimStart(s));
    TrimStartKeepsSolid(s);
  }

  // ---- Numerals --------------------------------------------------------------------

  function Digit(d: nat): char
    requires d < 10
  {
    '0' + d as char
  }

  predicate IsDigit(c: char) { '0' <= c <= '9' }

  /** The decimal numeral of n, as a template literal prints it. */
  function Decimal(n: nat): (r: string)
    ensures r != "" && forall c :: c in r ==> IsDigit(c)
  {
    if n < 10 then [Digit(n)] else Decimal(n / 10) + [Digit(n % 10)]
  }

  function Value(s: string): int {
    if s == "" then 0 else 10 * Value(s[..|s| - 1]) + (s[|s| - 1] as int - '0' as int)
  }

  lemma {:induction false} ValueOfDecimal(n: nat)
    ensures Value(Decimal(n)) == n
  {
    var s := Decimal(n);
    if n < 10 {
      assert s[..|s| - 1] == "";
    } else {
      ValueOfDecimal(n / 10);
      assert s[..|s| - 1] == Decimal(n / 10);
    }
  }

  lemma DecimalInjective(m: nat, n: nat)
    requires Decimal(m) == Decimal(n)
    ensures m == n
  {
    ValueOfDecimal(m);
    ValueOfDecimal(n);
  }

  /** The numeral of an integer, with a sign when it is negative. */
  function Numeral(z: int): (r: string)
    ensures r != "" && forall c :: c in r ==> IsDigit(c) || c == '-'
  {
    if z < 0 then "-" + Decimal(-z) else Decimal(z)
  }

  lemma NumeralSign(z: int)
    ensures z < 0 <==> Numeral(z)[0] == '-'
  {
    if z >= 0 {
      assert Decimal(z)[0] in Decimal(z);
    }
  }

  lemma NumeralInjective(y: int, z: int)
    requires Numeral(y) == Numeral(z)
    ensures y == z
  {
    NumeralSign(y);
    NumeralSign(z);
    if y < 0 {
      assert Numeral(y)[1..] == Decimal(-y) && Numeral(z)[1..] == Decimal(-z);
      DecimalInjective(-y, -z);
    } else {
      DecimalInjective(y, z);
    }
  }

  // ---- Splitting at a separator ----------------------------------------------------

  /** Position of the first separator, or the length. */
  function FirstIndex(s: string, sep: char): (k: nat)
    ensures k <= |s|
  {
    if s == "" || s[0] == sep then 0 else 1 + FirstIndex(s[1..], sep)
  }

  /** Position just after the last separator, or 0. */
  function AfterLast(s: string, sep: char): (k: nat)
    ensures k <= |s|
  {
    if s == "" || s[|s| - 1] == sep then |s| else AfterLast(s[..|s| - 1], sep)
  }

  lemma {:induction false} FirstIndexAfter(x: string, sep: char, rest: string)
    requires sep !in x
    requires rest == "" || rest[0] == sep
    ensures FirstIndex(x + rest, sep) == |x|
  {
    if x == "" {
      assert x + rest == rest;
    } else {
      assert x[0] in x;
      assert (x + rest)[1..] == x[1..] + rest;
      FirstIndexAfter(x[1..], sep, rest);
    }
  }

  lemma {:induction false} AfterLastBefore(head: string, sep: char, x: string)
    requires sep !in x
    requires head != "" && head[|head| - 1] == sep
    ensures AfterLast(head + x, sep) == |head|
  {
    if x == "" {
      assert head + x == head;
    } else {
      assert x[|x| - 1] in x;
      assert (head + x)[..|head + x| - 1] == head + x[..|x| - 1];
      AfterLastBefore(head, sep, x[..|x| - 1]);
    }
  }

  /** Texts with separator-free first parts agree part by part. */
  lemma FirstPartUnique(x: string, a: string, y: string, b: string, sep: char)
    requires x + a == y + b
    requires sep !in x && sep !in y
    requires a == "" || a[0] == sep
    requires b == "" || b[0] == sep
    ensures x == y && a == b
  {
    FirstIndexAfter(x, sep, a);
    FirstIndexAfter(y, sep, b);
    assert x == (x + a)[..|x|] && y == (y + b)[..|y|];
    assert a == (x + a)[|x|..] && b == (y + b)[|y|..];
  }

  /** Texts with separator-free last parts agree part by part. */
  lemma LastPartUnique(a: string, x: string, b: string, y: string, sep: char)
    requires a + x == b + y
    requires sep !in x && sep !in y
    requires a != "" && a[|a| - 1] == sep
    requires b != "" && b[|b| - 1] == sep
    ensures a == b && x == y
  {
    AfterLastBefore(a, sep, x);
    AfterLastBefore(b, sep, y);
    assert a == (a + x)[..|a|] && b == (b + y)[..|b|];
    assert x == (a + x)[|a|..] && y == (b + y)[|b|..];
  }
}
