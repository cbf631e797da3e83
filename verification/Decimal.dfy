/** Decimal rendering of ids, as used in the names the program builds (`f"..._{id}"`). */
module Decimal {

  function Digit(d: nat): char
    requires d < 10
  {
    '0' + d as char
  }

  function Render(n: nat): (s: string)
    ensures |s| >= 1
  {
    if n < 10 then [Digit(n)] else Render(n / 10) + [Digit(n % 10)]
  }

  predicate IsDigit(c: char) {
    '0' <= c <= '9'
  }

  lemma {:induction false} RenderIsDigits(n: nat)
    ensures forall c <- Render(n) :: IsDigit(c)
  {
    if n >= 10 {
      RenderIsDigits(n / 10);
    }
  }

  function ReadNumber(s: string): int {
    if s == "" then 0 else 10 * ReadNumber(s[..|s| - 1]) + (s[|s| - 1] as int - '0' as int)
  }

  // It is the number's decimal, without leading zeros.
  lemma {:induction false} RenderReadsBack(n: nat)
    ensures ReadNumber(Render(n)) == n && (n > 0 ==> Render(n)[0] != '0')
  {
    var s := Render(n);
    if n >= 10 {
      RenderReadsBack(n / 10);
      assert s[..|s| - 1] == Render(n / 10) && s[0] == Render(n / 10)[0];
    } else {
      assert s[..|s| - 1] == "" && ReadNumber("") == 0;
    }
  }

  // Different ids have different names.
  lemma {:induction false} RenderInjective(a: nat, b: nat)
    requires Render(a) == Render(b)
    ensures a == b
  {
    var s := Render(a);
    var last := s[|s| - 1];
    if a < 10 && b < 10 {
      assert Digit(a) == last == Digit(b);
    } else if a >= 10 && b >= 10 {
      assert Digit(a % 10) == last == Digit(b % 10);
      assert Render(a / 10) == s[..|s| - 1] == Render(b / 10);
      RenderInjective(a / 10, b / 10);
    } else {
      assert false;
    }
  }

  // A number followed by a non-digit can be read back from the front of a text.
  lemma {:induction false} NumberThenText(a: string, x: string, b: string, y: string)
    requires (forall c <- a :: IsDigit(c)) && (forall c <- b :: IsDigit(c))
    requires x != [] && y != [] && !IsDigit(x[0]) && !IsDigit(y[0])
    requires a + x == b + y
    ensures a == b && x == y
  {
    if |a| < |b| && a + x == b + y {
      ShorterNumberDiffers(a, x, b, y);
      assert false;
    }
    if |b| < |a| && a + x == b + y {
      ShorterNumberDiffers(b, y, a, x);
      assert false;
    }
    assert a == (a + x)[..|a|] == (b + y)[..|b|] == b;
    assert x == (a + x)[|a|..] == (b + y)[|b|..] == y;
  }

  lemma ShorterNumberDiffers(a: string, x: string, b: string, y: string)
    requires |a| < |b| && (forall c <- b :: IsDigit(c)) && x != [] && !IsDigit(x[0])
    ensures a + x != b + y
  {
    assert (a + x)[|a|] == x[0] && (b + y)[|a|] == b[|a|];
    assert b[|a|] in b;
  }
}
