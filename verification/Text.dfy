/** Strings as the sources treat them: ordered sets of strings, blank text, and numerals. */
module Text {

  // ---------------------------------------------------------------------------------------------
  // The order of strings, and the order in which an ordered set is walked through
  // ---------------------------------------------------------------------------------------------

  predicate AtMost(a: string, b: string) {
    a == [] || (b != [] && (a[0] < b[0] || (a[0] == b[0] && AtMost(a[1..], b[1..]))))
  }

  lemma {:induction false} AtMostTotal(a: string, b: string)
    ensures AtMost(a, b) || AtMost(b, a)
    ensures AtMost(a, b) && AtMost(b, a) ==> a == b
  {
    if a != [] && b != [] {
      AtMostTotal(a[1..], b[1..]);
      assert a == [a[0]] + a[1..] && b == [b[0]] + b[1..];
    }
  }

  lemma {:induction false} AtMostTransitive(a: string, b: string, c: string)
    requires AtMost(a, b) && AtMost(b, c)
    ensures AtMost(a, c)
  {
    if a != [] && a[0] == b[0] && b[0] == c[0] {
      AtMostTransitive(a[1..], b[1..], c[1..]);
    }
  }

  /** The texts differ first at position `i`, and there `a` has the lower character. */
  predicate IsLowerAt(a: string, b: string, i: nat) {
    i < |a| && i < |b| && a[..i] == b[..i] && a[i] < b[i]
  }

  lemma LowerInRest(a: string, b: string, i: nat)
    requires a != [] && b != [] && a[0] == b[0]
    ensures !IsLowerAt(a, b, 0)
    ensures IsLowerAt(a[1..], b[1..], i) <==> IsLowerAt(a, b, i + 1)
  {
    if i < |a| - 1 && i < |b| - 1 {
      assert a[..i + 1] == [a[0]] + a[1..][..i] && b[..i + 1] == [b[0]] + b[1..][..i];
      assert a[1..][..i] == a[..i + 1][1..] && b[1..][..i] == b[..i + 1][1..];
    }
  }

  /** The order of texts: the shorter one first, if it begins the other, or else the first character that differs decides. */
  lemma {:induction false} AtMostIff(a: string, b: string)
    ensures AtMost(a, b) <==> a <= b || exists i: nat :: IsLowerAt(a, b, i)
  {
    if a != [] && b != [] {
      if a[0] == b[0] {
        AtMostIff(a[1..], b[1..]);
        assert a == [a[0]] + a[1..] && b == [b[0]] + b[1..];
        hide IsLowerAt;
        LowerInRest(a, b, 0);
        if i: nat :| IsLowerAt(a[1..], b[1..], i) {
          LowerInRest(a, b, i);
        }
        if i: nat :| IsLowerAt(a, b, i) {
          LowerInRest(a, b, i - 1);
        }
      } else {
        assert a[..0] == b[..0];
        assert a[0] < b[0] ==> IsLowerAt(a, b, 0);
        assert forall i: nat | IsLowerAt(a, b, i) :: i == 0;
      }
    }
  }

  predicate IsLeast(least: string, s: set<string>) {
    least in s && forall x :: x in s ==> AtMost(least, x)
  }

  lemma {:induction false} LeastExists(s: set<string>)
    requires s != {}
    ensures exists least :: IsLeast(least, s)
    decreases |s|
  {
    var x :| x in s;
    var rest := s - {x};
    AtMostTotal(x, x);
    if rest == {} {
      assert s == {x} && IsLeast(x, s);
    } else {
      LeastExists(rest);
      var y :| IsLeast(y, rest);
      AtMostTotal(x, y);
      if AtMost(x, y) {
        forall z | z in s
          ensures AtMost(x, z)
        {
          if z != x {
            AtMostTransitive(x, y, z);
          }
        }
        assert IsLeast(x, s);
      } else {
        assert IsLeast(y, s);
      }
    }
  }

  lemma LeastIsUnique(s: set<string>)
    ensures forall x, y :: IsLeast(x, s) && IsLeast(y, s) ==> x == y
  {
    forall x, y | IsLeast(x, s) && IsLeast(y, s)
      ensures x == y
    {
      AtMostTotal(x, y);
    }
  }

  /** The least element: the one an ordered set yields first. */
  function Least(s: set<string>): (least: string)
    requires s != {}
    ensures least in s && IsLeast(least, s)
  {
    LeastExists(s);
    LeastIsUnique(s);
    var least :| least in s && IsLeast(least, s);
    least
  }

  // ---------------------------------------------------------------------------------------------
  // Blank text
  // ---------------------------------------------------------------------------------------------

  /** Unicode white space, as trimming removes it. */
  predicate IsWhitespace(c: char) {
    var n := c as int;
    9 <= n <= 13 || n == 0x20 || n == 0x85 || n == 0xA0 || n == 0x1680 || 0x2000 <= n <= 0x200A
    || n == 0x2028 || n == 0x2029 || n == 0x202F || n == 0x205F || n == 0x3000
  }

  predicate IsBlank(s: string) {
    forall i :: 0 <= i < |s| ==> IsWhitespace(s[i])
  }

  /** The code points with the property White_Space. */
  lemma WhitespaceCodes(c: char)
    ensures IsWhitespace(c) <==> c as int in {
              9, 10, 11, 12, 13, 32, 133, 160, 5760, 8192, 8193, 8194, 8195, 8196, 8197, 8198, 8199, 8200, 8201, 8202,
              8232, 8233, 8239, 8287, 12288}
  {
  }

  /** A text is blank exactly when every character in it is white space. */
  lemma BlankIff(s: string)
    ensures IsBlank(s) <==> forall c :: c in s ==> IsWhitespace(c)
  {
    assert forall i :: 0 <= i < |s| ==> s[i] in s;
  }

  // ---------------------------------------------------------------------------------------------
  // Numerals
  // ---------------------------------------------------------------------------------------------

  function DigitChar(digit: nat): (c: char)
    requires digit < 36
    ensures c != '_' && (c <= '9' <==> digit < 10)
    ensures '0' <= c <= '9' || 'a' <= c <= 'z'
  {
    if digit < 10 then ('0' as int + digit) as char else ('a' as int + digit - 10) as char
  }

  lemma DigitCharInjective(x: nat, y: nat)
    requires x < 36 && y < 36 && DigitChar(x) == DigitChar(y)
    ensures x == y
  {
  }

  function Quotient(n: nat, d: nat): (q: nat)
    requires d >= 2
    ensures n > 0 ==> q < n
  {
    QuotientSmaller(n, d);
    n / d
  }

  lemma QuotientSmaller(n: nat, d: nat)
    requires d >= 2
    ensures n > 0 ==> n / d < n
  {
    assert n == d * (n / d) + n % d;
    ProductGrows(n / d, 2, d);
  }

  function Remainder(n: nat, d: nat): (r: nat)
    requires d >= 2
    ensures r < d
  {
    n % d
  }

  lemma QuotientAndRemainder(n: nat, d: nat)
    requires d >= 2
    ensures n == d * Quotient(n, d) + Remainder(n, d)
    ensures n < d <==> Quotient(n, d) == 0
  {
  }

  /** The numeral of a number, most significant digit first. */
  function Numeral(n: nat, radix: nat): (s: string)
    requires 2 <= radix <= 36
    ensures |s| > 0
    ensures '_' !in s
  {
    var last := [DigitChar(Remainder(n, radix))];
    if n < radix then last else Numeral(Quotient(n, radix), radix) + last
  }

  lemma {:induction false} NumeralInjective(m: nat, n: nat, radix: nat)
    requires 2 <= radix <= 36 && Numeral(m, radix) == Numeral(n, radix)
    ensures m == n
    decreases m
  {
    QuotientAndRemainder(m, radix);
    QuotientAndRemainder(n, radix);
    hide Quotient, Remainder;
    var s, t := Numeral(m, radix), Numeral(n, radix);
    assert s[|s| - 1] == t[|t| - 1];
    DigitCharInjective(Remainder(m, radix), Remainder(n, radix));
    if m >= radix && n >= radix {
      assert s[..|s| - 1] == Numeral(Quotient(m, radix), radix);
      assert t[..|t| - 1] == Numeral(Quotient(n, radix), radix);
      NumeralInjective(Quotient(m, radix), Quotient(n, radix), radix);
    }
  }

  /** What a digit stands for; 36 for any other character. */
  function DigitValue(c: char): nat {
    if '0' <= c <= '9' then c as int - '0' as int
    else if 'a' <= c <= 'z' then c as int - 'a' as int + 10
    else 36
  }

  /** The number that a numeral stands for. */
  function ValueOf(s: string, radix: nat): nat {
    if s == [] then 0 else ValueOf(s[..|s| - 1], radix) * radix + DigitValue(s[|s| - 1])
  }

  lemma ValueOneMore(s: string, digit: nat, radix: nat)
    requires digit < 36
    ensures ValueOf(s + [DigitChar(digit)], radix) == ValueOf(s, radix) * radix + digit
  {
    assert (s + [DigitChar(digit)])[..|s|] == s;
  }

  lemma NumeralSplits(n: nat, radix: nat)
    requires 2 <= radix <= 36
    ensures var last := [DigitChar(Remainder(n, radix))];
            Numeral(n, radix) == if n < radix then last else Numeral(Quotient(n, radix), radix) + last
    ensures n < radix ==> Remainder(n, radix) == n
    ensures n >= radix ==> 0 < Quotient(n, radix) < n && Quotient(n, radix) * radix + Remainder(n, radix) == n
  {
    QuotientAndRemainder(n, radix);
    Commutes(radix, Quotient(n, radix));
    hide Quotient, Remainder, DigitChar;
  }

  lemma Commutes(a: nat, b: nat)
    ensures a * b == b * a
  {
  }

  /** A numeral stands for its number, and no numeral but that of zero begins with a zero. */
  lemma {:induction false} NumeralReadsBack(n: nat, radix: nat)
    requires 2 <= radix <= 36
    ensures ValueOf(Numeral(n, radix), radix) == n
    ensures Numeral(n, radix)[0] == '0' <==> n == 0
    decreases n
  {
    NumeralSplits(n, radix);
    var digit := Remainder(n, radix);
    hide Quotient, Remainder, Numeral;
    if n < radix {
      var last := [DigitChar(digit)];
      ValueOneMore([], digit, radix);
      assert [] + last == last && ValueOf([], radix) == 0;
    } else {
      NumeralReadsBack(Quotient(n, radix), radix);
      ValueOneMore(Numeral(Quotient(n, radix), radix), digit, radix);
    }
  }

  function Reverse(s: string): (r: string)
    ensures |r| == |s|
  {
    if s == [] then [] else [s[|s| - 1]] + Reverse(s[..|s| - 1])
  }

  function Power(base: nat, exponent: nat): nat {
    if exponent == 0 then 1 else base * Power(base, exponent - 1)
  }

  lemma {:induction false} NumeralLength(n: nat, radix: nat, digits: nat)
    requires 2 <= radix <= 36 && digits > 0 && n < Power(radix, digits)
    ensures |Numeral(n, radix)| <= digits
    decreases digits
  {
    assert Power(radix, 1) == radix * Power(radix, 0);
    if n >= radix {
      QuotientBelow(n, radix, Power(radix, digits - 1));
      NumeralLength(Quotient(n, radix), radix, digits - 1);
    }
  }

  lemma QuotientBelow(n: nat, d: nat, q: nat)
    requires d >= 2 && n < d * q
    ensures Quotient(n, d) < q
  {
    if q <= n / d {
      ProductGrows(d, q, n / d);
    }
  }

  lemma ProductGrows(a: nat, x: nat, y: nat)
    requires x <= y
    ensures a * x <= a * y
  {
  }
}
