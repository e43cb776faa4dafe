/** Finite numbers as `JSON.stringify` prints them. A number other than zero is identified
    with its shortest decimal, 0.d1...dk times ten to the power n; how that is written is
    Number::toString (section 6.1.6.1.20 of ECMA-262). */
module NumberText {
  import opened Collections
  import opened CodeUnits

  const PLUS: Unit := 43
  const MINUS: Unit := 45
  const DOT: Unit := 46
  const ZERO: Unit := 48
  const EXPONENT: Unit := 101

  /** The digits of a number, the last one not zero. */
  type Significand = s: nat | s % 10 != 0 witness 1

  datatype Numeral = Zero | Nonzero(negative: bool, s: Significand, n: int)

  function Zeros(count: nat): (t: Text)
    ensures |t| == count && forall i :: 0 <= i < count ==> t[i] == ZERO
  {
    seq(count, i => ZERO)
  }

  /** The power of ten of the exponent notation. */
  function Power(n: int): Text {
    if n > 0 then [PLUS] + Digits(n - 1) else [MINUS] + Digits(1 - n)
  }

  function Mantissa(digits: Text): Text
    requires digits != []
  {
    digits[..1] + if |digits| == 1 then [] else [DOT] + digits[1..]
  }

  datatype Form = Integer | Split | Fraction | Scientific

  function FormOf(k: nat, n: int): Form {
    if k <= n <= 21 then Integer else if 0 < n <= 21 then Split else if -6 < n <= 0 then Fraction else Scientific
  }

  function ShowPositive(s: Significand, n: int): Text {
    var digits := Digits(s);
    match FormOf(|digits|, n)
    case Integer => digits + Zeros(n - |digits|)
    case Split => digits[..n] + ([DOT] + digits[n..])
    case Fraction => [ZERO, DOT] + (Zeros(-n) + digits)
    case Scientific => Mantissa(digits) + ([EXPONENT] + Power(n))
  }

  function ShowNumeral(x: Numeral): Text {
    match x
    case Zero => [ZERO]
    case Nonzero(negative, s, n) => if negative then [MINUS] + ShowPositive(s, n) else ShowPositive(s, n)
  }

  // ---- digits ----------------------------------------------------------------------------------

  lemma {:induction false} FirstDigit(n: nat)
    requires n > 0
    ensures Digits(n)[0] != ZERO
  {
    if n >= 10 {
      FirstDigit(n / 10);
    }
  }

  lemma LastDigit(s: Significand)
    ensures Digits(s)[|Digits(s)| - 1] != ZERO
  {
  }

  lemma DigitsAreFree(n: nat)
    ensures DOT !in Digits(n) && EXPONENT !in Digits(n)
  {
  }

  // ---- every form is told apart from the others --------------------------------------------------------

  lemma FormShows(s: Significand, n: int)
    ensures var t, form := ShowPositive(s, n), FormOf(|Digits(s)|, n);
            && t != [] && IsDigit(t[0])
            && (EXPONENT in t <==> form == Scientific)
            && (form == Integer ==> DOT !in t) && (form == Split || form == Fraction ==> DOT in t)
            && (t[0] == ZERO <==> form == Fraction)
  {
    FirstDigit(s);
    DigitsAreFree(s);
    var digits := Digits(s);
    match FormOf(|digits|, n)
    case Integer =>
    case Split => assert (digits[..n] + ([DOT] + digits[n..]))[n] == DOT;
    case Fraction => assert ([ZERO, DOT] + (Zeros(-n) + digits))[1] == DOT;
    case Scientific =>
      var m := Mantissa(digits);
      assert (m + ([EXPONENT] + Power(n)))[|m|] == EXPONENT;
  }

  // ---- and read back --------------------------------------------------------------------------------------

  lemma IntegerIsRead(s: Significand, n: int, s': Significand, n': int)
    requires |Digits(s)| <= n && |Digits(s')| <= n'
    requires Digits(s) + Zeros(n - |Digits(s)|) == Digits(s') + Zeros(n' - |Digits(s')|)
    ensures s == s' && n == n'
  {
    var a, b := Digits(s), Digits(s');
    var t := a + Zeros(n - |a|);
    assert |t| == n == n';
    LastDigit(s);
    LastDigit(s');
    assert t[|a| - 1] == a[|a| - 1] && (b + Zeros(n' - |b|))[|b| - 1] == b[|b| - 1];
    assert |a| == |b|;
    SplitAt(a, Zeros(n - |a|), b, Zeros(n' - |b|));
    DigitsDiffer(s, s');
  }

  lemma SplitIsRead(s: Significand, n: nat, s': Significand, n': nat)
    requires n <= |Digits(s)| && n' <= |Digits(s')|
    requires Digits(s)[..n] + ([DOT] + Digits(s)[n..]) == Digits(s')[..n'] + ([DOT] + Digits(s')[n'..])
    ensures s == s' && n == n'
  {
    var a, b := Digits(s), Digits(s');
    DigitsAreFree(s);
    DigitsAreFree(s');
    SplitAtFirst(DOT, a[..n], a[n..], b[..n'], b[n'..]);
    assert a == a[..n] + a[n..] && b == b[..n'] + b[n'..];
    DigitsDiffer(s, s');
  }

  lemma FractionIsRead(s: Significand, z: nat, s': Significand, z': nat)
    requires Zeros(z) + Digits(s) == Zeros(z') + Digits(s')
    ensures s == s' && z == z'
  {
    var a, b := Digits(s), Digits(s');
    var t, t' := Zeros(z) + a, Zeros(z') + b;
    assert z < z' ==> t'[z] == ZERO;
    assert z' < z ==> t[z'] == ZERO;
    assert t[z] == a[0] && t'[z'] == b[0];
    FirstDigit(s);
    FirstDigit(s');
    SplitAt(Zeros(z), a, Zeros(z'), b);
    DigitsDiffer(s, s');
  }

  lemma PowerIsRead(n: int, n': int)
    requires Power(n) == Power(n')
    ensures n == n'
  {
    assert Power(n)[0] == Power(n')[0];
    assert Power(n)[1..] == if n > 0 then Digits(n - 1) else Digits(1 - n);
    assert Power(n')[1..] == if n' > 0 then Digits(n' - 1) else Digits(1 - n');
    if n > 0 {
      DigitsDiffer(n - 1, n' - 1);
    } else {
      DigitsDiffer(1 - n, 1 - n');
    }
  }

  lemma MantissaIsRead(a: Text, b: Text)
    requires a != [] && b != [] && Mantissa(a) == Mantissa(b)
    ensures a == b
  {
    SplitAt(a[..1], Mantissa(a)[1..], b[..1], Mantissa(b)[1..]);
    assert a == a[..1] + a[1..] && b == b[..1] + b[1..];
    if |a| > 1 {
      assert Mantissa(a)[1..] == [DOT] + a[1..];
      SplitAt([DOT], a[1..], [DOT], b[1..]);
    }
  }

  lemma ScientificIsRead(s: Significand, n: int, s': Significand, n': int)
    requires Mantissa(Digits(s)) + ([EXPONENT] + Power(n)) == Mantissa(Digits(s')) + ([EXPONENT] + Power(n'))
    ensures s == s' && n == n'
  {
    DigitsAreFree(s);
    DigitsAreFree(s');
    SplitAtFirst(EXPONENT, Mantissa(Digits(s)), Power(n), Mantissa(Digits(s')), Power(n'));
    PowerIsRead(n, n');
    MantissaIsRead(Digits(s), Digits(s'));
    DigitsDiffer(s, s');
  }

  lemma PositiveIsRead(s: Significand, n: int, s': Significand, n': int)
    requires ShowPositive(s, n) == ShowPositive(s', n')
    ensures s == s' && n == n'
  {
    FormShows(s, n);
    FormShows(s', n');
    match FormOf(|Digits(s)|, n)
    case Integer => IntegerIsRead(s, n, s', n');
    case Split => SplitIsRead(s, n, s', n');
    case Fraction =>
      SplitAt([ZERO, DOT], Zeros(-n) + Digits(s), [ZERO, DOT], Zeros(-n') + Digits(s'));
      FractionIsRead(s, -n, s', -n');
    case Scientific => ScientificIsRead(s, n, s', n');
  }

  /** Different numbers are printed differently, in all four notations. */
  lemma NumeralIsRead(x: Numeral, y: Numeral)
    requires ShowNumeral(x) == ShowNumeral(y)
    ensures x == y
  {
    NumeralBegins(x);
    NumeralBegins(y);
    if x.Nonzero? && y.Nonzero? {
      if x.negative {
        SplitAt([MINUS], ShowPositive(x.s, x.n), [MINUS], ShowPositive(y.s, y.n));
      }
      PositiveIsRead(x.s, x.n, y.s, y.n);
    } else if x.Nonzero? {
      ZeroIsAlone(x);
    } else if y.Nonzero? {
      ZeroIsAlone(y);
    }
  }

  lemma ZeroIsAlone(x: Numeral)
    requires x.Nonzero?
    ensures ShowNumeral(x) != [ZERO]
  {
    FormShows(x.s, x.n);
    if !x.negative && ShowNumeral(x)[0] == ZERO {
      assert |ShowNumeral(x)| >= 2;
    }
  }

  lemma NumeralBegins(x: Numeral)
    ensures var t := ShowNumeral(x);
            t != [] && (if x.Nonzero? && x.negative then t[0] == MINUS else IsDigit(t[0]))
  {
    if x.Nonzero? {
      FormShows(x.s, x.n);
    }
  }

  // ---- where a number ends ----------------------------------------------------------------------------------

  predicate IsNumeral(u: Unit) {
    IsDigit(u) || u == PLUS || u == MINUS || u == DOT || u == EXPONENT
  }

  /** What follows a value never continues a number. */
  predicate Stops(rest: Text) {
    rest != [] ==> !IsNumeral(rest[0])
  }

  lemma NumeralUnits(x: Numeral)
    ensures forall i :: 0 <= i < |ShowNumeral(x)| ==> IsNumeral(ShowNumeral(x)[i])
  {
    if x.Nonzero? {
      PositiveUnits(x.s, x.n);
    }
  }

  lemma PositiveUnits(s: Significand, n: int)
    ensures forall i :: 0 <= i < |ShowPositive(s, n)| ==> IsNumeral(ShowPositive(s, n)[i])
  {
  }

  /** How many units of numbers a text begins with. */
  function NumeralRun(t: Text): nat {
    if t == [] || !IsNumeral(t[0]) then 0 else 1 + NumeralRun(t[1..])
  }

  lemma {:induction false} RunOfNumeral(a: Text, rest: Text)
    requires (forall i :: 0 <= i < |a| ==> IsNumeral(a[i])) && Stops(rest)
    ensures NumeralRun(a + rest) == |a|
  {
    if a == [] {
      assert a + rest == rest;
    } else {
      RunOfNumeral(a[1..], rest);
      assert (a + rest)[1..] == a[1..] + rest;
    }
  }

  /** A printed number determines the number and where it ends. */
  lemma NumberPrefix(x: Numeral, y: Numeral, r1: Text, r2: Text)
    requires ShowNumeral(x) + r1 == ShowNumeral(y) + r2 && Stops(r1) && Stops(r2)
    ensures x == y && r1 == r2
  {
    NumeralUnits(x);
    NumeralUnits(y);
    RunOfNumeral(ShowNumeral(x), r1);
    RunOfNumeral(ShowNumeral(y), r2);
    SplitAt(ShowNumeral(x), r1, ShowNumeral(y), r2);
    NumeralIsRead(x, y);
  }

  // ---- which notation is used --------------------------------------------------------------------

  /** An exponent is written from 1e21 on and below 1e-6; otherwise a point is written exactly
      if the number is not whole. A number below one begins with a zero, and no other does. */
  lemma NotationIff(s: Significand, n: int)
    ensures var t := ShowPositive(s, n);
            && t != []
            && ('e' as int in t <==> n > 21 || n <= -6)
            && (-6 < n <= 21 ==> ('.' as int in t <==> n < |Digits(s)|))
            && (t[0] == '0' as int <==> -6 < n <= 0)
  {
    FormShows(s, n);
  }
}
