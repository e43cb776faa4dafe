/** UTF-16 code units, and numbers written in decimal as string templates write them. */
module CodeUnits {
  type Unit = u: nat | u < 0x1_0000

  type Text = seq<Unit>

  predicate IsDigit(u: Unit) {
    48 <= u <= 57
  }

  function Digits(n: nat): (t: Text)
    ensures t != [] && forall i :: 0 <= i < |t| ==> IsDigit(t[i])
  {
    if n < 10 then [48 + n] else Digits(n / 10) + [48 + n % 10]
  }

  lemma {:induction false} DigitsDiffer(n: nat, m: nat)
    requires Digits(n) == Digits(m)
    ensures n == m
  {
    var a, b := Digits(n), Digits(m);
    assert a[|a| - 1] == 48 + n % 10 && b[|b| - 1] == 48 + m % 10;
    if n >= 10 && m >= 10 {
      assert a[..|a| - 1] == Digits(n / 10) && b[..|b| - 1] == Digits(m / 10);
      DigitsDiffer(n / 10, m / 10);
    }
  }

  /** One digit of a number in a base up to 36: `0` to `9`, then `a` to `z`. */
  function Digit(d: nat): Unit
    requires d < 36
  {
    if d < 10 then 48 + d else 87 + d
  }

  lemma DigitsAreSpelled(d: nat)
    requires d < 36
    ensures Digit(d) == "0123456789abcdefghijklmnopqrstuvwxyz"[d] as int
  {
  }

  lemma DigitIsInjective(d: nat, e: nat)
    requires d < 36 && e < 36
    ensures Digit(d) == Digit(e) ==> d == e
  {
  }

  /** The digits as a string. */
  function Decimal(n: nat): (s: string)
    ensures s != [] && forall i :: 0 <= i < |s| ==> '0' <= s[i] <= '9'
  {
    seq(|Digits(n)|, i requires 0 <= i < |Digits(n)| => Digits(n)[i] as char)
  }

  lemma DecimalIsInjective(n: nat, m: nat)
    requires Decimal(n) == Decimal(m)
    ensures n == m
  {
    var a, b := Digits(n), Digits(m);
    assert |a| == |Decimal(n)| == |b|;
    forall i | 0 <= i < |a| ensures a[i] == b[i] {
      assert Decimal(n)[i] == Decimal(m)[i];
    }
    DigitsDiffer(n, m);
  }
}
