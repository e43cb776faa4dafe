/** Every canonical text is read back as what it was printed from. */
module JsonRoundTrip {
  import opened CodeUnits
  import opened NumberText
  import opened CanonicalText
  import opened JsonReader
  import opened Options

  // ---- strings ------------------------------------------------------------------------------

  lemma {:induction false} DigitIsHex(d: nat)
    requires d < 16
    ensures HexValue(Digit(d)) == Some(d)
  {
  }

  lemma {:induction false} HexIsRead(u: Unit, rest: Text)
    ensures |Hex(u) + rest| >= 4 && ReadHex(Hex(u) + rest) == Some(u)
  {
    DigitIsHex(u / 4096);
    DigitIsHex(u / 256 % 16);
    DigitIsHex(u / 16 % 16);
    DigitIsHex(u % 16);
    SplitHex(u);
    var t := Hex(u) + rest;
    assert t[0] == Hex(u)[0] && t[1] == Hex(u)[1] && t[2] == Hex(u)[2] && t[3] == Hex(u)[3];
    HexSums(u);
  }

  lemma {:induction false} HexSums(u: nat)
    ensures ((u / 4096 * 16 + u / 256 % 16) * 16 + u / 16 % 16) * 16 + u % 16 == u
  {
    assert u / 256 == 16 * (u / 4096) + u / 256 % 16;
    assert u / 16 == 16 * (u / 256) + u / 16 % 16;
    assert u == 16 * (u / 16) + u % 16;
  }

  lemma {:induction false} UnitIsRead(u: Unit, lone: bool, rest: Text)
    ensures Escape(u, lone) != [] && Escape(u, lone)[0] != QUOTE
    ensures ReadUnit(Escape(u, lone) + rest) == Good(u, rest)
  {
    var e := Escape(u, lone);
    var t := e + rest;
    assert t[0] == e[0];
    if HasShortEscape(u) {
      assert t[1] == e[1] && t[2..] == rest;
    } else if u < 32 || lone {
      assert t[1] == e[1] && t[2..] == Hex(u) + rest && t[6..] == rest;
      HexIsRead(u, rest);
    } else {
      assert t[1..] == rest;
    }
  }

  lemma {:induction false} StringIsRead(s: Text, i: nat, rest: Text)
    requires i <= |s|
    ensures ReadString(StringFrom(s, i) + rest) == Good(s[i..], rest)
    decreases |s| - i
  {
    var t := StringFrom(s, i) + rest;
    if i == |s| {
      assert t[1..] == rest && s[i..] == [];
    } else {
      StringUnfold(s, i, rest);
      UnitIsRead(s[i], IsLone(s, i), StringFrom(s, i + 1) + rest);
      assert t[0] == Escape(s[i], IsLone(s, i))[0];
      StringIsRead(s, i + 1, rest);
      assert s[i..] == [s[i]] + s[i + 1..];
    }
  }

  // ---- numbers --------------------------------------------------------------------------------

  lemma {:induction false} RunIsRead(a: Text, rest: Text)
    requires (forall i :: 0 <= i < |a| ==> IsDigit(a[i])) && (rest != [] ==> !IsDigit(rest[0]))
    ensures Scan(a + rest) == Scanned(a, rest)
  {
    if a == [] {
      assert a + rest == rest;
    } else {
      assert (a + rest)[1..] == a[1..] + rest;
      RunIsRead(a[1..], rest);
      assert a == [a[0]] + a[1..];
    }
  }

  lemma {:induction false} DigitsAreRead(n: nat)
    ensures NumberOf(Digits(n)) == n && |Digits(n)| == DigitCount(n)
  {
    if n >= 10 {
      DigitsAreRead(n / 10);
      assert Digits(n)[..|Digits(n)| - 1] == Digits(n / 10);
    } else {
      assert Digits(n)[..0] == [];
    }
  }

  function TenTo(k: nat): nat {
    if k == 0 then 1 else 10 * TenTo(k - 1)
  }

  lemma {:induction false} TenToGrows(s: nat, z: nat)
    requires z > 0
    ensures s * TenTo(z) == 10 * (s * TenTo(z - 1))
  {
  }

  lemma {:induction false} ZerosScale(a: Text, z: nat)
    ensures NumberOf(a + Zeros(z)) == NumberOf(a) * TenTo(z)
  {
    if z == 0 {
      assert a + Zeros(0) == a;
    } else {
      ZerosScale(a, z - 1);
      assert (a + Zeros(z))[..|a| + z - 1] == a + Zeros(z - 1);
      TenToGrows(NumberOf(a), z);
    }
  }

  lemma {:induction false} LeadingZerosCountNothing(z: nat, a: Text)
    ensures NumberOf(Zeros(z) + a) == NumberOf(a)
    decreases z + |a|
  {
    if a != [] {
      assert (Zeros(z) + a)[..z + |a| - 1] == Zeros(z) + a[..|a| - 1];
      LeadingZerosCountNothing(z, a[..|a| - 1]);
    } else if z > 0 {
      assert Zeros(z) + a == Zeros(z);
      assert Zeros(z)[..z - 1] == Zeros(z - 1) == Zeros(z - 1) + [];
      LeadingZerosCountNothing(z - 1, []);
    } else {
      assert Zeros(0) + a == a;
    }
  }

  lemma {:induction false} TimesTen(m: nat)
    requires m > 0
    ensures 10 * m > 0 && 10 * m % 10 == 0 && 10 * m / 10 == m
  {
  }

  lemma {:induction false} ScaledStrips(negative: bool, m: nat, e: int)
    requires m > 0
    ensures Scaled(negative, 10 * m, e) == Scaled(negative, m, e + 1)
  {
    TimesTen(m);
  }

  /** The scale of a number does not depend on how much of it is zeros. */
  lemma {:induction false} ScaledIsExact(negative: bool, s: Significand, z: nat, e: int)
    ensures Scaled(negative, s * TenTo(z), e) == Nonzero(negative, s, e + z + DigitCount(s))
    decreases z
  {
    if z == 0 {
      assert s * TenTo(0) == s;
    } else {
      TenToIsPositive(s, z - 1);
      TenToGrows(s, z);
      ScaledStrips(negative, s * TenTo(z - 1), e);
      ScaledIsExact(negative, s, z - 1, e + 1);
    }
  }

  lemma {:induction false} TenToIsPositive(s: nat, z: nat)
    requires s > 0
    ensures s * TenTo(z) > 0
  {
    if z > 0 {
      TenToIsPositive(s, z - 1);
      assert s * TenTo(z) == 10 * (s * TenTo(z - 1));
    }
  }

  // ---- what follows ---------------------------------------------------------------------------

  /** What can follow a value inside a canonical text. */
  predicate Delimits(rest: Text) {
    rest != [] ==> rest[0] in {COMMA, CLOSE_BRACKET, CLOSE_BRACE}
  }

  predicate NoDigit(rest: Text) {
    rest != [] ==> !IsDigit(rest[0])
  }

  lemma {:induction false} NoParts(rest: Text)
    requires Delimits(rest)
    ensures NoDigit(rest) && ReadExponent(rest) == Good(0, rest) && ReadFraction(rest) == Good([], rest)
  {
  }

  predicate AllDigits(a: Text) {
    forall i :: 0 <= i < |a| ==> IsDigit(a[i])
  }

  lemma {:induction false} FirstOf(a: Text, rest: Text)
    requires a != []
    ensures (a + rest)[0] == a[0] && (a + rest)[1..] == a[1..] + rest
  {
  }

  /** The parts of a number, read one after the other. */
  lemma {:induction false} PartsAreRead(whole: Text, tail: Text, fraction: Text, after: Text, e: int, rest: Text)
    requires whole != [] && AllDigits(whole) && (|whole| > 1 ==> whole[0] != ZERO) && NoDigit(tail)
    requires ReadFraction(tail) == Good(fraction, after) && ReadExponent(after) == Good(e, rest)
    ensures ReadUnsigned(whole + tail) == Good(Decimal(NumberOf(whole + fraction), e - |fraction|), rest)
  {
    RunIsRead(whole, tail);
    FirstOf(whole, tail);
  }

  lemma {:induction false} FractionIsRead(digits: Text, rest: Text)
    requires digits != [] && AllDigits(digits) && NoDigit(rest)
    ensures NoDigit([DOT] + (digits + rest)) && ReadFraction([DOT] + (digits + rest)) == Good(digits, rest)
  {
    var t := [DOT] + (digits + rest);
    assert t[1..] == digits + rest;
    RunIsRead(digits, rest);
  }

  lemma {:induction false} DigitsRead(digits: Text, rest: Text)
    requires digits != [] && AllDigits(digits) && NoDigit(rest)
    ensures ReadDigits(digits + rest) == Good(NumberOf(digits), rest)
  {
    RunIsRead(digits, rest);
  }

  lemma {:induction false} PowerIsRead(n: int, rest: Text)
    requires NoDigit(rest)
    ensures ReadPower(Power(n) + rest) == Good(n - 1, rest)
  {
    var m: nat := if n > 0 then n - 1 else 1 - n;
    var digits := Digits(m);
    DigitsAreRead(m);
    DigitsRead(digits, rest);
    SignIsRead(if n > 0 then PLUS else MINUS, digits, m, rest);
    assert Power(n) == [if n > 0 then PLUS else MINUS] + digits;
  }

  lemma {:induction false} SignIsRead(sign: Unit, digits: Text, m: nat, rest: Text)
    requires (sign == PLUS || sign == MINUS) && ReadDigits(digits + rest) == Good(m, rest)
    ensures ReadPower(([sign] + digits) + rest) == Good(if sign == PLUS then m else 0 - m, rest)
  {
    var t := ([sign] + digits) + rest;
    assert t[0] == sign && t[1..] == digits + rest;
  }

  lemma {:induction false} ExponentIsRead(n: int, rest: Text)
    requires NoDigit(rest)
    ensures ReadExponent([EXPONENT] + (Power(n) + rest)) == Good(n - 1, rest)
    ensures ReadFraction([EXPONENT] + (Power(n) + rest)) == Good([], [EXPONENT] + (Power(n) + rest))
    ensures NoDigit([EXPONENT] + (Power(n) + rest))
  {
    var t := [EXPONENT] + (Power(n) + rest);
    assert t[0] == EXPONENT && t[1..] == Power(n) + rest;
    PowerIsRead(n, rest);
  }

  // ---- the four notations ------------------------------------------------------------------------

  /** The decimals that stand for a number. */
  predicate StandsFor(d: Decimal, s: Significand, n: int) {
    exists z: nat :: d.m == s * TenTo(z) && n == d.e + z + DigitCount(s)
  }

  lemma {:induction false} ScaledIsIt(negative: bool, d: Decimal, s: Significand, n: int)
    requires StandsFor(d, s, n)
    ensures Scaled(negative, d.m, d.e) == Nonzero(negative, s, n)
  {
    var z: nat :| d.m == s * TenTo(z) && n == d.e + z + DigitCount(s);
    ScaledIsExact(negative, s, z, d.e);
  }

  lemma {:induction false} StandsForItself(s: Significand, e: int)
    ensures StandsFor(Decimal(s, e), s, e + DigitCount(s))
  {
    assert s == s * TenTo(0);
  }

  lemma {:induction false} StandsForMore(s: Significand, z: nat)
    ensures StandsFor(Decimal(s * TenTo(z), 0), s, z + DigitCount(s))
  {
  }

  lemma {:induction false} IntegerReads(s: Significand, n: int, rest: Text)
    requires |Digits(s)| <= n && Delimits(rest)
    ensures var r := ReadUnsigned((Digits(s) + Zeros(n - |Digits(s)|)) + rest);
            r.Good? && r.rest == rest && StandsFor(r.value, s, n)
  {
    var z := n - |Digits(s)|;
    var whole := Digits(s) + Zeros(z);
    FirstDigit(s);
    DigitsAreRead(s);
    ZerosScale(Digits(s), z);
    NoParts(rest);
    assert whole + [] == whole;
    PartsAreRead(whole, rest, [], rest, 0, rest);
    StandsForMore(s, z);
  }

  /** Digits with a point among them. */
  lemma {:induction false} DottedIsRead(a: Text, b: Text, tail: Text, e: int, rest: Text)
    requires a != [] && AllDigits(a) && (|a| > 1 ==> a[0] != ZERO) && b != [] && AllDigits(b) && NoDigit(tail)
    requires ReadExponent(tail) == Good(e, rest)
    ensures ReadUnsigned(a + ([DOT] + (b + tail))) == Good(Decimal(NumberOf(a + b), e - |b|), rest)
  {
    FractionIsRead(b, tail);
    PartsAreRead(a, [DOT] + (b + tail), b, tail, e, rest);
  }

  lemma {:induction false} Regrouped(a: Text, dot: Text, b: Text, rest: Text)
    ensures (a + (dot + b)) + rest == a + (dot + (b + rest))
  {
  }

  lemma {:induction false} SplitReads(s: Significand, n: int, rest: Text)
    requires 0 < n < |Digits(s)| && Delimits(rest)
    ensures var r := ReadUnsigned((Digits(s)[..n] + ([DOT] + Digits(s)[n..])) + rest);
            r.Good? && r.rest == rest && StandsFor(r.value, s, n)
  {
    var a, b := Digits(s)[..n], Digits(s)[n..];
    FirstDigit(s);
    DigitsAreRead(s);
    NoParts(rest);
    assert a + b == Digits(s);
    DottedIsRead(a, b, rest, 0, rest);
    Regrouped(a, [DOT], b, rest);
    StandsForItself(s, -|b|);
  }

  lemma {:induction false} ZeroInFront(z: nat, s: Significand)
    ensures NumberOf([ZERO] + (Zeros(z) + Digits(s))) == s && |Zeros(z) + Digits(s)| == z + DigitCount(s)
  {
    DigitsAreRead(s);
    LeadingZerosCountNothing(1 + z, Digits(s));
    assert [ZERO] + (Zeros(z) + Digits(s)) == Zeros(1 + z) + Digits(s);
  }

  lemma ZeroDotRegrouped(b: Text, rest: Text)
    ensures ([ZERO, DOT] + b) + rest == [ZERO] + ([DOT] + (b + rest))
  {
  }

  lemma {:induction false} FractionReads(s: Significand, n: int, rest: Text)
    requires n <= 0 && Delimits(rest)
    ensures var r := ReadUnsigned(([ZERO, DOT] + (Zeros(-n) + Digits(s))) + rest);
            r.Good? && r.rest == rest && StandsFor(r.value, s, n)
  {
    var b := Zeros(-n) + Digits(s);
    ZeroInFront(-n, s);
    NoParts(rest);
    DottedIsRead([ZERO], b, rest, 0, rest);
    ZeroDotRegrouped(b, rest);
    StandsForItself(s, -|b|);
  }

  lemma {:induction false} OneDigitReads(a: Text, m: nat, n: int, rest: Text)
    requires |a| == 1 && AllDigits(a) && NumberOf(a) == m && Delimits(rest)
    ensures ReadUnsigned((a + ([EXPONENT] + Power(n))) + rest) == Good(Decimal(m, n - 1), rest)
  {
    var tail := [EXPONENT] + (Power(n) + rest);
    ExponentIsRead(n, rest);
    assert a + [] == a;
    PartsAreRead(a, tail, [], tail, n - 1, rest);
    Regrouped(a, [EXPONENT], Power(n), rest);
  }

  lemma {:induction false} AllRegrouped(a: Text, dot: Text, b: Text, mark: Text, power: Text, rest: Text)
    ensures ((a + (dot + b)) + (mark + power)) + rest == a + (dot + (b + (mark + (power + rest))))
  {
  }

  lemma {:induction false} MoreDigitsRead(a: Text, b: Text, m: nat, n: int, rest: Text)
    requires |a| == 1 && AllDigits(a) && b != [] && AllDigits(b) && NumberOf(a + b) == m && Delimits(rest)
    ensures ReadUnsigned(((a + ([DOT] + b)) + ([EXPONENT] + Power(n))) + rest) == Good(Decimal(m, n - 1 - |b|), rest)
  {
    var tail := [EXPONENT] + (Power(n) + rest);
    ExponentIsRead(n, rest);
    DottedIsRead(a, b, tail, n - 1, rest);
    AllRegrouped(a, [DOT], b, [EXPONENT], Power(n), rest);
  }

  lemma {:induction false} ScientificReads(s: Significand, n: int, rest: Text)
    requires Delimits(rest)
    ensures var r := ReadUnsigned((Mantissa(Digits(s)) + ([EXPONENT] + Power(n))) + rest);
            r.Good? && r.rest == rest && StandsFor(r.value, s, n)
  {
    var a, b := Digits(s)[..1], Digits(s)[1..];
    DigitsAreRead(s);
    assert a + b == Digits(s);
    StandsForItself(s, n - 1 - |b|);
    if b == [] {
      assert Mantissa(Digits(s)) == a == Digits(s);
      OneDigitReads(a, s, n, rest);
    } else {
      assert Mantissa(Digits(s)) == a + ([DOT] + b);
      MoreDigitsRead(a, b, s, n, rest);
    }
  }

  lemma {:induction false} PositiveIsRead(s: Significand, n: int, rest: Text)
    requires Delimits(rest)
    ensures var r := ReadUnsigned(ShowPositive(s, n) + rest);
            r.Good? && r.rest == rest && StandsFor(r.value, s, n)
  {
    match FormOf(|Digits(s)|, n)
    case Integer => IntegerReads(s, n, rest);
    case Split => SplitReads(s, n, rest);
    case Fraction => FractionReads(s, n, rest);
    case Scientific => ScientificReads(s, n, rest);
  }

  lemma {:induction false} ZeroIsRead(rest: Text)
    requires Delimits(rest)
    ensures ReadUnsigned([ZERO] + rest) == Good(Decimal(0, 0), rest)
  {
    NoParts(rest);
    PartsAreRead([ZERO], rest, [], rest, 0, rest);
    assert [ZERO] + [] == [ZERO] && [ZERO][..0] == [];
    assert NumberOf([ZERO]) == 0;
  }

  lemma {:induction false} SignedIsRead(negative: bool, s: Significand, n: int, t: Text, rest: Text)
    requires ReadUnsigned(t).Good? && ReadUnsigned(t).rest == rest && StandsFor(ReadUnsigned(t).value, s, n)
    ensures Signed(negative, ReadUnsigned(t)) == Good(Nonzero(negative, s, n), rest)
  {
    ScaledIsIt(negative, ReadUnsigned(t).value, s, n);
  }

  lemma {:induction false} SignLeads(x: Numeral, rest: Text)
    ensures Begins(ShowNumeral(x) + rest, '-') <==> x.Nonzero? && x.negative
    ensures x.Nonzero? && x.negative ==> (ShowNumeral(x) + rest)[1..] == ShowPositive(x.s, x.n) + rest
  {
    NumeralBegins(x);
    FirstOf(ShowNumeral(x), rest);
    if x.Nonzero? && x.negative {
      assert ([MINUS] + ShowPositive(x.s, x.n))[1..] == ShowPositive(x.s, x.n);
    }
  }

  lemma {:induction false} SignedZero(t: Text, rest: Text)
    requires ReadUnsigned(t) == Good(Decimal(0, 0), rest)
    ensures Signed(false, ReadUnsigned(t)) == Good(Zero, rest)
  {
  }

  /** A number is read as its decimal value, in whichever notation it is printed. */
  lemma {:induction false} NumberIsRead(x: Numeral, rest: Text)
    requires Delimits(rest)
    ensures ReadNumber(ShowNumeral(x) + rest) == Good(x, rest)
  {
    SignLeads(x, rest);
    match x
    case Zero =>
      ZeroIsRead(rest);
      SignedZero([ZERO] + rest, rest);
    case Nonzero(negative, s, n) =>
      PositiveIsRead(s, n, rest);
      SignedIsRead(negative, s, n, ShowPositive(s, n) + rest, rest);
  }

  // ---- values ----------------------------------------------------------------------------------

  lemma {:induction false} NotWhite(t: Text)
    requires t != [] && !IsWhite(t[0])
    ensures Skip(t) == t
  {
  }

  /** No value begins with white space, and every first unit belongs to one kind of value. */
  lemma {:induction false} ShownBegins(t: Tree, rest: Text)
    ensures var text := Show(t) + rest;
            && text != [] && Skip(text) == text && KindOf(text[0]) == Kind(t)
  {
    FirstUnit(t);
    FirstOf(Show(t), rest);
    NotWhite(Show(t) + rest);
  }

  lemma {:induction false} NullIsRead(rest: Text)
    ensures ReadValue(Show(JNull) + rest) == Good(JNull, rest)
  {
    ShownBegins(JNull, rest);
    var t := NULL_TEXT + rest;
    assert t[1] == NULL_TEXT[1] && t[2] == NULL_TEXT[2] && t[3] == NULL_TEXT[3] && t[4..] == rest;
  }

  lemma {:induction false} TrueIsRead(rest: Text)
    ensures ReadValue(Show(JBool(true)) + rest) == Good(JBool(true), rest)
  {
    ShownBegins(JBool(true), rest);
    var t := TRUE_TEXT + rest;
    assert t[1] == TRUE_TEXT[1] && t[2] == TRUE_TEXT[2] && t[3] == TRUE_TEXT[3] && t[4..] == rest;
  }

  lemma {:induction false} FalseIsRead(rest: Text)
    ensures ReadValue(Show(JBool(false)) + rest) == Good(JBool(false), rest)
  {
    ShownBegins(JBool(false), rest);
    var t := FALSE_TEXT + rest;
    assert t[1] == FALSE_TEXT[1] && t[2] == FALSE_TEXT[2] && t[3] == FALSE_TEXT[3] && t[4] == FALSE_TEXT[4];
    assert t[5..] == rest;
  }

  /** Neither a literal nor a bracket. */
  lemma {:induction false} NumberValue(t: Text, x: Numeral, rest: Text)
    requires t != [] && Skip(t) == t && KindOf(t[0]) in {3, 4} && ReadNumber(t) == Good(x, rest)
    ensures ReadValue(t) == Good(JNumber(x), rest)
  {
  }

  lemma {:induction false} StringValue(t: Text, s: Text, rest: Text)
    requires t != [] && Skip(t) == t && t[0] == QUOTE && ReadString(t[1..]) == Good(s, rest)
    ensures ReadValue(t) == Good(JString(s), rest)
  {
  }

  lemma {:induction false} EmptyArray(rest: Text)
    ensures ReadValue([OPEN_BRACKET] + ([CLOSE_BRACKET] + rest)) == Good(JArray([]), rest)
  {
    var t := [OPEN_BRACKET] + ([CLOSE_BRACKET] + rest);
    NotWhite(t);
    NotWhite([CLOSE_BRACKET] + rest);
    assert t[1..] == [CLOSE_BRACKET] + rest;
  }

  lemma {:induction false} ArrayValue(inner: Text, items: seq<Tree>, rest: Text)
    requires inner != [] && Skip(inner) == inner && inner[0] != CLOSE_BRACKET && ReadItems(inner) == Good(items, rest)
    ensures ReadValue([OPEN_BRACKET] + inner) == Good(JArray(items), rest)
  {
    var t := [OPEN_BRACKET] + inner;
    NotWhite(t);
    assert t[1..] == inner;
  }

  lemma {:induction false} EmptyObject(rest: Text)
    ensures ReadValue([OPEN_BRACE] + ([CLOSE_BRACE] + rest)) == Good(JObject([]), rest)
  {
    var t := [OPEN_BRACE] + ([CLOSE_BRACE] + rest);
    NotWhite(t);
    NotWhite([CLOSE_BRACE] + rest);
    assert t[1..] == [CLOSE_BRACE] + rest;
  }

  lemma {:induction false} ObjectValue(inner: Text, fields: seq<Field>, rest: Text)
    requires inner != [] && inner[0] == QUOTE && ReadFields(inner) == Good(fields, rest)
    ensures ReadValue([OPEN_BRACE] + inner) == Good(JObject(fields), rest)
  {
    var t := [OPEN_BRACE] + inner;
    NotWhite(t);
    NotWhite(inner);
    assert t[1..] == inner;
  }

  // ---- items -----------------------------------------------------------------------------------

  lemma {:induction false} LastItem(t: Text, v: Tree, rest: Text)
    requires ReadValue(t) == Good(v, [CLOSE_BRACKET] + rest)
    ensures ReadItems(t) == Good([v], rest)
  {
    NotWhite([CLOSE_BRACKET] + rest);
    assert ([CLOSE_BRACKET] + rest)[1..] == rest;
  }

  lemma {:induction false} NextItem(t: Text, v: Tree, more: Text, vs: seq<Tree>, rest: Text)
    requires ReadValue(t) == Good(v, [COMMA] + more) && ReadItems(more) == Good(vs, rest)
    ensures ReadItems(t) == Good([v] + vs, rest)
  {
    NotWhite([COMMA] + more);
    assert ([COMMA] + more)[1..] == more;
  }

  /** The text of the items from `i` on, without the comma in front. */
  function ItemText(t: Tree, i: nat, rest: Text): Text
    requires t.JArray? && i < |t.items|
  {
    Show(t.items[i]) + (ItemsFrom(t, i + 1) + rest)
  }

  lemma {:induction false} ItemsContinue(t: Tree, i: nat, rest: Text)
    requires t.JArray? && 0 < i <= |t.items|
    ensures Delimits(ItemsFrom(t, i) + rest)
    ensures ItemsFrom(t, i) + rest ==
            if i < |t.items| then [COMMA] + ItemText(t, i, rest) else [CLOSE_BRACKET] + rest
  {
    if i < |t.items| {
      ItemsUnfold(t, i, rest);
      assert Separator(i) == [COMMA];
    }
  }

  lemma {:induction false} ItemsAreRead(t: Tree, i: nat, rest: Text)
    requires t.JArray? && i < |t.items|
    ensures ReadItems(ItemText(t, i, rest)) == Good(t.items[i..], rest)
    decreases t, 1, |t.items| - i
  {
    ItemsContinue(t, i + 1, rest);
    ValueIsRead(t.items[i], ItemsFrom(t, i + 1) + rest);
    assert t.items[i..] == [t.items[i]] + t.items[i + 1..];
    if i + 1 < |t.items| {
      ItemsAreRead(t, i + 1, rest);
      NextItem(ItemText(t, i, rest), t.items[i], ItemText(t, i + 1, rest), t.items[i + 1..], rest);
    } else {
      LastItem(ItemText(t, i, rest), t.items[i], rest);
      assert t.items[i..] == [t.items[i]];
    }
  }

  // ---- fields ------------------------------------------------------------------------------------

  lemma {:induction false} OneField(key: Text, afterColon: Text, v: Tree, rest: Text)
    requires ReadValue(afterColon) == Good(v, rest)
    ensures ReadField(ShowString(key) + ([COLON] + afterColon)) == Good(Field(key, v), rest)
  {
    var t := ShowString(key) + ([COLON] + afterColon);
    FirstOf(ShowString(key), [COLON] + afterColon);
    NotWhite(t);
    assert t[1..] == StringFrom(key, 0) + ([COLON] + afterColon);
    StringIsRead(key, 0, [COLON] + afterColon);
    assert key[0..] == key;
    NotWhite([COLON] + afterColon);
    assert ([COLON] + afterColon)[1..] == afterColon;
  }

  lemma {:induction false} LastField(t: Text, f: Field, rest: Text)
    requires ReadField(t) == Good(f, [CLOSE_BRACE] + rest)
    ensures ReadFields(t) == Good([f], rest)
  {
    NotWhite([CLOSE_BRACE] + rest);
    assert ([CLOSE_BRACE] + rest)[1..] == rest;
  }

  lemma {:induction false} NextField(t: Text, f: Field, more: Text, fs: seq<Field>, rest: Text)
    requires ReadField(t) == Good(f, [COMMA] + more) && ReadFields(more) == Good(fs, rest)
    ensures ReadFields(t) == Good([f] + fs, rest)
  {
    NotWhite([COMMA] + more);
    assert ([COMMA] + more)[1..] == more;
  }

  function FieldText(t: Tree, i: nat, rest: Text): Text
    requires t.JObject? && i < |t.fields|
  {
    ShowString(t.fields[i].key) + ([COLON] + (Show(t.fields[i].value) + (FieldsFrom(t, i + 1) + rest)))
  }

  lemma {:induction false} FieldsContinue(t: Tree, i: nat, rest: Text)
    requires t.JObject? && 0 < i <= |t.fields|
    ensures Delimits(FieldsFrom(t, i) + rest)
    ensures FieldsFrom(t, i) + rest ==
            if i < |t.fields| then [COMMA] + FieldText(t, i, rest) else [CLOSE_BRACE] + rest
  {
    if i < |t.fields| {
      FieldsUnfold(t, i, rest);
      assert Separator(i) == [COMMA];
    }
  }

  lemma {:induction false} FieldIsRead(t: Tree, i: nat, rest: Text, more: Text)
    requires t.JObject? && i < |t.fields| && more == FieldsFrom(t, i + 1) + rest && Delimits(more)
    ensures ReadField(FieldText(t, i, rest)) == Good(t.fields[i], more)
    decreases t, 1, 0
  {
    ValueIsRead(t.fields[i].value, more);
    OneField(t.fields[i].key, Show(t.fields[i].value) + more, t.fields[i].value, more);
  }

  lemma FirstField(fields: seq<Field>, i: nat)
    requires i < |fields|
    ensures fields[i..] == [fields[i]] + fields[i + 1..]
    ensures i + 1 == |fields| ==> fields[i..] == [fields[i]]
  {
  }

  lemma {:induction false} FieldsAreRead(t: Tree, i: nat, rest: Text)
    requires t.JObject? && i < |t.fields|
    ensures ReadFields(FieldText(t, i, rest)) == Good(t.fields[i..], rest)
    decreases t, 1, |t.fields| - i
  {
    FieldsContinue(t, i + 1, rest);
    FieldIsRead(t, i, rest, FieldsFrom(t, i + 1) + rest);
    FirstField(t.fields, i);
    if i + 1 < |t.fields| {
      FieldsAreRead(t, i + 1, rest);
      NextField(FieldText(t, i, rest), t.fields[i], FieldText(t, i + 1, rest), t.fields[i + 1..], rest);
    } else {
      LastField(FieldText(t, i, rest), t.fields[i], rest);
    }
  }

  // ---- the round trip -----------------------------------------------------------------------------

  lemma {:induction false} Shifted(a: Text, b: Text, rest: Text)
    ensures (a + b) + rest == a + (b + rest)
  {
  }

  lemma {:induction false} NothingInFront(t: Text)
    ensures [] + t == t
  {
  }

  lemma {:induction false} ArrayText(t: Tree, rest: Text)
    requires t.JArray?
    ensures Show(t) + rest ==
            [OPEN_BRACKET] + if t.items == [] then [CLOSE_BRACKET] + rest else ItemText(t, 0, rest)
  {
    Shifted([OPEN_BRACKET], ItemsFrom(t, 0), rest);
    if t.items != [] {
      ItemsUnfold(t, 0, rest);
      NothingInFront(ItemText(t, 0, rest));
    }
  }

  lemma {:induction false} ObjectText(t: Tree, rest: Text)
    requires t.JObject?
    ensures Show(t) + rest ==
            [OPEN_BRACE] + if t.fields == [] then [CLOSE_BRACE] + rest else FieldText(t, 0, rest)
  {
    Shifted([OPEN_BRACE], FieldsFrom(t, 0), rest);
    if t.fields != [] {
      FieldsUnfold(t, 0, rest);
      NothingInFront(FieldText(t, 0, rest));
    }
  }

  lemma {:induction false} ItemTextBegins(t: Tree, rest: Text)
    requires t.JArray? && t.items != []
    ensures var inner := ItemText(t, 0, rest); inner != [] && Skip(inner) == inner && inner[0] != CLOSE_BRACKET
  {
    ShownBegins(t.items[0], ItemsFrom(t, 1) + rest);
  }

  lemma {:induction false} FieldTextBegins(t: Tree, rest: Text)
    requires t.JObject? && t.fields != []
    ensures var inner := FieldText(t, 0, rest); inner != [] && inner[0] == QUOTE
  {
    FirstOf(ShowString(t.fields[0].key), [COLON] + (Show(t.fields[0].value) + (FieldsFrom(t, 1) + rest)));
  }

  lemma {:induction false} ArrayIsRead(t: Tree, rest: Text)
    requires t.JArray?
    ensures ReadValue(Show(t) + rest) == Good(t, rest)
    decreases t, 2
  {
    ArrayText(t, rest);
    if t.items == [] {
      EmptyArray(rest);
    } else {
      ItemsAreRead(t, 0, rest);
      ItemTextBegins(t, rest);
      assert t.items[0..] == t.items;
      ArrayValue(ItemText(t, 0, rest), t.items, rest);
    }
  }

  lemma {:induction false} ObjectIsRead(t: Tree, rest: Text)
    requires t.JObject?
    ensures ReadValue(Show(t) + rest) == Good(t, rest)
    decreases t, 2
  {
    ObjectText(t, rest);
    if t.fields == [] {
      EmptyObject(rest);
    } else {
      FieldsAreRead(t, 0, rest);
      FieldTextBegins(t, rest);
      assert t.fields[0..] == t.fields;
      ObjectValue(FieldText(t, 0, rest), t.fields, rest);
    }
  }

  lemma {:induction false} ValueIsRead(t: Tree, rest: Text)
    requires Delimits(rest)
    ensures ReadValue(Show(t) + rest) == Good(t, rest)
    decreases t, 3
  {
    match t
    case JNull => NullIsRead(rest);
    case JBool(b) =>
      if b {
        TrueIsRead(rest);
      } else {
        FalseIsRead(rest);
      }
    case JNumber(x) =>
      ShownBegins(t, rest);
      NumberIsRead(x, rest);
      NumberValue(Show(t) + rest, x, rest);
    case JString(s) =>
      ShownBegins(t, rest);
      StringIsRead(s, 0, rest);
      assert s[0..] == s;
      FirstOf(ShowString(s), rest);
      StringValue(Show(t) + rest, s, rest);
    case JArray(_) => ArrayIsRead(t, rest);
    case JObject(_) => ObjectIsRead(t, rest);
  }

  /** What is printed is read back as what it was printed from. */
  lemma {:induction false} ShowIsRead(t: Tree)
    ensures Parse(Show(t)) == Some(t)
  {
    ValueIsRead(t, []);
    assert Show(t) + [] == Show(t);
  }
}
