/** The form of the printed texts, where the grammar of JSON leaves a choice: `JSON.stringify`
    prints well-formed UTF-16 without white space, and escapes no more than it has to. */
module WellFormedText {
  import opened CodeUnits
  import opened NumberText
  import opened CanonicalText

  // ---- surrogates -----------------------------------------------------------------------------

  predicate Leads(t: Text, i: nat)
    requires i < |t|
  {
    0xD800 <= t[i] < 0xDC00
  }

  predicate Trails(t: Text, i: nat)
    requires i < |t|
  {
    0xDC00 <= t[i] < 0xE000
  }

  predicate PairedAt(t: Text, i: nat)
    requires i < |t|
  {
    && (Leads(t, i) ==> i + 1 < |t| && Trails(t, i + 1))
    && (Trails(t, i) ==> i > 0 && Leads(t, i - 1))
  }

  /** Surrogates come in pairs only. */
  ghost predicate IsPaired(t: Text) {
    forall i :: 0 <= i < |t| ==> PairedAt(t, i)
  }

  lemma LeftStays(a: Text, b: Text, i: nat)
    requires i < |a| && PairedAt(a, i)
    ensures PairedAt(a + b, i)
  {
  }

  lemma RightStays(a: Text, b: Text, i: nat)
    requires i < |b| && PairedAt(b, i)
    ensures PairedAt(a + b, |a| + i)
  {
    var t, k := a + b, |a| + i;
    assert t[k] == b[i] && (i + 1 < |b| ==> t[k + 1] == b[i + 1]) && (i > 0 ==> t[k - 1] == b[i - 1]);
  }

  lemma JoinIsPaired(a: Text, b: Text)
    requires IsPaired(a) && IsPaired(b)
    ensures IsPaired(a + b)
  {
    forall i | 0 <= i < |a + b| ensures PairedAt(a + b, i) {
      if i < |a| {
        LeftStays(a, b, i);
      } else {
        RightStays(a, b, i - |a|);
      }
    }
  }

  lemma NoSurrogates(t: Text)
    requires forall i :: 0 <= i < |t| ==> t[i] < 128
    ensures IsPaired(t)
  {
    forall i | 0 <= i < |t| ensures !Leads(t, i) && !Trails(t, i) {
      assert t[i] < 128;
    }
  }

  lemma HexIsPaired(u: Unit)
    ensures IsPaired([BACKSLASH, 117] + Hex(u))
  {
    NoSurrogates([BACKSLASH, 117] + Hex(u));
  }

  /** A unit that is not half of a pair. */
  lemma UnitIsPaired(s: Text, i: nat)
    requires i < |s| && (Leads(s, i) || Trails(s, i) ==> IsLone(s, i))
    ensures IsPaired(Escape(s[i], IsLone(s, i)))
  {
    var e := Escape(s[i], IsLone(s, i));
    if |e| == 2 {
      NoSurrogates(e);
    } else if |e| == 6 {
      HexIsPaired(s[i]);
    } else {
      assert e == [s[i]];
      assert Leads(e, 0) == Leads(s, i) && Trails(e, 0) == Trails(s, i);
    }
  }

  lemma PairIsPaired(s: Text, i: nat)
    requires i + 1 < |s| && Leads(s, i) && Trails(s, i + 1)
    ensures Escape(s[i], IsLone(s, i)) == [s[i]] && Escape(s[i + 1], IsLone(s, i + 1)) == [s[i + 1]]
    ensures IsPaired([s[i], s[i + 1]])
  {
    var p := [s[i], s[i + 1]];
    assert Leads(p, 0) && Trails(p, 1) && !Trails(p, 0) && !Leads(p, 1);
  }

  lemma PairJoins(s: Text, i: nat)
    requires i + 1 < |s| && Leads(s, i) && Trails(s, i + 1) && IsPaired(StringFrom(s, i + 2))
    ensures IsPaired(StringFrom(s, i))
  {
    PairIsPaired(s, i);
    JoinIsPaired([s[i], s[i + 1]], StringFrom(s, i + 2));
    assert StringFrom(s, i) == [s[i]] + ([s[i + 1]] + StringFrom(s, i + 2));
    assert StringFrom(s, i) == [s[i], s[i + 1]] + StringFrom(s, i + 2);
  }

  lemma UnitJoins(s: Text, i: nat)
    requires i < |s| && (Leads(s, i) || Trails(s, i) ==> IsLone(s, i)) && IsPaired(StringFrom(s, i + 1))
    ensures IsPaired(StringFrom(s, i))
  {
    UnitIsPaired(s, i);
    JoinIsPaired(Escape(s[i], IsLone(s, i)), StringFrom(s, i + 1));
  }

  lemma {:induction false} StringIsPaired(s: Text, i: nat)
    requires i <= |s| && (0 < i < |s| && Trails(s, i) ==> !Leads(s, i - 1))
    ensures IsPaired(StringFrom(s, i))
    decreases |s| - i
  {
    if i == |s| {
      NoSurrogates([QUOTE]);
    } else if i + 1 < |s| && Leads(s, i) && Trails(s, i + 1) {
      StringIsPaired(s, i + 2);
      PairJoins(s, i);
    } else {
      StringIsPaired(s, i + 1);
      UnitJoins(s, i);
    }
  }

  lemma ShownStringIsPaired(s: Text)
    ensures IsPaired(ShowString(s))
  {
    NoSurrogates([QUOTE]);
    StringIsPaired(s, 0);
    JoinIsPaired([QUOTE], StringFrom(s, 0));
  }

  ghost predicate IsAscii(t: Text) {
    forall i :: 0 <= i < |t| ==> 32 < t[i] < 128
  }

  lemma JoinIsAscii(a: Text, b: Text)
    requires IsAscii(a) && IsAscii(b)
    ensures IsAscii(a + b)
  {
  }

  lemma PositiveIsAscii(s: Significand, n: int)
    ensures IsAscii(ShowPositive(s, n))
  {
    var digits := Digits(s);
    match FormOf(|digits|, n)
    case Integer => JoinIsAscii(digits, Zeros(n - |digits|));
    case Split =>
      JoinIsAscii([DOT], digits[n..]);
      JoinIsAscii(digits[..n], [DOT] + digits[n..]);
    case Fraction =>
      JoinIsAscii(Zeros(-n), digits);
      JoinIsAscii([ZERO, DOT], Zeros(-n) + digits);
    case Scientific =>
      assert IsAscii(Mantissa(digits)) && IsAscii([EXPONENT] + Power(n));
      JoinIsAscii(Mantissa(digits), [EXPONENT] + Power(n));
  }

  lemma NumberIsAscii(x: Numeral)
    ensures IsAscii(ShowNumeral(x))
  {
    if x.Nonzero? {
      PositiveIsAscii(x.s, x.n);
      JoinIsAscii([MINUS], ShowPositive(x.s, x.n));
    }
  }

  /** Every printed text is well formed, whatever the strings in it. */
  lemma {:induction false} TextIsPaired(t: Tree)
    ensures IsPaired(Show(t))
    decreases t, 2, 0
  {
    match t
    case JNull => NoSurrogates(Show(t));
    case JBool(_) => NoSurrogates(Show(t));
    case JNumber(x) =>
      NumberIsAscii(x);
      NoSurrogates(Show(t));
    case JString(s) => ShownStringIsPaired(s);
    case JArray(_) =>
      NoSurrogates([OPEN_BRACKET]);
      ItemsArePaired(t, 0);
      JoinIsPaired([OPEN_BRACKET], ItemsFrom(t, 0));
    case JObject(_) =>
      NoSurrogates([OPEN_BRACE]);
      FieldsArePaired(t, 0);
      JoinIsPaired([OPEN_BRACE], FieldsFrom(t, 0));
  }

  lemma {:induction false} ItemsArePaired(t: Tree, i: nat)
    requires t.JArray? && i <= |t.items|
    ensures IsPaired(ItemsFrom(t, i))
    decreases t, 1, |t.items| - i
  {
    if i == |t.items| {
      NoSurrogates([CLOSE_BRACKET]);
    } else {
      NoSurrogates(Separator(i));
      TextIsPaired(t.items[i]);
      ItemsArePaired(t, i + 1);
      JoinIsPaired(Separator(i), Show(t.items[i]));
      JoinIsPaired(Separator(i) + Show(t.items[i]), ItemsFrom(t, i + 1));
    }
  }

  lemma {:induction false} FieldsArePaired(t: Tree, i: nat)
    requires t.JObject? && i <= |t.fields|
    ensures IsPaired(FieldsFrom(t, i))
    decreases t, 1, |t.fields| - i
  {
    if i == |t.fields| {
      NoSurrogates([CLOSE_BRACE]);
    } else {
      var key := Separator(i) + ShowString(t.fields[i].key);
      NoSurrogates(Separator(i));
      NoSurrogates([COLON]);
      ShownStringIsPaired(t.fields[i].key);
      TextIsPaired(t.fields[i].value);
      FieldsArePaired(t, i + 1);
      JoinIsPaired(Separator(i), ShowString(t.fields[i].key));
      JoinIsPaired(key, [COLON]);
      JoinIsPaired(key + [COLON], Show(t.fields[i].value));
      JoinIsPaired(key + [COLON] + Show(t.fields[i].value), FieldsFrom(t, i + 1));
    }
  }

  // ---- escapes --------------------------------------------------------------------------------

  /** Seven units have an escape of two units; the other control characters and what is half of
      a pair without the other take six; nothing else is escaped. */
  lemma EscapeLengths(u: Unit, lone: bool)
    ensures |Escape(u, lone)| ==
            if u in {0x08, 0x09, 0x0A, 0x0C, 0x0D, 0x22, 0x5C} then 2 else if u < 0x20 || lone then 6 else 1
  {
  }

  /** A well-formed string without control characters, quotes and backslashes. */
  ghost predicate IsPlain(s: Text) {
    IsPaired(s) && forall i :: 0 <= i < |s| ==> s[i] >= 0x20 && s[i] != 0x22 && s[i] != 0x5C
  }

  lemma PlainIsNotLone(s: Text, i: nat)
    requires i < |s| && IsPlain(s)
    ensures Escape(s[i], IsLone(s, i)) == [s[i]]
  {
    assert PairedAt(s, i);
  }

  lemma {:induction false} PlainFrom(s: Text, i: nat)
    requires i <= |s| && IsPlain(s)
    ensures StringFrom(s, i) == s[i..] + [0x22]
    decreases |s| - i
  {
    if i < |s| {
      PlainFrom(s, i + 1);
      PlainIsNotLone(s, i);
      assert s[i..] == [s[i]] + s[i + 1..];
    }
  }

  /** Such a string is printed as it is. */
  lemma PlainStringsAreVerbatim(s: Text)
    requires IsPlain(s)
    ensures ShowString(s) == [0x22] + s + [0x22]
  {
    PlainFrom(s, 0);
    assert s[0..] == s;
  }

  // ---- white space --------------------------------------------------------------------------------

  ghost predicate NoSpace(t: Text) {
    forall i :: 0 <= i < |t| ==> t[i] > 0x20
  }

  /** No string in the value has a space. */
  predicate Spaceless(t: Tree) {
    match t
    case JString(s) => 0x20 !in s
    case JArray(items) => forall i :: 0 <= i < |items| ==> Spaceless(items[i])
    case JObject(fields) => forall i :: 0 <= i < |fields| ==> 0x20 !in fields[i].key && Spaceless(fields[i].value)
    case _ => true
  }

  lemma JoinHasNoSpace(a: Text, b: Text)
    requires NoSpace(a) && NoSpace(b)
    ensures NoSpace(a + b)
  {
  }

  lemma KeyHasNoSpace(key: Text, i: nat)
    requires 0x20 !in key
    ensures NoSpace(Separator(i) + ShowString(key) + [COLON])
  {
    StringHasNoSpace(key, 0);
    JoinHasNoSpace([QUOTE], StringFrom(key, 0));
    JoinHasNoSpace(Separator(i), ShowString(key));
    JoinHasNoSpace(Separator(i) + ShowString(key), [COLON]);
  }

  lemma UnitHasNoSpace(u: Unit, lone: bool)
    requires u != 0x20
    ensures NoSpace(Escape(u, lone))
  {
  }

  lemma {:induction false} StringHasNoSpace(s: Text, i: nat)
    requires i <= |s| && 0x20 !in s
    ensures NoSpace(StringFrom(s, i))
    decreases |s| - i
  {
    if i < |s| {
      StringHasNoSpace(s, i + 1);
      UnitHasNoSpace(s[i], IsLone(s, i));
    }
  }

  /** The only white space in a text is that of its strings, and that is spaces. */
  lemma {:induction false} TextIsCompact(t: Tree)
    requires Spaceless(t)
    ensures NoSpace(Show(t))
    decreases t, 2, 0
  {
    match t
    case JNull =>
    case JBool(_) =>
    case JNumber(x) => NumberIsAscii(x);
    case JString(s) => StringHasNoSpace(s, 0);
    case JArray(_) => ItemsAreCompact(t, 0);
    case JObject(_) => FieldsAreCompact(t, 0);
  }

  lemma {:induction false} ItemsAreCompact(t: Tree, i: nat)
    requires t.JArray? && i <= |t.items| && Spaceless(t)
    ensures NoSpace(ItemsFrom(t, i))
    decreases t, 1, |t.items| - i
  {
    if i < |t.items| {
      TextIsCompact(t.items[i]);
      ItemsAreCompact(t, i + 1);
    }
  }

  lemma {:induction false} FieldsAreCompact(t: Tree, i: nat)
    requires t.JObject? && i <= |t.fields| && Spaceless(t)
    ensures NoSpace(FieldsFrom(t, i))
    decreases t, 1, |t.fields| - i
  {
    if i < |t.fields| {
      var key := Separator(i) + ShowString(t.fields[i].key) + [COLON];
      KeyHasNoSpace(t.fields[i].key, i);
      TextIsCompact(t.fields[i].value);
      FieldsAreCompact(t, i + 1);
      JoinHasNoSpace(key, Show(t.fields[i].value));
      JoinHasNoSpace(key + Show(t.fields[i].value), FieldsFrom(t, i + 1));
    }
  }
}
