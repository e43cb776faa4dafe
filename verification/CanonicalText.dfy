/** Printing canonical values: JSON text with nothing left to choice, read back uniquely. */
module CanonicalText {
  import opened CodeUnits
  import opened NumberText

  const QUOTE: Unit := 34
  const COMMA: Unit := 44
  const COLON: Unit := 58
  const OPEN_BRACKET: Unit := 91
  const BACKSLASH: Unit := 92
  const CLOSE_BRACKET: Unit := 93
  const OPEN_BRACE: Unit := 123
  const CLOSE_BRACE: Unit := 125

  /** A context value with its keys in order and its references resolved. */
  datatype Tree =
    | JNull
    | JBool(b: bool)
    | JNumber(x: Numeral)
    | JString(s: Text)
    | JArray(items: seq<Tree>)
    | JObject(fields: seq<Field>)

  datatype Field = Field(key: Text, value: Tree)

  // ---- prefixes ----------------------------------------------------------------------------

  lemma SameFirst(a: Text, r1: Text, b: Text, r2: Text)
    requires a + r1 == b + r2 && a != [] && b != []
    ensures a[0] == b[0] && a[1..] + r1 == b[1..] + r2
  {
    assert (a + r1)[0] == a[0] && (b + r2)[0] == b[0];
    assert (a + r1)[1..] == a[1..] + r1 && (b + r2)[1..] == b[1..] + r2;
  }

  lemma SamePrefix(a: Text, r1: Text, r2: Text)
    requires a + r1 == a + r2
    ensures r1 == r2
  {
    assert r1 == (a + r1)[|a|..] && r2 == (a + r2)[|a|..];
  }

  // ---- strings ------------------------------------------------------------------------------

  predicate IsHigh(u: Unit) {
    0xD800 <= u <= 0xDBFF
  }

  predicate IsLow(u: Unit) {
    0xDC00 <= u <= 0xDFFF
  }

  /** A surrogate that is not half of a pair. */
  predicate IsLone(s: Text, i: nat)
    requires i < |s|
  {
    || (IsHigh(s[i]) && !(i + 1 < |s| && IsLow(s[i + 1])))
    || (IsLow(s[i]) && !(i > 0 && IsHigh(s[i - 1])))
  }

  function Hex(u: Unit): (t: Text)
    ensures |t| == 4
  {
    [Digit(u / 4096), Digit(u / 256 % 16), Digit(u / 16 % 16), Digit(u % 16)]
  }

  lemma HexIsInjective(u: Unit, v: Unit)
    requires Hex(u) == Hex(v)
    ensures u == v
  {
    var a, b := Hex(u), Hex(v);
    assert a[0] == b[0] && a[1] == b[1] && a[2] == b[2] && a[3] == b[3];
    DigitIsInjective(u / 4096, v / 4096);
    DigitIsInjective(u / 256 % 16, v / 256 % 16);
    DigitIsInjective(u / 16 % 16, v / 16 % 16);
    DigitIsInjective(u % 16, v % 16);
    SplitHex(u);
    SplitHex(v);
  }

  lemma SplitHex(u: Unit)
    ensures u == 4096 * (u / 4096) + 256 * (u / 256 % 16) + 16 * (u / 16 % 16) + u % 16
  {
    assert u / 256 == 16 * (u / 4096) + u / 256 % 16;
    assert u / 16 == 16 * (u / 256) + u / 16 % 16;
    assert u == 16 * (u / 16) + u % 16;
  }

  /** The second unit of a two-unit escape. */
  function ShortEscape(u: Unit): Unit {
    match u
    case 8 => 98
    case 9 => 116
    case 10 => 110
    case 12 => 102
    case 13 => 114
    case _ => u
  }

  predicate HasShortEscape(u: Unit) {
    u in {8, 9, 10, 12, 13, 34, 92}
  }

  /** One code unit of a quoted string (section 7 of RFC 8259; lone surrogates escaped). */
  function Escape(u: Unit, lone: bool): (t: Text)
    ensures t != []
  {
    if HasShortEscape(u) then [BACKSLASH, ShortEscape(u)]
    else if u < 32 || lone then [BACKSLASH, 117] + Hex(u)
    else [u]
  }

  lemma EscapePrefix(u: Unit, lu: bool, v: Unit, lv: bool, x: Text, y: Text)
    requires Escape(u, lu) + x == Escape(v, lv) + y
    ensures u == v && x == y
  {
    var a, b := Escape(u, lu), Escape(v, lv);
    var all := a + x;
    assert all[0] == a[0] && (b + y)[0] == b[0];
    if |a| > 1 {
      assert all[1] == a[1] && (b + y)[1] == b[1];
      if |a| > 2 {
        assert all[2..6] == Hex(u) && (b + y)[2..6] == Hex(v);
        HexIsInjective(u, v);
      }
    }
    assert |a| == |b|;
    assert x == all[|a|..] && y == (b + y)[|b|..];
  }

  /** The rest of a quoted string from unit `i` on, with the closing quote. */
  function StringFrom(s: Text, i: nat): (t: Text)
    requires i <= |s|
    ensures t != []
    decreases |s| - i
  {
    if i == |s| then [QUOTE] else Escape(s[i], IsLone(s, i)) + StringFrom(s, i + 1)
  }

  function ShowString(s: Text): Text {
    [QUOTE] + StringFrom(s, 0)
  }

  lemma StringBegin(s: Text, i: nat)
    requires i <= |s|
    ensures StringFrom(s, i)[0] == QUOTE <==> i == |s|
  {
    if i < |s| {
      var e := Escape(s[i], IsLone(s, i));
      assert StringFrom(s, i)[0] == e[0] && e[0] != QUOTE;
    }
  }

  lemma StringUnfold(s: Text, i: nat, rest: Text)
    requires i < |s|
    ensures StringFrom(s, i) + rest == Escape(s[i], IsLone(s, i)) + (StringFrom(s, i + 1) + rest)
  {
  }

  /** The units agree, and then the texts after them. */
  lemma UnitPrefix(s: Text, t: Text, i: nat, r1: Text, r2: Text)
    requires i < |s| && i < |t| && StringFrom(s, i) + r1 == StringFrom(t, i) + r2
    ensures s[i] == t[i] && StringFrom(s, i + 1) + r1 == StringFrom(t, i + 1) + r2
  {
    StringUnfold(s, i, r1);
    StringUnfold(t, i, r2);
    EscapePrefix(s[i], IsLone(s, i), t[i], IsLone(t, i), StringFrom(s, i + 1) + r1, StringFrom(t, i + 1) + r2);
  }

  lemma {:induction false} StringPrefix(s: Text, t: Text, i: nat, r1: Text, r2: Text)
    requires i <= |s| && i <= |t| && s[..i] == t[..i] && StringFrom(s, i) + r1 == StringFrom(t, i) + r2
    ensures s == t && r1 == r2
    decreases |s| - i
  {
    StringBegin(s, i);
    StringBegin(t, i);
    SameFirst(StringFrom(s, i), r1, StringFrom(t, i), r2);
    if i < |s| {
      UnitPrefix(s, t, i, r1, r2);
      assert s[..i + 1] == s[..i] + [s[i]] && t[..i + 1] == t[..i] + [t[i]];
      StringPrefix(s, t, i + 1, r1, r2);
    } else {
      assert s == s[..i] && t == t[..i];
      SamePrefix([QUOTE], r1, r2);
    }
  }

  lemma ShowStringPrefix(s: Text, t: Text, r1: Text, r2: Text)
    requires ShowString(s) + r1 == ShowString(t) + r2
    ensures s == t && r1 == r2
  {
    SameFirst(ShowString(s), r1, ShowString(t), r2);
    assert ShowString(s)[1..] == StringFrom(s, 0) && ShowString(t)[1..] == StringFrom(t, 0);
    StringPrefix(s, t, 0, r1, r2);
  }

  // ---- values -------------------------------------------------------------------------------

  const NULL_TEXT: Text := [110, 117, 108, 108]
  const TRUE_TEXT: Text := [116, 114, 117, 101]
  const FALSE_TEXT: Text := [102, 97, 108, 115, 101]

  function Show(t: Tree): Text
    decreases t, 2, 0
  {
    match t
    case JNull => NULL_TEXT
    case JBool(b) => if b then TRUE_TEXT else FALSE_TEXT
    case JNumber(x) => ShowNumeral(x)
    case JString(s) => ShowString(s)
    case JArray(items) => [OPEN_BRACKET] + ItemsFrom(t, 0)
    case JObject(fields) => [OPEN_BRACE] + FieldsFrom(t, 0)
  }

  function Separator(i: nat): Text {
    if i == 0 then [] else [COMMA]
  }

  /** The items from `i` on, separated by commas, and the closing bracket. */
  function ItemsFrom(t: Tree, i: nat): Text
    requires t.JArray? && i <= |t.items|
    decreases t, 1, |t.items| - i
  {
    if i == |t.items| then [CLOSE_BRACKET] else Separator(i) + Show(t.items[i]) + ItemsFrom(t, i + 1)
  }

  function FieldsFrom(t: Tree, i: nat): Text
    requires t.JObject? && i <= |t.fields|
    decreases t, 1, |t.fields| - i
  {
    if i == |t.fields| then [CLOSE_BRACE]
    else Separator(i) + ShowString(t.fields[i].key) + [COLON] + Show(t.fields[i].value) + FieldsFrom(t, i + 1)
  }

  /** What kind of value a text begins. */
  function Kind(t: Tree): nat {
    match t
    case JNull => 0
    case JBool(b) => if b then 1 else 2
    case JNumber(x) => if x.Nonzero? && x.negative then 3 else 4
    case JString(_) => 5
    case JArray(_) => 6
    case JObject(_) => 7
  }

  function KindOf(u: Unit): nat {
    if u == 110 then 0 else if u == 116 then 1 else if u == 102 then 2 else if u == MINUS then 3
    else if IsDigit(u) then 4 else if u == QUOTE then 5 else if u == OPEN_BRACKET then 6
    else if u == OPEN_BRACE then 7 else 8
  }

  lemma FirstUnit(t: Tree)
    ensures Show(t) != [] && KindOf(Show(t)[0]) == Kind(t)
  {
    match t
    case JNumber(x) => NumeralBegins(x);
    case _ =>
  }

  lemma ItemsStop(t: Tree, i: nat, rest: Text)
    requires t.JArray? && 0 < i <= |t.items|
    ensures Stops(ItemsFrom(t, i) + rest)
  {
  }

  lemma FieldsStop(t: Tree, i: nat, rest: Text)
    requires t.JObject? && 0 < i <= |t.fields|
    ensures Stops(FieldsFrom(t, i) + rest)
  {
  }

  /** A printed value determines the value and where it ends. */
  lemma {:induction false} ShowPrefix(t: Tree, u: Tree, r1: Text, r2: Text)
    requires Show(t) + r1 == Show(u) + r2 && Stops(r1) && Stops(r2)
    ensures t == u && r1 == r2
    decreases t, 2, 0
  {
    FirstUnit(t);
    FirstUnit(u);
    SameFirst(Show(t), r1, Show(u), r2);
    assert Kind(t) == Kind(u);
    match t
    case JNull => SamePrefix(NULL_TEXT, r1, r2);
    case JBool(b) => SamePrefix(Show(t), r1, r2);
    case JNumber(x) => NumberPrefix(x, u.x, r1, r2);
    case JString(s) => ShowStringPrefix(s, u.s, r1, r2);
    case JArray(_) =>
      assert Show(t)[1..] == ItemsFrom(t, 0) && Show(u)[1..] == ItemsFrom(u, 0);
      ItemsPrefix(t, u, 0, r1, r2);
    case JObject(_) =>
      assert Show(t)[1..] == FieldsFrom(t, 0) && Show(u)[1..] == FieldsFrom(u, 0);
      FieldsPrefix(t, u, 0, r1, r2);
  }

  lemma ItemsUnfold(t: Tree, i: nat, rest: Text)
    requires t.JArray? && i < |t.items|
    ensures ItemsFrom(t, i) + rest == Separator(i) + (Show(t.items[i]) + (ItemsFrom(t, i + 1) + rest))
  {
  }

  lemma ItemsBegin(t: Tree, i: nat)
    requires t.JArray? && i <= |t.items|
    ensures ItemsFrom(t, i) != [] && (ItemsFrom(t, i)[0] == CLOSE_BRACKET <==> i == |t.items|)
  {
    if i < |t.items| {
      FirstUnit(t.items[i]);
    }
  }

  lemma {:induction false} ItemsPrefix(t: Tree, u: Tree, i: nat, r1: Text, r2: Text)
    requires t.JArray? && u.JArray? && i <= |t.items| && i <= |u.items|
    requires t.items[..i] == u.items[..i] && ItemsFrom(t, i) + r1 == ItemsFrom(u, i) + r2
    ensures t == u && r1 == r2
    decreases t, 1, |t.items| - i
  {
    ItemsBegin(t, i);
    ItemsBegin(u, i);
    SameFirst(ItemsFrom(t, i), r1, ItemsFrom(u, i), r2);
    if i < |t.items| {
      ItemsUnfold(t, i, r1);
      ItemsUnfold(u, i, r2);
      var x, y := ItemsFrom(t, i + 1) + r1, ItemsFrom(u, i + 1) + r2;
      SamePrefix(Separator(i), Show(t.items[i]) + x, Show(u.items[i]) + y);
      ItemsStop(t, i + 1, r1);
      ItemsStop(u, i + 1, r2);
      ShowPrefix(t.items[i], u.items[i], x, y);
      assert t.items[..i + 1] == t.items[..i] + [t.items[i]] && u.items[..i + 1] == u.items[..i] + [u.items[i]];
      ItemsPrefix(t, u, i + 1, r1, r2);
    } else {
      assert t.items == t.items[..i] && u.items == u.items[..i];
      assert ItemsFrom(t, i) == [CLOSE_BRACKET] && ItemsFrom(u, i) == [CLOSE_BRACKET];
      SamePrefix([CLOSE_BRACKET], r1, r2);
    }
  }

  lemma FieldsUnfold(t: Tree, i: nat, rest: Text)
    requires t.JObject? && i < |t.fields|
    ensures FieldsFrom(t, i) + rest ==
            Separator(i) + (ShowString(t.fields[i].key) +
                            ([COLON] + (Show(t.fields[i].value) + (FieldsFrom(t, i + 1) + rest))))
  {
  }

  lemma FieldsBegin(t: Tree, i: nat)
    requires t.JObject? && i <= |t.fields|
    ensures FieldsFrom(t, i) != [] && (FieldsFrom(t, i)[0] == CLOSE_BRACE <==> i == |t.fields|)
  {
  }

  /** The keys agree, and then the texts after the colons. */
  lemma FieldKeyPrefix(t: Tree, u: Tree, i: nat, r1: Text, r2: Text)
    requires t.JObject? && u.JObject? && i < |t.fields| && i < |u.fields|
    requires FieldsFrom(t, i) + r1 == FieldsFrom(u, i) + r2
    ensures t.fields[i].key == u.fields[i].key
    ensures Show(t.fields[i].value) + (FieldsFrom(t, i + 1) + r1) ==
            Show(u.fields[i].value) + (FieldsFrom(u, i + 1) + r2)
  {
    FieldsUnfold(t, i, r1);
    FieldsUnfold(u, i, r2);
    var vx := Show(t.fields[i].value) + (FieldsFrom(t, i + 1) + r1);
    var vy := Show(u.fields[i].value) + (FieldsFrom(u, i + 1) + r2);
    SamePrefix(Separator(i), ShowString(t.fields[i].key) + ([COLON] + vx),
               ShowString(u.fields[i].key) + ([COLON] + vy));
    ShowStringPrefix(t.fields[i].key, u.fields[i].key, [COLON] + vx, [COLON] + vy);
    SamePrefix([COLON], vx, vy);
  }

  lemma {:induction false} FieldsPrefix(t: Tree, u: Tree, i: nat, r1: Text, r2: Text)
    requires t.JObject? && u.JObject? && i <= |t.fields| && i <= |u.fields|
    requires t.fields[..i] == u.fields[..i] && FieldsFrom(t, i) + r1 == FieldsFrom(u, i) + r2
    ensures t == u && r1 == r2
    decreases t, 1, |t.fields| - i
  {
    FieldsBegin(t, i);
    FieldsBegin(u, i);
    SameFirst(FieldsFrom(t, i), r1, FieldsFrom(u, i), r2);
    if i < |t.fields| {
      FieldKeyPrefix(t, u, i, r1, r2);
      FieldsStop(t, i + 1, r1);
      FieldsStop(u, i + 1, r2);
      ShowPrefix(t.fields[i].value, u.fields[i].value, FieldsFrom(t, i + 1) + r1, FieldsFrom(u, i + 1) + r2);
      assert t.fields[..i + 1] == t.fields[..i] + [t.fields[i]] && u.fields[..i + 1] == u.fields[..i] + [u.fields[i]];
      FieldsPrefix(t, u, i + 1, r1, r2);
    } else {
      assert t.fields == t.fields[..i] && u.fields == u.fields[..i];
      assert FieldsFrom(t, i) == [CLOSE_BRACE] && FieldsFrom(u, i) == [CLOSE_BRACE];
      SamePrefix([CLOSE_BRACE], r1, r2);
    }
  }

  /** Printing is injective. */
  lemma ShowIsInjective(t: Tree, u: Tree)
    requires Show(t) == Show(u)
    ensures t == u
  {
    assert Show(t) + [] == Show(t) && Show(u) + [] == Show(u);
    ShowPrefix(t, u, [], []);
  }
}
