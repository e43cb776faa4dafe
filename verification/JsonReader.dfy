/** A reader of JSON texts after RFC 8259, written without a look at the printer: tokens,
    escapes, literals and numbers are those of the grammar. It reads the tree a text stands
    for, with numbers by their decimal value. */
module JsonReader {
  import opened CodeUnits
  import opened NumberText
  import opened CanonicalText
  import opened Options

  datatype Read<T> = Bad | Good(value: T, rest: Text)

  predicate Starts(t: Text, word: string) {
    |word| <= |t| && forall i :: 0 <= i < |word| ==> t[i] == word[i] as int
  }

  /** Insignificant white space (section 2). */
  predicate IsWhite(u: Unit) {
    u in {0x20, 0x09, 0x0A, 0x0D}
  }

  function Skip(t: Text): (rest: Text)
    ensures |rest| <= |t|
  {
    if t != [] && IsWhite(t[0]) then Skip(t[1..]) else t
  }

  predicate Begins(t: Text, c: char) {
    t != [] && t[0] == c as int
  }

  // ---- strings (section 7) ----------------------------------------------------------------------

  function HexValue(u: Unit): (d: Option<nat>)
    ensures d.Some? ==> d.value < 16
  {
    if '0' as int <= u <= '9' as int then Some(u - '0' as int)
    else if 'a' as int <= u <= 'f' as int then Some(10 + u - 'a' as int)
    else if 'A' as int <= u <= 'F' as int then Some(10 + u - 'A' as int)
    else None
  }

  /** Four hexadecimal digits. */
  function ReadHex(t: Text): Option<Unit> {
    if |t| < 4 then None
    else
      var a, b, c, d := HexValue(t[0]), HexValue(t[1]), HexValue(t[2]), HexValue(t[3]);
      if a.None? || b.None? || c.None? || d.None? then None
      else Some(((a.value * 16 + b.value) * 16 + c.value) * 16 + d.value)
  }

  /** What the character after a backslash stands for, `u` aside. */
  function Escaped(u: Unit): Option<Unit> {
    if u == '"' as int then Some(0x22)
    else if u == '\\' as int then Some(0x5C)
    else if u == '/' as int then Some(0x2F)
    else if u == 'b' as int then Some(0x08)
    else if u == 'f' as int then Some(0x0C)
    else if u == 'n' as int then Some(0x0A)
    else if u == 'r' as int then Some(0x0D)
    else if u == 't' as int then Some(0x09)
    else None
  }

  /** One character of a string, escaped or not; control characters must be escaped. */
  function ReadUnit(t: Text): (r: Read<Unit>)
    ensures r.Good? ==> |r.rest| < |t|
  {
    if t == [] || t[0] < 0x20 || t[0] == '"' as int then Bad
    else if t[0] != '\\' as int then Good(t[0], t[1..])
    else if |t| < 2 then Bad
    else if t[1] == 'u' as int then
      match ReadHex(t[2..])
      case None => Bad
      case Some(u) => Good(u, t[6..])
    else
      match Escaped(t[1])
      case None => Bad
      case Some(u) => Good(u, t[2..])
  }

  /** The rest of a string, up to its closing quotation mark. */
  function ReadString(t: Text): (r: Read<Text>)
    ensures r.Good? ==> |r.rest| < |t|
    decreases |t|
  {
    if Begins(t, '"') then Good([], t[1..])
    else
      match ReadUnit(t)
      case Bad => Bad
      case Good(u, rest) =>
        match ReadString(rest)
        case Bad => Bad
        case Good(s, after) => Good([u] + s, after)
  }

  // ---- numbers (section 6) ------------------------------------------------------------------------

  datatype Scanned = Scanned(digits: Text, rest: Text)

  /** The digits a text begins with, and what follows them. */
  function Scan(t: Text): (s: Scanned)
    ensures |s.digits| + |s.rest| == |t|
  {
    if t == [] || !('0' as int <= t[0] <= '9' as int) then Scanned([], t)
    else var s := Scan(t[1..]); Scanned([t[0]] + s.digits, s.rest)
  }

  /** The number that decimal digits stand for. */
  function NumberOf(digits: Text): nat {
    if digits == [] then 0
    else
      var last := digits[|digits| - 1];
      10 * NumberOf(digits[..|digits| - 1]) + if last >= '0' as int then last - '0' as int else 0
  }

  function DigitCount(n: nat): nat {
    if n < 10 then 1 else 1 + DigitCount(n / 10)
  }

  /** The number `m` times ten to the power `e`, by its digits from the first to the last that is
      not zero. */
  function Scaled(negative: bool, m: nat, e: int): Numeral {
    if m == 0 then Zero
    else if m % 10 == 0 then Scaled(negative, m / 10, e + 1)
    else Nonzero(negative, m, e + DigitCount(m))
  }

  /** The fraction part, if there is one: its digits. */
  function ReadFraction(t: Text): (r: Read<Text>)
    ensures r.Good? ==> |r.rest| <= |t|
  {
    if !Begins(t, '.') then Good([], t)
    else var s := Scan(t[1..]); if s.digits == [] then Bad else Good(s.digits, s.rest)
  }

  function ReadDigits(t: Text): (r: Read<nat>)
    ensures r.Good? ==> |r.rest| < |t|
  {
    var s := Scan(t);
    if s.digits == [] then Bad else Good(NumberOf(s.digits), s.rest)
  }

  function Negated(r: Read<nat>): Read<int> {
    if r.Bad? then Bad else Good(0 - r.value, r.rest)
  }

  function ReadPower(t: Text): (r: Read<int>)
    ensures r.Good? ==> |r.rest| < |t|
  {
    if Begins(t, '+') then ReadDigits(t[1..]) else if Begins(t, '-') then Negated(ReadDigits(t[1..])) else ReadDigits(t)
  }

  /** The exponent part, if there is one: its value. */
  function ReadExponent(t: Text): (r: Read<int>)
    ensures r.Good? ==> |r.rest| <= |t|
  {
    if Begins(t, 'e') || Begins(t, 'E') then ReadPower(t[1..]) else Good(0, t)
  }

  /** `m` times ten to the power `e`. */
  datatype Decimal = Decimal(m: nat, e: int)

  /** A number has no superfluous zeros in front. */
  function ReadUnsigned(t: Text): (r: Read<Decimal>)
    ensures r.Good? ==> |r.rest| < |t|
  {
    var whole := Scan(t);
    if whole.digits == [] || (|whole.digits| > 1 && Begins(t, '0')) then Bad
    else WithFraction(whole.digits, ReadFraction(whole.rest))
  }

  function WithFraction(whole: Text, r: Read<Text>): (d: Read<Decimal>)
    ensures d.Good? ==> r.Good? && |d.rest| <= |r.rest|
  {
    if r.Bad? then Bad else WithExponent(whole, r.value, ReadExponent(r.rest))
  }

  function WithExponent(whole: Text, fraction: Text, r: Read<int>): (d: Read<Decimal>)
    ensures d.Good? ==> r.Good? && d.rest == r.rest
  {
    if r.Bad? then Bad else Good(Decimal(NumberOf(whole + fraction), r.value - |fraction|), r.rest)
  }

  function Signed(negative: bool, r: Read<Decimal>): Read<Numeral> {
    if r.Bad? then Bad else Good(Scaled(negative, r.value.m, r.value.e), r.rest)
  }

  function ReadNumber(t: Text): (r: Read<Numeral>)
    ensures r.Good? ==> |r.rest| < |t|
  {
    if Begins(t, '-') then Signed(true, ReadUnsigned(t[1..])) else Signed(false, ReadUnsigned(t))
  }

  // ---- values (sections 3 to 5) -----------------------------------------------------------------------

  function ReadValue(text: Text): (r: Read<Tree>)
    ensures r.Good? ==> |r.rest| < |text|
    decreases |text|, 1
  {
    var t := Skip(text);
    if Starts(t, "null") then Good(JNull, t[4..])
    else if Starts(t, "true") then Good(JBool(true), t[4..])
    else if Starts(t, "false") then Good(JBool(false), t[5..])
    else if Begins(t, '"') then
      match ReadString(t[1..])
      case Bad => Bad
      case Good(s, rest) => Good(JString(s), rest)
    else if Begins(t, '[') then
      if Begins(Skip(t[1..]), ']') then Good(JArray([]), Skip(t[1..])[1..])
      else
        match ReadItems(t[1..])
        case Bad => Bad
        case Good(items, rest) => Good(JArray(items), rest)
    else if Begins(t, '{') then
      if Begins(Skip(t[1..]), '}') then Good(JObject([]), Skip(t[1..])[1..])
      else
        match ReadFields(t[1..])
        case Bad => Bad
        case Good(fields, rest) => Good(JObject(fields), rest)
    else
      match ReadNumber(t)
      case Bad => Bad
      case Good(x, rest) => Good(JNumber(x), rest)
  }

  /** One value or more, separated by commas, and the closing bracket. */
  function ReadItems(t: Text): (r: Read<seq<Tree>>)
    ensures r.Good? ==> |r.rest| < |t|
    decreases |t|, 2
  {
    match ReadValue(t)
    case Bad => Bad
    case Good(v, after) =>
      var next := Skip(after);
      if Begins(next, ']') then Good([v], next[1..])
      else if !Begins(next, ',') then Bad
      else
        match ReadItems(next[1..])
        case Bad => Bad
        case Good(vs, rest) => Good([v] + vs, rest)
  }

  /** A name, a colon and a value. */
  function ReadField(text: Text): (r: Read<Field>)
    ensures r.Good? ==> |r.rest| < |text|
    decreases |text|, 2
  {
    var t := Skip(text);
    if !Begins(t, '"') then Bad
    else
      match ReadString(t[1..])
      case Bad => Bad
      case Good(key, after) =>
        var next := Skip(after);
        if !Begins(next, ':') then Bad
        else
          match ReadValue(next[1..])
          case Bad => Bad
          case Good(v, rest) => Good(Field(key, v), rest)
  }

  function ReadFields(t: Text): (r: Read<seq<Field>>)
    ensures r.Good? ==> |r.rest| < |t|
    decreases |t|, 3
  {
    match ReadField(t)
    case Bad => Bad
    case Good(f, after) =>
      var next := Skip(after);
      if Begins(next, '}') then Good([f], next[1..])
      else if !Begins(next, ',') then Bad
      else
        match ReadFields(next[1..])
        case Bad => Bad
        case Good(fs, rest) => Good([f] + fs, rest)
  }

  /** A text that is one value. */
  function Parse(t: Text): Option<Tree> {
    match ReadValue(t)
    case Bad => None
    case Good(v, rest) => if Skip(rest) == [] then Some(v) else None
  }
}
