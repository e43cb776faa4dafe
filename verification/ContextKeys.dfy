/** Which keys a context may have: they are embedded as names of constants. */
module ContextKeys {
  import opened CodeUnits

  const UNDERSCORE: Unit := 95
  const DOLLAR: Unit := 36

  predicate IsLetter(u: Unit) {
    65 <= u <= 90 || 97 <= u <= 122
  }

  predicate StartsName(u: Unit) {
    IsLetter(u) || u == UNDERSCORE || u == DOLLAR
  }

  /** The regular expression of identifiers. */
  predicate IsIdentifier(key: Text) {
    key != [] && StartsName(key[0]) && forall i :: 0 < i < |key| ==> StartsName(key[i]) || IsDigit(key[i])
  }

  predicate Begins(key: Text, word: string) {
    |word| <= |key| && forall i :: 0 <= i < |word| ==> key[i] == word[i] as int
  }

  predicate Spells(key: Text, word: string) {
    |word| == |key| && Begins(key, word)
  }

  const BRANCHING := ["break", "case", "catch", "continue", "default", "do", "else", "finally", "for", "if", "return"]
  const DECLARING := ["class", "const", "enum", "export", "extends", "function", "import", "let", "super", "var"]
  const EVALUATING := ["await", "async", "delete", "in", "instanceof", "new", "this", "typeof", "void", "yield"]
  const REMAINING :=
    ["debugger", "switch", "throw", "try", "while", "with", "true", "false", "null", "undefined"]

  predicate Listed(words: seq<string>, key: Text) {
    exists i :: 0 <= i < |words| && Spells(key, words[i])
  }

  /** The reserved words, in four lists. */
  predicate IsReserved(key: Text) {
    Listed(BRANCHING, key) || Listed(DECLARING, key) || Listed(EVALUATING, key) || Listed(REMAINING, key)
  }

  predicate HasOwnPrefix(key: Text) {
    Begins(key, "Cfp") || Begins(key, "cfp")
  }

  /** `assertValidContextKey` does not throw. */
  predicate ValidKey(key: Text) {
    IsIdentifier(key) && !IsReserved(key) && !HasOwnPrefix(key)
  }

  /** An index of an array or a string is not a name. */
  lemma IndexIsNoKey(n: nat)
    ensures !ValidKey(Digits(n))
  {
  }

  predicate Long(words: seq<string>) {
    forall i :: 0 <= i < |words| ==> |words[i]| >= 2
  }

  lemma ReservedWordsAreLong()
    ensures Long(BRANCHING) && Long(DECLARING) && Long(EVALUATING) && Long(REMAINING)
  {
  }

  lemma LetterIsKey(u: Unit)
    requires IsLetter(u)
    ensures ValidKey([u])
  {
    ReservedWordsAreLong();
  }

  // ---- in characters ---------------------------------------------------------------------------

  predicate IsNameStart(u: Unit) {
    'a' as int <= u <= 'z' as int || 'A' as int <= u <= 'Z' as int || u == '_' as int || u == '$' as int
  }

  predicate InName(u: Unit) {
    IsNameStart(u) || '0' as int <= u <= '9' as int
  }

  const RESERVED: set<string> := {
    "async", "await", "break", "case", "catch", "class", "const", "continue", "debugger", "default", "delete", "do",
    "else", "enum", "export", "extends", "false", "finally", "for", "function", "if", "import", "in", "instanceof",
    "let", "new", "null", "return", "super", "switch", "this", "throw", "true", "try", "typeof", "undefined", "var",
    "void", "while", "with", "yield" }

  predicate IsWord(key: Text, word: string) {
    |key| == |word| && forall i :: 0 <= i < |key| ==> key[i] == word[i] as int
  }

  lemma ListedIff(words: seq<string>, key: Text)
    ensures Listed(words, key) <==> exists word :: word in words && IsWord(key, word)
  {
    forall i | 0 <= i < |words| ensures Spells(key, words[i]) <==> IsWord(key, words[i]) {
    }
    if word :| word in words && IsWord(key, word) {
      var i :| 0 <= i < |words| && words[i] == word;
      assert Spells(key, words[i]);
    }
  }

  lemma ListsAreReserved(word: string)
    ensures word in BRANCHING + DECLARING + EVALUATING + REMAINING <==> word in RESERVED
  {
  }

  lemma ReservedIff(key: Text)
    ensures IsReserved(key) <==> exists word :: word in RESERVED && IsWord(key, word)
  {
    ListedIff(BRANCHING, key);
    ListedIff(DECLARING, key);
    ListedIff(EVALUATING, key);
    ListedIff(REMAINING, key);
    forall word: string ensures word in BRANCHING + DECLARING + EVALUATING + REMAINING <==> word in RESERVED {
      ListsAreReserved(word);
    }
  }

  lemma PrefixIff(key: Text)
    ensures HasOwnPrefix(key) <==>
              |key| >= 3 && key[0] in {'C' as int, 'c' as int} && key[1] == 'f' as int && key[2] == 'p' as int
  {
    var upper, lower := "Cfp", "cfp";
    assert Begins(key, upper) <==>
           |key| >= 3 && key[0] == upper[0] as int && key[1] == upper[1] as int && key[2] == upper[2] as int;
    assert Begins(key, lower) <==>
           |key| >= 3 && key[0] == lower[0] as int && key[1] == lower[1] as int && key[2] == lower[2] as int;
  }

  /** A key is valid exactly if it is an identifier of ASCII letters, digits, underscores and
      dollars, is no reserved word and does not begin with the prefix of the library. */
  lemma ValidKeyIff(key: Text)
    ensures ValidKey(key) <==>
              && key != [] && IsNameStart(key[0]) && (forall i :: 0 < i < |key| ==> InName(key[i]))
              && !(exists word :: word in RESERVED && IsWord(key, word))
              && !(|key| >= 3 && key[0] in {'C' as int, 'c' as int} && key[1] == 'f' as int && key[2] == 'p' as int)
  {
    ReservedIff(key);
    PrefixIff(key);
  }
}
