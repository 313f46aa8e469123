/**
 * JSON text: a recogniser for the grammar of RFC 8259 over UTF-16 code units.
 * Each function reads one production from the front of a text and gives what
 * follows it, or nothing when the text does not start that way.
 */
module JsonText {
  import opened Basics

  type Unit = u: nat | u < 0x1_0000 witness 0

  type Text = seq<Unit>

  const QUOTE: Unit := 34
  const BACKSLASH: Unit := 92
  const COMMA: Unit := 44
  const COLON: Unit := 58
  const OPEN_BRACKET: Unit := 91
  const CLOSE_BRACKET: Unit := 93
  const OPEN_BRACE: Unit := 123
  const CLOSE_BRACE: Unit := 125
  const NULL_TEXT: Text := [110, 117, 108, 108]
  const TRUE_TEXT: Text := [116, 114, 117, 101]
  const FALSE_TEXT: Text := [102, 97, 108, 115, 101]

  /** What follows a production that was read. */
  type Rest = Option<Text>

  // -- numbers, section 6 -------------------------------------------------------------------

  predicate Digit(u: Unit) { 48 <= u <= 57 }

  function SkipDigits(t: Text): (r: Text)
    ensures |r| <= |t|
  {
    if t != [] && Digit(t[0]) then SkipDigits(t[1..]) else t
  }

  /** int: zero, or a digit from 1 to 9 and more digits. */
  function MatchInt(t: Text): Rest {
    if t == [] || !Digit(t[0]) then None
    else if t[0] == 48 then Some(t[1..])
    else Some(SkipDigits(t[1..]))
  }

  /** One or more digits. */
  function MatchDigits(t: Text): Rest {
    if t != [] && Digit(t[0]) then Some(SkipDigits(t)) else None
  }

  /** An optional fraction: a point and digits. */
  function MatchFraction(t: Text): Rest {
    if t != [] && t[0] == 46 then MatchDigits(t[1..]) else Some(t)
  }

  /** An optional exponent: e or E, an optional sign, and digits. */
  function MatchExponent(t: Text): Rest {
    if t != [] && t[0] in {101, 69} then
      MatchDigits(if |t| > 1 && t[1] in {43, 45} then t[2..] else t[1..])
    else Some(t)
  }

  function MatchNumber(t: Text): Rest {
    match MatchInt(if t != [] && t[0] == 45 then t[1..] else t)
    case None => None
    case Some(a) =>
      match MatchFraction(a)
      case None => None
      case Some(b) => MatchExponent(b)
  }

  /** A text that is a number and nothing else. */
  type Numeral = t: Text | MatchNumber(t) == Some([]) witness [48]

  /** The characters of a number: digits, signs, point and exponent letter. */
  predicate NumeralUnit(u: Unit) { Digit(u) || u in {43, 45, 46, 69, 101} }

  // -- strings, section 7 -------------------------------------------------------------------

  predicate High(u: Unit) { 0xD800 <= u < 0xDC00 }

  predicate Low(u: Unit) { 0xDC00 <= u < 0xE000 }

  predicate HexUnit(u: Unit) { Digit(u) || 65 <= u <= 70 || 97 <= u <= 102 }

  /**
   * The characters of a string and its closing quote: escapes, and unescaped
   * characters, where one outside the basic plane is a surrogate pair.
   */
  function MatchCharacters(t: Text): Rest {
    if t == [] then None
    else if t[0] == QUOTE then Some(t[1..])
    else if t[0] == BACKSLASH then
      if |t| >= 2 && t[1] in {QUOTE, BACKSLASH, 47, 98, 102, 110, 114, 116} then MatchCharacters(t[2..])
      else if |t| >= 6 && t[1] == 117 && HexUnit(t[2]) && HexUnit(t[3]) && HexUnit(t[4]) && HexUnit(t[5]) then MatchCharacters(t[6..])
      else None
    else if t[0] < 32 || Low(t[0]) then None
    else if High(t[0]) then
      if |t| >= 2 && Low(t[1]) then MatchCharacters(t[2..]) else None
    else MatchCharacters(t[1..])
  }

  // -- values, sections 2 to 5 --------------------------------------------------------------

  function SkipSpace(t: Text): (r: Text)
    ensures |r| <= |t|
  {
    if t != [] && t[0] in {32, 9, 10, 13} then SkipSpace(t[1..]) else t
  }

  function MatchLiteral(t: Text, literal: Text): Rest {
    if literal <= t then Some(t[|literal|..]) else None
  }

  /** A value, which starts where the text does. */
  function MatchValue(t: Text): Rest
    decreases |t|, 0
  {
    if t == [] then None
    else if t[0] == NULL_TEXT[0] then MatchLiteral(t, NULL_TEXT)
    else if t[0] == TRUE_TEXT[0] then MatchLiteral(t, TRUE_TEXT)
    else if t[0] == FALSE_TEXT[0] then MatchLiteral(t, FALSE_TEXT)
    else if t[0] == QUOTE then MatchCharacters(t[1..])
    else if t[0] == OPEN_BRACKET then
      var inside := SkipSpace(t[1..]);
      if inside != [] && inside[0] == CLOSE_BRACKET then Some(inside[1..]) else MatchItems(inside)
    else if t[0] == OPEN_BRACE then
      var inside := SkipSpace(t[1..]);
      if inside != [] && inside[0] == CLOSE_BRACE then Some(inside[1..]) else MatchMembers(inside)
    else MatchNumber(t)
  }

  /** Values with commas between them, and the closing bracket. */
  function MatchItems(t: Text): Rest
    decreases |t|, 1
  {
    match MatchValue(t)
    case None => None
    case Some(after) =>
      var next := SkipSpace(after);
      if next == [] || |next| >= |t| then None
      else if next[0] == CLOSE_BRACKET then Some(next[1..])
      else if next[0] == COMMA then MatchItems(SkipSpace(next[1..]))
      else None
  }

  /** Members with commas between them, and the closing brace. */
  function MatchMembers(t: Text): Rest
    decreases |t|, 1
  {
    match MatchMember(t)
    case None => None
    case Some(after) =>
      var next := SkipSpace(after);
      if next == [] || |next| >= |t| then None
      else if next[0] == CLOSE_BRACE then Some(next[1..])
      else if next[0] == COMMA then MatchMembers(SkipSpace(next[1..]))
      else None
  }

  /** A string, a colon and a value. */
  function MatchMember(t: Text): Rest
    decreases |t|, 0
  {
    if t == [] || t[0] != QUOTE then None
    else
      match MatchCharacters(t[1..])
      case None => None
      case Some(after) =>
        var colon := SkipSpace(after);
        if colon == [] || colon[0] != COLON || |colon| >= |t| then None
        else
          var value := SkipSpace(colon[1..]);
          MatchValue(value)
  }

  /** JSON-text = ws value ws. */
  predicate IsJsonText(t: Text) {
    var value := MatchValue(SkipSpace(t));
    value.Some? && SkipSpace(value.value) == []
  }

  // -- reading on past the end ----------------------------------------------------------------

  /** The text does not go on with a character of a number. */
  predicate EndsNumber(x: Text) { x == [] || !NumeralUnit(x[0]) }

  lemma {:induction false} DigitsEnd(t: Text, x: Text)
    requires EndsNumber(x)
    ensures SkipDigits(t + x) == SkipDigits(t) + x
    decreases |t|
  {
    if t == [] {
      assert t + x == x;
    } else {
      assert (t + x)[1..] == t[1..] + x;
      DigitsEnd(t[1..], x);
    }
  }

  lemma MatchDigitsEnd(t: Text, x: Text)
    requires EndsNumber(x) && MatchDigits(t).Some?
    ensures MatchDigits(t + x) == Some(MatchDigits(t).value + x)
  {
    DigitsEnd(t, x);
  }

  lemma MatchIntEnd(t: Text, x: Text)
    requires EndsNumber(x) && MatchInt(t).Some?
    ensures MatchInt(t + x) == Some(MatchInt(t).value + x)
  {
    assert (t + x)[1..] == t[1..] + x;
    DigitsEnd(t[1..], x);
  }

  lemma MatchFractionEnd(t: Text, x: Text)
    requires EndsNumber(x) && MatchFraction(t).Some?
    ensures MatchFraction(t + x) == Some(MatchFraction(t).value + x)
  {
    if t == [] {
      assert t + x == x;
    } else if t[0] == 46 {
      assert (t + x)[1..] == t[1..] + x;
      MatchDigitsEnd(t[1..], x);
    }
  }

  lemma MatchExponentEnd(t: Text, x: Text)
    requires EndsNumber(x) && MatchExponent(t).Some?
    ensures MatchExponent(t + x) == Some(MatchExponent(t).value + x)
  {
    if t == [] {
      assert t + x == x;
    } else if t[0] in {101, 69} {
      var digits := if |t| > 1 && t[1] in {43, 45} then t[2..] else t[1..];
      assert |t| > 1;
      assert (t + x)[1..] == t[1..] + x && (t + x)[2..] == t[2..] + x;
      MatchDigitsEnd(digits, x);
    }
  }

  /** A number ends where no character of one follows. */
  lemma NumberEnds(t: Numeral, x: Text)
    requires EndsNumber(x)
    ensures t != [] && MatchNumber(t + x) == Some(x)
  {
    hide MatchInt, MatchFraction, MatchExponent;
    NoEmptyNumber(t);
    var unsigned := if t[0] == 45 then t[1..] else t;
    assert (t + x)[1..] == t[1..] + x;
    MatchIntEnd(unsigned, x);
    MatchFractionEnd(MatchInt(unsigned).value, x);
    MatchExponentEnd(MatchFraction(MatchInt(unsigned).value).value, x);
    assert [] + x == x;
  }

  lemma NoEmptyNumber(t: Text)
    requires MatchNumber(t).Some?
    ensures t != []
  {}

  /** What was read of `t` to leave `r` are characters of a number. */
  ghost predicate Reads(t: Text, r: Text) {
    |r| <= |t| && t[|t| - |r|..] == r && forall i :: 0 <= i < |t| - |r| ==> NumeralUnit(t[i])
  }

  lemma ReadsThen(t: Text, r: Text, q: Text)
    requires Reads(t, r) && Reads(r, q)
    ensures Reads(t, q)
  {
    assert forall i :: 0 <= i < |r| ==> r[i] == t[|t| - |r| + i];
  }

  lemma ReadsOne(t: Text, r: Text)
    requires t != [] && NumeralUnit(t[0]) && Reads(t[1..], r)
    ensures Reads(t, r)
  {
    assert forall i :: 1 <= i < |t| ==> t[i] == t[1..][i - 1];
  }

  lemma {:induction false} DigitsRead(t: Text)
    ensures Reads(t, SkipDigits(t))
    decreases |t|
  {
    if t != [] && Digit(t[0]) {
      DigitsRead(t[1..]);
      ReadsOne(t, SkipDigits(t));
    }
  }

  lemma IntReads(t: Text)
    requires MatchInt(t).Some?
    ensures Reads(t, MatchInt(t).value)
  {
    DigitsRead(t[1..]);
    ReadsOne(t, MatchInt(t).value);
  }

  lemma FractionReads(t: Text)
    requires MatchFraction(t).Some?
    ensures Reads(t, MatchFraction(t).value)
  {
    if t != [] && t[0] == 46 {
      DigitsRead(t[1..]);
      ReadsOne(t, MatchFraction(t).value);
    }
  }

  lemma ExponentReads(t: Text)
    requires MatchExponent(t).Some?
    ensures Reads(t, MatchExponent(t).value)
  {
    if t != [] && t[0] in {101, 69} {
      var r := MatchExponent(t).value;
      if |t| > 1 && t[1] in {43, 45} {
        DigitsRead(t[2..]);
        assert t[1..][1..] == t[2..];
        ReadsOne(t[1..], r);
      } else {
        DigitsRead(t[1..]);
      }
      ReadsOne(t, r);
    }
  }

  /** A number is made of the characters of numbers. */
  lemma NumeralUnits(t: Numeral)
    ensures |t| > 0 && forall i :: 0 <= i < |t| ==> NumeralUnit(t[i])
  {
    hide MatchInt, MatchFraction, MatchExponent, Reads;
    NoEmptyNumber(t);
    var unsigned := if t[0] == 45 then t[1..] else t;
    var a := MatchInt(unsigned).value;
    var b := MatchFraction(a).value;
    IntReads(unsigned);
    FractionReads(a);
    ExponentReads(b);
    ReadsThen(unsigned, a, b);
    ReadsThen(unsigned, b, []);
    if t[0] == 45 { ReadsOne(t, []); }
    AllRead(t);
  }

  lemma AllRead(t: Text)
    requires Reads(t, [])
    ensures forall i :: 0 <= i < |t| ==> NumeralUnit(t[i])
  {}
}
