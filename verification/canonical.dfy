/**
 * The canonical text of a request body, and what requests it tells apart
 * (apps/api/src/plugins/idempotency.ts). Strings are sequences of UTF-16 code
 * units, quoted as JSON.stringify quotes them.
 */
module Canonical {
  import opened Basics
  import opened JsonText

  // -- values ---------------------------------------------------------------------------

  /** A value as the runtime holds it: an object is a list of members in insertion order. */
  datatype Json =
    | Undefined
    | Null
    | Bool(b: bool)
    | Number(text: Numeral)
    | String(units: Text)
    | Array(items: seq<Json>)
    | Object(members: seq<Member>)

  datatype Member = Member(key: Text, value: Json)

  /** Members of one object have distinct keys. */
  predicate UniqueKeys(ms: seq<Member>) {
    forall i, j :: 0 <= i < j < |ms| ==> ms[i].key != ms[j].key
  }

  predicate WellFormed(v: Json) {
    match v
    case Array(items) => WellFormedItems(items)
    case Object(members) => UniqueKeys(members) && WellFormedMembers(members)
    case _ => true
  }

  predicate WellFormedItems(items: seq<Json>) {
    items == [] || (WellFormed(items[0]) && WellFormedItems(items[1..]))
  }

  predicate WellFormedMembers(ms: seq<Member>) {
    ms == [] || (WellFormedMember(ms[0]) && WellFormedMembers(ms[1..]))
  }

  predicate WellFormedMember(m: Member) { WellFormed(m.value) }

  /** What a value means: undefined reads as null, and members have no order. */
  datatype Value =
    | NullValue
    | BoolValue(b: bool)
    | NumberValue(text: Numeral)
    | StringValue(units: Text)
    | ArrayValue(items: seq<Value>)
    | ObjectValue(members: map<Text, Value>)

  function Meaning(v: Json): Value {
    match v
    case Undefined => NullValue
    case Null => NullValue
    case Bool(b) => BoolValue(b)
    case Number(text) => NumberValue(text)
    case String(units) => StringValue(units)
    case Array(items) => ArrayValue(MeaningOfItems(items))
    case Object(members) => ObjectValue(MeaningOfMembers(members))
  }

  function MeaningOfItems(items: seq<Json>): seq<Value> {
    if items == [] then [] else [Meaning(items[0])] + MeaningOfItems(items[1..])
  }

  function MeaningOfMembers(ms: seq<Member>): map<Text, Value> {
    if ms == [] then map[] else MeaningOfMembers(ms[1..])[ms[0].key := MeaningOfMember(ms[0])]
  }

  function MeaningOfMember(m: Member): Value { Meaning(m.value) }

  // -- quoting --------------------------------------------------------------------------

  function HexDigit(d: nat): Unit
    requires d < 16
  {
    if d < 10 then 48 + d else 87 + d
  }

  function Hex4(u: Unit): Text {
    [HexDigit(u / 16 / 16 / 16), HexDigit(u / 16 / 16 % 16), HexDigit(u / 16 % 16), HexDigit(u % 16)]
  }

  /** How many units are quoted together: two for a surrogate pair, otherwise one. */
  function Width(s: Text): (n: nat)
    requires s != []
    ensures 1 <= n <= 2 && n <= |s|
  {
    if |s| >= 2 && High(s[0]) && Low(s[1]) then 2 else 1
  }

  /** A piece of a string that is quoted as a whole. */
  predicate Piece(p: Text) { |p| == 1 || (|p| == 2 && High(p[0]) && Low(p[1])) }

  function QuotedPiece(p: Text): (t: Text)
    requires Piece(p)
    ensures t != [] && t[0] != QUOTE
  {
    if |p| == 2 then p
    else match p[0]
      case 34 => [BACKSLASH, QUOTE]
      case 92 => [BACKSLASH, BACKSLASH]
      case 8 => [BACKSLASH, 98]
      case 12 => [BACKSLASH, 102]
      case 10 => [BACKSLASH, 110]
      case 13 => [BACKSLASH, 114]
      case 9 => [BACKSLASH, 116]
      case u => if u < 32 || High(u) || Low(u) then [BACKSLASH, 117] + Hex4(u) else [u]
  }

  function Escaped(s: Text): Text {
    if s == [] then [] else QuotedPiece(s[..Width(s)]) + Escaped(s[Width(s)..])
  }

  /** `JSON.stringify` of a string. */
  function Quoted(s: Text): Text { [QUOTE] + Escaped(s) + [QUOTE] }

  // -- the canonical text -----------------------------------------------------------------

  /** JavaScript's `<` on strings. */
  predicate Less(a: Text, b: Text) {
    b != [] && (a == [] || (if a[0] != b[0] then a[0] < b[0] else Less(a[1..], b[1..])))
  }

  /** That is the order of the first code units that differ; of a text and its beginning the shorter comes first. */
  lemma {:induction false} LessExactlyWhen(a: Text, b: Text)
    ensures Less(a, b)
            <==> exists k :: 0 <= k <= |a| && k < |b| && a[..k] == b[..k] && (k == |a| || a[k] < b[k])
    decreases |a|
  {
    if a != [] && b != [] && a[0] == b[0] {
      LessExactlyWhen(a[1..], b[1..]);
      if Less(a[1..], b[1..]) {
        var k :| 0 <= k <= |a[1..]| && k < |b[1..]| && a[1..][..k] == b[1..][..k] && (k == |a[1..]| || a[1..][k] < b[1..][k]);
        assert a[..k + 1] == [a[0]] + a[1..][..k] && b[..k + 1] == [b[0]] + b[1..][..k];
      }
      if k :| 0 <= k <= |a| && k < |b| && a[..k] == b[..k] && (k == |a| || a[k] < b[k]) {
        if k > 0 { assert a[1..][..k - 1] == a[..k][1..] && b[1..][..k - 1] == b[..k][1..]; }
      }
    } else if b != [] {
      assert a[..0] == b[..0];
      DifferAtOnce(a, b);
    }
  }

  lemma DifferAtOnce(a: Text, b: Text)
    requires b != [] && (a == [] || a[0] != b[0])
    ensures forall k :: 0 < k <= |a| && k < |b| ==> a[..k] != b[..k]
  {
    forall k | 0 < k <= |a| && k < |b| ensures a[..k] != b[..k] {
      assert a[..k][0] != b[..k][0];
    }
  }

  /** A member with its value already turned into text. */
  datatype Rendered = Rendered(key: Text, text: Text)

  function Place(r: Rendered, sorted: seq<Rendered>): seq<Rendered> {
    if sorted == [] || !Less(sorted[0].key, r.key) then [r] + sorted else [sorted[0]] + Place(r, sorted[1..])
  }

  function SortByKey(rs: seq<Rendered>): seq<Rendered> {
    if rs == [] then [] else Place(rs[0], SortByKey(rs[1..]))
  }

  function Line(r: Rendered): Text { Quoted(r.key) + [COLON] + r.text }

  function Lines(rs: seq<Rendered>): seq<Text> {
    if rs == [] then [] else [Line(rs[0])] + Lines(rs[1..])
  }

  /** `join(",")`. */
  function Join(parts: seq<Text>): Text {
    if parts == [] then [] else if |parts| == 1 then parts[0] else parts[0] + [COMMA] + Join(parts[1..])
  }

  /** `canonicalise`. */
  function Canonicalise(v: Json): Text {
    match v
    case Undefined => NULL_TEXT
    case Null => NULL_TEXT
    case Bool(b) => if b then TRUE_TEXT else FALSE_TEXT
    case Number(text) => text
    case String(units) => Quoted(units)
    case Array(items) => [OPEN_BRACKET] + Join(RenderItems(items)) + [CLOSE_BRACKET]
    case Object(members) => [OPEN_BRACE] + Join(Lines(SortByKey(RenderMembers(members)))) + [CLOSE_BRACE]
  }

  function RenderItems(items: seq<Json>): seq<Text> {
    if items == [] then [] else [Canonicalise(items[0])] + RenderItems(items[1..])
  }

  function RenderMembers(ms: seq<Member>): seq<Rendered> {
    if ms == [] then [] else [Render(ms[0])] + RenderMembers(ms[1..])
  }

  function Render(m: Member): Rendered { Rendered(m.key, Canonicalise(m.value)) }

  // -- strings decode uniquely --------------------------------------------------------------

  lemma HexDigitInjective(a: nat, b: nat)
    requires a < 16 && b < 16 && HexDigit(a) == HexDigit(b)
    ensures a == b
  {}

  lemma Hex4Injective(u: Unit, v: Unit)
    requires Hex4(u) == Hex4(v)
    ensures u == v
  {
    assert Hex4(u)[0] == Hex4(v)[0] && Hex4(u)[1] == Hex4(v)[1] && Hex4(u)[2] == Hex4(v)[2] && Hex4(u)[3] == Hex4(v)[3];
    HexDigitInjective(u / 16 / 16 / 16, v / 16 / 16 / 16);
    HexDigitInjective(u / 16 / 16 % 16, v / 16 / 16 % 16);
    HexDigitInjective(u / 16 % 16, v / 16 % 16);
    HexDigitInjective(u % 16, v % 16);
  }

  /** The first unit and, after a backslash, the second say what a quoted piece is. */
  lemma PieceDecodes(p: Text, q: Text, x: Text, y: Text)
    requires Piece(p) && Piece(q) && QuotedPiece(p) + x == QuotedPiece(q) + y
    ensures p == q && x == y
  {
    var a, b := QuotedPiece(p), QuotedPiece(q);
    assert a[0] == (a + x)[0] && b[0] == (b + y)[0];
    if a[0] == BACKSLASH {
      assert a[1] == (a + x)[1] && b[1] == (b + y)[1];
      if a[1] == 117 {
        assert a == (a + x)[..6] && b == (b + y)[..6];
        assert a[2..] == Hex4(p[0]) && b[2..] == Hex4(q[0]);
        Hex4Injective(p[0], q[0]);
      }
    } else if |p| == 2 {
      assert a[1] == (a + x)[1];
    }
    assert |a| == |b|;
    assert x == (a + x)[|a|..] && y == (b + y)[|b|..];
    assert a == (a + x)[..|a|] && b == (b + y)[..|b|];
  }

  lemma EscapedStart(s: Text, x: Text)
    ensures (Escaped(s) + [QUOTE] + x)[0] == QUOTE <==> s == []
  {
    hide QuotedPiece;
  }

  lemma {:induction false} EscapedDecodes(s: Text, t: Text, x: Text, y: Text)
    requires Escaped(s) + [QUOTE] + x == Escaped(t) + [QUOTE] + y
    ensures s == t && x == y
    decreases |s|
  {
    hide QuotedPiece;
    var l, r := Escaped(s) + [QUOTE] + x, Escaped(t) + [QUOTE] + y;
    EscapedStart(s, x);
    EscapedStart(t, y);
    if s == [] {
      assert l[1..] == x && r[1..] == y;
    } else {
      var p, q, s', t' := s[..Width(s)], t[..Width(t)], s[Width(s)..], t[Width(t)..];
      var l', r' := Escaped(s') + [QUOTE] + x, Escaped(t') + [QUOTE] + y;
      assert l == QuotedPiece(p) + l' && r == QuotedPiece(q) + r';
      PieceDecodes(p, q, l', r');
      EscapedDecodes(s', t', x, y);
      assert s == p + s' && t == q + t';
    }
  }

  lemma QuotedDecodes(s: Text, t: Text, x: Text, y: Text)
    requires Quoted(s) + x == Quoted(t) + y
    ensures s == t && x == y
  {
    hide Escaped;
    var l, r := Quoted(s) + x, Quoted(t) + y;
    assert l == [QUOTE] + (Escaped(s) + [QUOTE] + x) && r == [QUOTE] + (Escaped(t) + [QUOTE] + y);
    assert l[1..] == Escaped(s) + [QUOTE] + x && r[1..] == Escaped(t) + [QUOTE] + y;
    EscapedDecodes(s, t, x, y);
  }

  // -- sorting ------------------------------------------------------------------------------

  lemma {:induction false} LessIsTotal(a: Text, b: Text)
    ensures a == b || Less(a, b) || Less(b, a)
    ensures !(Less(a, b) && Less(b, a)) && !Less(a, a)
    decreases |a|
  {
    if a != [] && b != [] {
      LessIsTotal(a[1..], b[1..]);
      LessIsTotal(a[1..], a[1..]);
      assert a == [a[0]] + a[1..] && b == [b[0]] + b[1..];
    } else if a != [] {
      LessIsTotal(a[1..], a[1..]);
    }
  }

  lemma {:induction false} LessIsTransitive(a: Text, b: Text, c: Text)
    requires Less(a, b) && Less(b, c)
    ensures Less(a, c)
    decreases |a|
  {
    if a != [] && a[0] == b[0] == c[0] { LessIsTransitive(a[1..], b[1..], c[1..]); }
  }

  /** The same insertion sort, on members whose values are not yet text. */
  function PlaceMember(m: Member, sorted: seq<Member>): seq<Member> {
    if sorted == [] || !Less(sorted[0].key, m.key) then [m] + sorted else [sorted[0]] + PlaceMember(m, sorted[1..])
  }

  function SortMembers(ms: seq<Member>): seq<Member> {
    if ms == [] then [] else PlaceMember(ms[0], SortMembers(ms[1..]))
  }

  /** Keys rise strictly. */
  ghost predicate Ascending(ms: seq<Member>) {
    ms == [] || ((forall k :: k in MeaningOfMembers(ms[1..]) ==> Less(ms[0].key, k)) && Ascending(ms[1..]))
  }

  lemma {:induction false} RenderPlaced(m: Member, sorted: seq<Member>)
    ensures RenderMembers(PlaceMember(m, sorted)) == Place(Render(m), RenderMembers(sorted))
    decreases |sorted|
  {
    hide Canonicalise;
    if sorted == [] || !Less(sorted[0].key, m.key) {
      assert ([m] + sorted)[1..] == sorted;
    } else {
      RenderPlaced(m, sorted[1..]);
      assert ([sorted[0]] + PlaceMember(m, sorted[1..]))[1..] == PlaceMember(m, sorted[1..]);
      assert RenderMembers(sorted)[1..] == RenderMembers(sorted[1..]);
    }
  }

  /** Sorting before rendering is sorting after it. */
  lemma {:induction false} RenderSorted(ms: seq<Member>)
    ensures RenderMembers(SortMembers(ms)) == SortByKey(RenderMembers(ms))
    decreases |ms|
  {
    hide Canonicalise;
    if ms != [] {
      RenderSorted(ms[1..]);
      RenderPlaced(ms[0], SortMembers(ms[1..]));
      assert RenderMembers(ms)[1..] == RenderMembers(ms[1..]);
    }
  }

  lemma {:induction false} KeysAreKnown(ms: seq<Member>, k: Text)
    ensures k in MeaningOfMembers(ms) <==> exists i :: 0 <= i < |ms| && ms[i].key == k
    decreases |ms|
  {
    hide Meaning;
    if ms != [] {
      KeysAreKnown(ms[1..], k);
      forall i | 1 <= i < |ms| && ms[i].key == k ensures ms[1..][i - 1].key == k {}
      assert k == ms[0].key ==> ms[0].key == k;
    }
  }

  lemma {:induction false} PlacedMember(m: Member, sorted: seq<Member>)
    requires Ascending(sorted) && m.key !in MeaningOfMembers(sorted)
    ensures MeaningOfMembers(PlaceMember(m, sorted)) == MeaningOfMembers(sorted)[m.key := MeaningOfMember(m)]
    ensures Ascending(PlaceMember(m, sorted))
    ensures forall x :: x in PlaceMember(m, sorted) ==> x == m || x in sorted
    decreases |sorted|
  {
    hide Meaning, Less;
    var placed := PlaceMember(m, sorted);
    if sorted == [] {
      assert placed[1..] == sorted;
    } else if !Less(sorted[0].key, m.key) {
      assert placed[1..] == sorted;
      LessIsTotal(m.key, sorted[0].key);
      forall k | k in MeaningOfMembers(sorted) ensures Less(m.key, k) {
        if k != sorted[0].key { LessIsTransitive(m.key, sorted[0].key, k); }
      }
    } else {
      assert placed[1..] == PlaceMember(m, sorted[1..]);
      LessIsTotal(m.key, m.key);
      PlacedMember(m, sorted[1..]);
    }
  }

  lemma {:induction false} SortedMembers(ms: seq<Member>)
    requires UniqueKeys(ms)
    ensures MeaningOfMembers(SortMembers(ms)) == MeaningOfMembers(ms)
    ensures Ascending(SortMembers(ms))
    ensures forall x :: x in SortMembers(ms) ==> x in ms
    decreases |ms|
  {
    hide Meaning, Less, Ascending, PlaceMember;
    if ms != [] {
      SortedMembers(ms[1..]);
      KeysAreKnown(ms[1..], ms[0].key);
      assert forall i :: 0 <= i < |ms| - 1 ==> ms[1..][i] == ms[i + 1];
      PlacedMember(ms[0], SortMembers(ms[1..]));
    } else {
      assert Ascending([]) by { NothingAscends(); }
    }
  }

  lemma NothingAscends()
    ensures Ascending([])
  {}

  lemma {:induction false} EachIsWellFormed(ms: seq<Member>)
    ensures WellFormedMembers(ms) <==> forall x :: x in ms ==> WellFormedMember(x)
    decreases |ms|
  {
    hide WellFormedMember;
    if ms != [] {
      EachIsWellFormed(ms[1..]);
      assert ms[0] in ms && forall x :: x in ms[1..] ==> x in ms;
      forall x | x in ms ensures x == ms[0] || x in ms[1..] {
        var i :| 0 <= i < |ms| && ms[i] == x;
        assert i > 0 ==> ms[1..][i - 1] == x;
      }
    }
  }

  // -- values decode uniquely -----------------------------------------------------------------

  /** What can follow a value inside a larger text. */
  predicate Delimited(x: Text) { x == [] || x[0] in {COMMA, CLOSE_BRACKET, CLOSE_BRACE} }

  predicate StartsAs(v: Json, u: Unit) {
    match v
    case Undefined => u == 110
    case Null => u == 110
    case Bool(b) => u == if b then 116 else 102
    case Number(text) => NumeralUnit(u)
    case String(_) => u == QUOTE
    case Array(_) => u == OPEN_BRACKET
    case Object(_) => u == OPEN_BRACE
  }

  lemma ValueStarts(v: Json)
    ensures Canonicalise(v) != [] && StartsAs(v, Canonicalise(v)[0])
  {
    if v.Number? { NumeralUnits(v.text); }
  }

  lemma NumeralsAsLong(s: Numeral, t: Numeral, x: Text, y: Text)
    requires s + x == t + y && Delimited(x)
    ensures |t| <= |s|
  {
    NumeralUnits(t);
    assert forall i :: 0 <= i < |t| ==> (t + y)[i] == t[i];
    assert |x| > 0 ==> (s + x)[|s|] == x[0];
    if |s| < |t| { assert false; }
  }

  lemma NumeralDecodes(s: Numeral, t: Numeral, x: Text, y: Text)
    requires s + x == t + y && Delimited(x) && Delimited(y)
    ensures s == t && x == y
  {
    NumeralsAsLong(s, t, x, y);
    NumeralsAsLong(t, s, y, x);
    assert s == (s + x)[..|s|] && x == (s + x)[|s|..] && t == (t + y)[..|t|] && y == (t + y)[|t|..];
  }

  /** A joined list and its closing bracket: the first part, then the rest after a comma. */
  lemma JoinUnfolds(parts: seq<Text>, close: Unit, x: Text)
    requires parts != []
    ensures Join(parts) + [close] + x
            == parts[0] + (if |parts| == 1 then [close] + x else [COMMA] + (Join(parts[1..]) + [close] + x))
  {
    if |parts| == 1 {
      Regroup2(parts[0], [close], x);
    } else {
      var tail := Join(parts[1..]);
      assert Join(parts) == parts[0] + [COMMA] + tail;
      Regroup4(parts[0], tail, [close], x);
    }
  }

  lemma Regroup2(a: Text, b: Text, c: Text)
    ensures a + b + c == a + (b + c)
  {}

  lemma Regroup3(key: Text, value: Text, rest: Text)
    ensures key + [COLON] + value + rest == key + ([COLON] + (value + rest))
  {}

  lemma Regroup4(a: Text, tail: Text, close: Text, x: Text)
    ensures a + [COMMA] + tail + close + x == a + ([COMMA] + (tail + close + x))
  {}

  lemma {:induction false} ValueDecodes(a: Json, b: Json, x: Text, y: Text)
    requires WellFormed(a) && WellFormed(b) && Delimited(x) && Delimited(y)
    requires Canonicalise(a) + x == Canonicalise(b) + y
    ensures Meaning(a) == Meaning(b) && x == y
    decreases a, 2, 0
  {
    var l, r := Canonicalise(a) + x, Canonicalise(b) + y;
    ValueStarts(a);
    ValueStarts(b);
    assert l[0] == Canonicalise(a)[0] && r[0] == Canonicalise(b)[0];
    match a {
      case Number(text) => NumeralDecodes(text, b.text, x, y);
      case String(units) => QuotedDecodes(units, b.units, x, y);
      case Array(items) => ArrayDecodes(a, b, x, y);
      case Object(members) => ObjectDecodes(a, b, x, y);

      case Bool(_) =>
        assert Canonicalise(b) == Canonicalise(a);
        assert x == l[|Canonicalise(a)|..] && y == r[|Canonicalise(a)|..];
      case _ =>
        assert Canonicalise(b) == NULL_TEXT;
        assert x == l[4..] && y == r[4..];
    }
  }

  lemma ArrayText(v: Json)
    requires v.Array?
    ensures Canonicalise(v) == [OPEN_BRACKET] + Join(RenderItems(v.items)) + [CLOSE_BRACKET]
    ensures Meaning(v) == ArrayValue(MeaningOfItems(v.items)) && WellFormed(v) == WellFormedItems(v.items)
    ensures forall x :: x in v.items ==> x < v
  {
    hide Join, RenderItems, MeaningOfItems, WellFormedItems;
  }

  lemma {:induction false} ArrayDecodes(a: Json, b: Json, x: Text, y: Text)
    requires a.Array? && b.Array? && WellFormed(a) && WellFormed(b) && Delimited(x) && Delimited(y)
    requires Canonicalise(a) + x == Canonicalise(b) + y
    ensures Meaning(a) == Meaning(b) && x == y
    decreases a, 1, 0
  {
    hide Canonicalise, Meaning, WellFormed, Join, RenderItems;
    ArrayText(a);
    ArrayText(b);
    var l, r := Canonicalise(a) + x, Canonicalise(b) + y;
    assert l[1..] == Join(RenderItems(a.items)) + [CLOSE_BRACKET] + x;
    assert r[1..] == Join(RenderItems(b.items)) + [CLOSE_BRACKET] + y;
    ItemsDecode(a, a.items, b.items, x, y);
  }

  lemma {:induction false} ItemsDecode(whole: Json, s: seq<Json>, t: seq<Json>, x: Text, y: Text)
    requires WellFormedItems(s) && WellFormedItems(t) && forall v :: v in s ==> v < whole
    requires Join(RenderItems(s)) + [CLOSE_BRACKET] + x == Join(RenderItems(t)) + [CLOSE_BRACKET] + y
    ensures MeaningOfItems(s) == MeaningOfItems(t) && x == y
    decreases whole, 0, |s|
  {
    hide Meaning, Canonicalise, Join, WellFormed;
    var ps, pt := RenderItems(s), RenderItems(t);
    PartsStart(s, x);
    PartsStart(t, y);
    if s == [] {
      EmptyJoin(CLOSE_BRACKET, x);
      EmptyJoin(CLOSE_BRACKET, y);
    } else {
      JoinUnfolds(ps, CLOSE_BRACKET, x);
      JoinUnfolds(pt, CLOSE_BRACKET, y);
      assert ps[1..] == RenderItems(s[1..]) && pt[1..] == RenderItems(t[1..]);
      var restS := if |s| == 1 then [CLOSE_BRACKET] + x else [COMMA] + (Join(ps[1..]) + [CLOSE_BRACKET] + x);
      var restT := if |t| == 1 then [CLOSE_BRACKET] + y else [COMMA] + (Join(pt[1..]) + [CLOSE_BRACKET] + y);
      assert s[0] in s && forall v :: v in s[1..] ==> v in s;
      ValueDecodes(s[0], t[0], restS, restT);
      assert restS[1..] == restT[1..] && restS[0] == restT[0];
      if |s| > 1 { ItemsDecode(whole, s[1..], t[1..], x, y); }
    }
  }

  lemma EmptyJoin(close: Unit, x: Text)
    ensures Join([]) + [close] + x == [close] + x
    ensures ([close] + x)[1..] == x
  {}

  /** A list of items starts with its bracket exactly when it is empty. */
  lemma PartsStart(items: seq<Json>, x: Text)
    ensures |RenderItems(items)| == |items|
    ensures (Join(RenderItems(items)) + [CLOSE_BRACKET] + x)[0] == CLOSE_BRACKET <==> items == []
  {
    hide Canonicalise;
    LengthOfItems(items);
    if items != [] {
      JoinUnfolds(RenderItems(items), CLOSE_BRACKET, x);
      ValueStarts(items[0]);
    }
  }

  lemma {:induction false} LengthOfItems(items: seq<Json>)
    ensures |RenderItems(items)| == |items|
    decreases |items|
  {
    if items != [] { LengthOfItems(items[1..]); }
  }

  lemma {:induction false} LengthOfMembers(ms: seq<Member>)
    ensures |RenderMembers(ms)| == |ms| == |Lines(RenderMembers(ms))|
    decreases |ms|
  {
    hide Canonicalise, Line;
    if ms != [] {
      LengthOfMembers(ms[1..]);
      assert RenderMembers(ms)[1..] == RenderMembers(ms[1..]);
    }
  }

  lemma LinesStart(ms: seq<Member>, x: Text)
    ensures |Lines(RenderMembers(ms))| == |ms|
    ensures (Join(Lines(RenderMembers(ms))) + [CLOSE_BRACE] + x)[0] == CLOSE_BRACE <==> ms == []
  {
    hide Canonicalise, Escaped;
    LengthOfMembers(ms);
    if ms != [] { JoinUnfolds(Lines(RenderMembers(ms)), CLOSE_BRACE, x); }
  }

  lemma LinesTail(ms: seq<Member>)
    requires ms != []
    ensures Lines(RenderMembers(ms))[0] == Quoted(ms[0].key) + [COLON] + Canonicalise(ms[0].value)
    ensures Lines(RenderMembers(ms))[1..] == Lines(RenderMembers(ms[1..]))
  {
    hide Canonicalise, Quoted;
    assert RenderMembers(ms)[1..] == RenderMembers(ms[1..]);
  }

  lemma {:induction false} MembersDecode(whole: Json, s: seq<Member>, t: seq<Member>, x: Text, y: Text)
    requires WellFormedMembers(s) && WellFormedMembers(t) && forall m :: m in s ==> m.value < whole
    requires Join(Lines(RenderMembers(s))) + [CLOSE_BRACE] + x == Join(Lines(RenderMembers(t))) + [CLOSE_BRACE] + y
    ensures MeaningOfMembers(s) == MeaningOfMembers(t) && x == y
    decreases whole, 0, |s|
  {
    hide Meaning, Canonicalise, Join, WellFormed, Lines, RenderMembers, Quoted;
    var ps, pt := Lines(RenderMembers(s)), Lines(RenderMembers(t));
    LinesStart(s, x);
    LinesStart(t, y);
    if s == [] {
      EmptyLines(x);
      EmptyLines(y);
    } else {
      LinesTail(s);
      LinesTail(t);
      JoinUnfolds(ps, CLOSE_BRACE, x);
      JoinUnfolds(pt, CLOSE_BRACE, y);
      var restS := if |s| == 1 then [CLOSE_BRACE] + x else [COMMA] + (Join(ps[1..]) + [CLOSE_BRACE] + x);
      var restT := if |t| == 1 then [CLOSE_BRACE] + y else [COMMA] + (Join(pt[1..]) + [CLOSE_BRACE] + y);
      LineDecodes(whole, s[0], t[0], restS, restT);
      assert restS[1..] == restT[1..] && restS[0] == restT[0];
      assert forall m :: m in s[1..] ==> m in s;
      if |s| > 1 { MembersDecode(whole, s[1..], t[1..], x, y); }
    }
  }

  lemma EmptyLines(x: Text)
    ensures Join(Lines(RenderMembers([]))) + [CLOSE_BRACE] + x == [CLOSE_BRACE] + x
    ensures ([CLOSE_BRACE] + x)[1..] == x
  {}

  /** A key, a colon and a value decode one after the other. */
  lemma {:induction false} LineDecodes(whole: Json, m: Member, n: Member, x: Text, y: Text)
    requires WellFormedMember(m) && WellFormedMember(n) && m.value < whole && Delimited(x) && Delimited(y)
    requires Quoted(m.key) + [COLON] + Canonicalise(m.value) + x == Quoted(n.key) + [COLON] + Canonicalise(n.value) + y
    ensures m.key == n.key && MeaningOfMember(m) == MeaningOfMember(n) && x == y
    decreases whole, 0, 0
  {
    hide Canonicalise, Quoted, Meaning, WellFormed;
    var restM, restN := [COLON] + (Canonicalise(m.value) + x), [COLON] + (Canonicalise(n.value) + y);
    assert Quoted(m.key) + [COLON] + Canonicalise(m.value) + x == Quoted(m.key) + restM;
    assert Quoted(n.key) + [COLON] + Canonicalise(n.value) + y == Quoted(n.key) + restN;
    QuotedDecodes(m.key, n.key, restM, restN);
    assert restM[1..] == Canonicalise(m.value) + x && restN[1..] == Canonicalise(n.value) + y;
    ValueDecodes(m.value, n.value, x, y);
  }

  /** Everything about an object, in terms of its sorted members. */
  lemma SortedObject(v: Json)
    requires v.Object? && WellFormed(v)
    ensures var s := SortMembers(v.members);
            && Canonicalise(v) == [OPEN_BRACE] + Join(Lines(RenderMembers(s))) + [CLOSE_BRACE]
            && Meaning(v) == ObjectValue(MeaningOfMembers(s))
            && WellFormedMembers(s) && Ascending(s)
            && forall m :: m in s ==> m.value < v
  {
    hide WellFormedMember, Ascending, SortMembers, SortByKey, Join, MeaningOfMembers, Lines;
    RenderSorted(v.members);
    SortedMembers(v.members);
    EachIsWellFormed(v.members);
    EachIsWellFormed(SortMembers(v.members));
  }

  lemma {:induction false} ObjectDecodes(a: Json, b: Json, x: Text, y: Text)
    requires a.Object? && b.Object? && WellFormed(a) && WellFormed(b) && Delimited(x) && Delimited(y)
    requires Canonicalise(a) + x == Canonicalise(b) + y
    ensures Meaning(a) == Meaning(b) && x == y
    decreases a, 1, 0
  {
    hide Canonicalise, Meaning, WellFormed, Ascending, SortMembers, Join, Lines, RenderMembers;
    SortedObject(a);
    SortedObject(b);
    var s, t := SortMembers(a.members), SortMembers(b.members);
    var l, r := Canonicalise(a) + x, Canonicalise(b) + y;
    assert l[1..] == Join(Lines(RenderMembers(s))) + [CLOSE_BRACE] + x;
    assert r[1..] == Join(Lines(RenderMembers(t))) + [CLOSE_BRACE] + y;
    MembersDecode(a, s, t, x, y);
  }

  // -- equal meanings have equal text -----------------------------------------------------------

  lemma {:induction false} ValuesAgree(a: Json, b: Json)
    requires WellFormed(a) && WellFormed(b) && Meaning(a) == Meaning(b)
    ensures Canonicalise(a) == Canonicalise(b)
    decreases a, 1, 0
  {
    match a {
      case Array(items) => ItemsAgree(a, items, b.items);
      case Object(members) =>
        var s, t := SortMembers(members), SortMembers(b.members);
        SortedObject(a);
        SortedObject(b);
        MembersAgree(a, s, t);
      case _ =>
    }
  }

  lemma {:induction false} ItemsAgree(whole: Json, s: seq<Json>, t: seq<Json>)
    requires WellFormedItems(s) && WellFormedItems(t) && forall v :: v in s ==> v < whole
    requires MeaningOfItems(s) == MeaningOfItems(t)
    ensures RenderItems(s) == RenderItems(t)
    decreases whole, 0, |s|
  {
    hide Meaning, Canonicalise, WellFormed;
    if s != [] {
      assert t != [] && MeaningOfItems(s)[1..] == MeaningOfItems(s[1..]) && MeaningOfItems(t)[1..] == MeaningOfItems(t[1..]);
      assert s[0] in s && forall v :: v in s[1..] ==> v in s;
      ValuesAgree(s[0], t[0]);
      ItemsAgree(whole, s[1..], t[1..]);
    }
  }

  lemma {:induction false} MembersAgree(whole: Json, s: seq<Member>, t: seq<Member>)
    requires WellFormedMembers(s) && WellFormedMembers(t) && forall m :: m in s ==> m.value < whole
    requires Ascending(s) && Ascending(t) && MeaningOfMembers(s) == MeaningOfMembers(t)
    ensures RenderMembers(s) == RenderMembers(t)
    decreases whole, 0, |s|
  {
    hide Meaning, Canonicalise, WellFormed, Less;
    NoMembersNoKeys(s);
    NoMembersNoKeys(t);
    if s != [] {
      FirstKeyAgrees(s, t);
      assert s[0] in s && forall m :: m in s[1..] ==> m in s;
      ValuesAgree(s[0].value, t[0].value);
      MembersAgree(whole, s[1..], t[1..]);
    }
  }

  lemma NoMembersNoKeys(ms: seq<Member>)
    ensures MeaningOfMembers(ms) == map[] <==> ms == []
  {
    hide Meaning;
    if ms != [] { assert ms[0].key in MeaningOfMembers(ms); }
  }

  /** A rising list's first key is in its meaning, with the first value, and below every other key. */
  lemma FirstMember(s: seq<Member>)
    requires s != [] && Ascending(s)
    ensures var m := MeaningOfMembers(s);
            && s[0].key in m && m[s[0].key] == MeaningOfMember(s[0])
            && s[0].key !in MeaningOfMembers(s[1..])
            && (forall k :: k in m && k != s[0].key ==> Less(s[0].key, k))
  {
    hide Meaning, Less;
    LessIsTotal(s[0].key, s[0].key);
  }

  lemma RestOfMembers(s: seq<Member>)
    requires s != [] && s[0].key !in MeaningOfMembers(s[1..])
    ensures MeaningOfMembers(s[1..]) == MeaningOfMembers(s) - {s[0].key}
  {
    hide Meaning;
  }

  /** The first member of a rising list is fixed by its meaning, and so is the rest. */
  lemma FirstKeyAgrees(s: seq<Member>, t: seq<Member>)
    requires s != [] && t != [] && Ascending(s) && Ascending(t) && MeaningOfMembers(s) == MeaningOfMembers(t)
    ensures s[0].key == t[0].key && MeaningOfMember(s[0]) == MeaningOfMember(t[0])
    ensures MeaningOfMembers(s[1..]) == MeaningOfMembers(t[1..])
  {
    hide Meaning, MeaningOfMembers, Ascending, Less;
    FirstMember(s);
    FirstMember(t);
    LessIsTotal(s[0].key, t[0].key);
    RestOfMembers(s);
    RestOfMembers(t);
  }

  /**
   * `canonicalise` tells bodies apart exactly: two bodies have the same text if
   * and only if they are the same value up to the order of object keys.
   */
  lemma CanonicalTextIsTheValue(a: Json, b: Json)
    requires WellFormed(a) && WellFormed(b)
    ensures Canonicalise(a) == Canonicalise(b) <==> Meaning(a) == Meaning(b)
  {
    if Canonicalise(a) == Canonicalise(b) {
      ValueDecodes(a, b, [], []);
    }
    if Meaning(a) == Meaning(b) {
      ValuesAgree(a, b);
    }
  }

  // -- the text is JSON -------------------------------------------------------------------------

  lemma HexDigitsAreHex(u: Unit)
    ensures forall i :: 0 <= i < 4 ==> HexUnit(Hex4(u)[i])
  {}

  /** Reading a quoted piece consumes exactly that piece. */
  lemma PieceIsRead(p: Text, rest: Text)
    requires Piece(p) && (|p| == 1 && High(p[0]) ==> |QuotedPiece(p)| > 1)
    ensures MatchCharacters(QuotedPiece(p) + rest) == MatchCharacters(rest)
  {
    var q := QuotedPiece(p);
    var t := q + rest;
    assert forall i :: 0 <= i < |q| ==> t[i] == q[i];
    assert t[|q|..] == rest;
    if q[0] == BACKSLASH && q[1] == 117 {
      HexDigitsAreHex(p[0]);
      assert q[2..] == Hex4(p[0]);
    }
  }

  lemma {:induction false} CharactersAreRead(s: Text, rest: Text)
    ensures MatchCharacters(Escaped(s) + [QUOTE] + rest) == Some(rest)
    decreases |s|
  {
    hide QuotedPiece;
    var t := Escaped(s) + [QUOTE] + rest;
    if s == [] {
      assert t[1..] == rest;
    } else {
      var p, s' := s[..Width(s)], s[Width(s)..];
      assert t == QuotedPiece(p) + (Escaped(s') + [QUOTE] + rest);
      LoneSurrogatesAreEscaped(p);
      PieceIsRead(p, Escaped(s') + [QUOTE] + rest);
      CharactersAreRead(s', rest);
    }
  }

  lemma LoneSurrogatesAreEscaped(p: Text)
    requires Piece(p)
    ensures |p| == 1 && High(p[0]) ==> |QuotedPiece(p)| > 1
  {}

  lemma QuotedIsRead(s: Text, rest: Text)
    ensures (Quoted(s) + rest)[0] == QUOTE && MatchCharacters((Quoted(s) + rest)[1..]) == Some(rest)
  {
    hide Escaped, MatchCharacters;
    assert (Quoted(s) + rest)[1..] == Escaped(s) + [QUOTE] + rest;
    CharactersAreRead(s, rest);
  }

  /** No canonical text starts with white space, a comma, a colon or a closing bracket. */
  lemma NoSpaceFirst(v: Json, rest: Text)
    ensures SkipSpace(Canonicalise(v) + rest) == Canonicalise(v) + rest
    ensures (Canonicalise(v) + rest)[0] !in {CLOSE_BRACKET, CLOSE_BRACE}
  {
    hide Canonicalise;
    ValueStarts(v);
    assert (Canonicalise(v) + rest)[0] == Canonicalise(v)[0];
  }

  /** Reading a value's canonical text consumes exactly that text. */
  lemma {:induction false} ValueIsRead(v: Json, x: Text)
    requires Delimited(x)
    ensures MatchValue(Canonicalise(v) + x) == Some(x)
    decreases v, 2, 0
  {
    var t := Canonicalise(v) + x;
    match v {
      case Number(text) =>
        NumeralUnits(text);
        NumberEnds(text, x);
        assert t[0] == text[0];
      case String(units) => QuotedIsRead(units, x);
      case Array(items) => ArrayIsRead(v, x);
      case Object(members) => ObjectIsRead(v, x);
      case Bool(b) => LiteralIsRead(if b then TRUE_TEXT else FALSE_TEXT, x);
      case _ => LiteralIsRead(NULL_TEXT, x);
    }
  }

  lemma LiteralIsRead(literal: Text, x: Text)
    requires literal in {NULL_TEXT, TRUE_TEXT, FALSE_TEXT}
    ensures MatchValue(literal + x) == Some(x)
  {
    assert literal <= literal + x && (literal + x)[|literal|..] == x;
  }

  lemma {:induction false} ArrayIsRead(v: Json, x: Text)
    requires v.Array? && Delimited(x)
    ensures MatchValue(Canonicalise(v) + x) == Some(x)
    decreases v, 1, 0
  {
    hide Canonicalise, Join, RenderItems, MatchItems;
    ArrayText(v);
    var t := Canonicalise(v) + x;
    var inside := Join(RenderItems(v.items)) + [CLOSE_BRACKET] + x;
    assert t[0] == OPEN_BRACKET && t[1..] == inside;
    if v.items == [] {
      LengthOfItems(v.items);
      EmptyJoin(CLOSE_BRACKET, x);
    } else {
      ItemsUnfold(v.items, x);
      ItemsAreRead(v, v.items, x);
    }
  }

  /** What follows the first item: the closing bracket, or a comma and the rest. */
  function AfterItem(items: seq<Json>, x: Text): Text
    requires items != []
  {
    if |items| == 1 then [CLOSE_BRACKET] + x else [COMMA] + (Join(RenderItems(items[1..])) + [CLOSE_BRACKET] + x)
  }

  lemma ItemsUnfold(items: seq<Json>, x: Text)
    requires items != []
    ensures var t := Join(RenderItems(items)) + [CLOSE_BRACKET] + x;
            && t == Canonicalise(items[0]) + AfterItem(items, x)
            && SkipSpace(t) == t && t != [] && t[0] != CLOSE_BRACKET
  {
    hide Canonicalise, Join, SkipSpace;
    LengthOfItems(items);
    JoinUnfolds(RenderItems(items), CLOSE_BRACKET, x);
    assert RenderItems(items)[1..] == RenderItems(items[1..]);
    NoSpaceFirst(items[0], AfterItem(items, x));
    ValueStarts(items[0]);
  }

  lemma {:induction false} ItemsAreRead(whole: Json, items: seq<Json>, x: Text)
    requires items != [] && forall v :: v in items ==> v < whole
    ensures MatchItems(Join(RenderItems(items)) + [CLOSE_BRACKET] + x) == Some(x)
    decreases whole, 0, |items|
  {
    hide Canonicalise, Join, MatchValue, RenderItems;
    var rest := AfterItem(items, x);
    ItemsUnfold(items, x);
    assert items[0] in items;
    ValueStarts(items[0]);
    ValueIsRead(items[0], rest);
    if |items| > 1 {
      ItemsUnfold(items[1..], x);
      assert rest[1..] == Join(RenderItems(items[1..])) + [CLOSE_BRACKET] + x && SkipSpace(rest) == rest;
      assert forall v :: v in items[1..] ==> v in items;
      ItemsAreRead(whole, items[1..], x);
    } else {
      assert rest[1..] == x && SkipSpace(rest) == rest;
    }
  }

  lemma {:induction false} ObjectIsRead(v: Json, x: Text)
    requires v.Object? && Delimited(x)
    ensures MatchValue(Canonicalise(v) + x) == Some(x)
    decreases v, 1, 0
  {
    hide Canonicalise, Join, Lines, RenderMembers, SortMembers;
    var s := SortMembers(v.members);
    ObjectText(v);
    var t := Canonicalise(v) + x;
    var inside := Join(Lines(RenderMembers(s))) + [CLOSE_BRACE] + x;
    assert t[0] == OPEN_BRACE && t[1..] == inside;
    if s == [] {
      EmptyLines(x);
    } else {
      LinesUnfold(s, x);
      MembersAreRead(v, s, x);
    }
  }

  lemma ObjectText(v: Json)
    requires v.Object?
    ensures Canonicalise(v) == [OPEN_BRACE] + Join(Lines(RenderMembers(SortMembers(v.members)))) + [CLOSE_BRACE]
    ensures forall m :: m in SortMembers(v.members) ==> m.value < v
  {
    hide SortByKey, Join, Lines;
    RenderSorted(v.members);
    SortingKeepsMembers(v.members);
  }

  lemma {:induction false} PlacingKeepsMembers(m: Member, sorted: seq<Member>)
    ensures forall x :: x in PlaceMember(m, sorted) ==> x == m || x in sorted
    decreases |sorted|
  {
    hide Less;
    if sorted != [] { PlacingKeepsMembers(m, sorted[1..]); }
  }

  lemma {:induction false} SortingKeepsMembers(ms: seq<Member>)
    ensures forall x :: x in SortMembers(ms) ==> x in ms
    decreases |ms|
  {
    hide PlaceMember;
    if ms != [] {
      SortingKeepsMembers(ms[1..]);
      PlacingKeepsMembers(ms[0], SortMembers(ms[1..]));
    }
  }

  /** What follows the first member: the closing brace, or a comma and the rest. */
  function AfterFirst(ms: seq<Member>, x: Text): Text
    requires ms != []
  {
    if |ms| == 1 then [CLOSE_BRACE] + x else [COMMA] + (Join(Lines(RenderMembers(ms[1..]))) + [CLOSE_BRACE] + x)
  }

  lemma QuoteFirst(s: Text, rest: Text)
    ensures (Quoted(s) + rest)[0] == QUOTE && SkipSpace(Quoted(s) + rest) == Quoted(s) + rest
  {
    hide Escaped;
  }

  lemma LinesUnfold(ms: seq<Member>, x: Text)
    requires ms != []
    ensures var t := Join(Lines(RenderMembers(ms))) + [CLOSE_BRACE] + x;
            && t == Quoted(ms[0].key) + ([COLON] + (Canonicalise(ms[0].value) + AfterFirst(ms, x)))
            && SkipSpace(t) == t && t[0] == QUOTE
  {
    hide Canonicalise, Join, Lines, RenderMembers, Quoted, SkipSpace;
    LinesStart(ms, x);
    LinesTail(ms);
    JoinUnfolds(Lines(RenderMembers(ms)), CLOSE_BRACE, x);
    var key, value, rest := Quoted(ms[0].key), Canonicalise(ms[0].value), AfterFirst(ms, x);
    Regroup3(key, value, rest);
    QuoteFirst(ms[0].key, [COLON] + (value + rest));
  }

  lemma {:induction false} MembersAreRead(whole: Json, ms: seq<Member>, x: Text)
    requires ms != [] && forall m :: m in ms ==> m.value < whole
    ensures MatchMembers(Join(Lines(RenderMembers(ms))) + [CLOSE_BRACE] + x) == Some(x)
    decreases whole, 0, |ms|
  {
    hide Canonicalise, Join, MatchMember, Lines, RenderMembers, Quoted;
    var rest := AfterFirst(ms, x);
    LinesUnfold(ms, x);
    assert ms[0] in ms;
    MemberIsRead(whole, ms[0], rest);
    if |ms| > 1 {
      LinesUnfold(ms[1..], x);
      assert rest[1..] == Join(Lines(RenderMembers(ms[1..]))) + [CLOSE_BRACE] + x && SkipSpace(rest) == rest;
      assert forall m :: m in ms[1..] ==> m in ms;
      MembersAreRead(whole, ms[1..], x);
    } else {
      assert rest[1..] == x && SkipSpace(rest) == rest;
    }
  }

  lemma {:induction false} MemberIsRead(whole: Json, m: Member, rest: Text)
    requires m.value < whole && Delimited(rest)
    ensures MatchMember(Quoted(m.key) + ([COLON] + (Canonicalise(m.value) + rest))) == Some(rest)
    decreases whole, 0, 0
  {
    hide Canonicalise, Quoted, MatchCharacters, MatchValue;
    var colon := [COLON] + (Canonicalise(m.value) + rest);
    QuotedIsRead(m.key, colon);
    QuotedLength(m.key);
    assert SkipSpace(colon) == colon && colon[1..] == Canonicalise(m.value) + rest;
    NoSpaceFirst(m.value, rest);
    ValueIsRead(m.value, rest);
  }

  lemma QuotedLength(s: Text)
    ensures |Quoted(s)| >= 2
  {}

  /** The canonical text of every value is JSON text. */
  lemma CanonicalTextIsJson(v: Json)
    ensures IsJsonText(Canonicalise(v))
  {
    hide Canonicalise, MatchValue;
    NoSpaceFirst(v, []);
    ValueIsRead(v, []);
    assert Canonicalise(v) + [] == Canonicalise(v);
  }

  // -- requests ---------------------------------------------------------------------------------

  /** A request: `pattern` is its route with placeholders, `parameters` what filled them. */
  datatype Request = Request(verb: Text, pattern: Text, parameters: seq<Text>, body: Json)

  const SPACE: Unit := 32

  /** The text that is hashed. The endpoint given to `requestHash` already starts with the verb. */
  function RequestText(r: Request): Text {
    var endpoint := r.verb + [SPACE] + r.pattern;
    r.verb + [SPACE] + endpoint + [SPACE] + Canonicalise(r.body)
  }

  /**
   * On one endpoint, requests are told apart by their bodies and by nothing
   * else: whatever fills the route's placeholders does not count.
   */
  lemma OnlyTheBodyCounts(r: Request, r': Request)
    requires r.verb == r'.verb && r.pattern == r'.pattern && WellFormed(r.body) && WellFormed(r'.body)
    ensures RequestText(r) == RequestText(r') <==> Meaning(r.body) == Meaning(r'.body)
  {
    hide Canonicalise, Meaning, WellFormed;
    CanonicalTextIsTheValue(r.body, r'.body);
    var prefix := r.verb + [SPACE] + (r.verb + [SPACE] + r.pattern) + [SPACE];
    assert RequestText(r)[|prefix|..] == Canonicalise(r.body);
    assert RequestText(r')[|prefix|..] == Canonicalise(r'.body);
  }
}
