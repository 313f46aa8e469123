/**
 * Money as text: what a customer reads and what a decimal string parses to
 * (packages/shared/src/money.ts). Every supported currency has two decimals.
 */
module MoneyText {
  import opened Basics
  import opened Money

  const DECIMALS := 2
  const FACTOR := 100

  function Symbol(c: Currency): string {
    match c
    case NGN => "\U{20A6}"
    case USD => "$"
    case KES => "KSh"
    case GHS => "GH\U{20B5}"
    case ZAR => "R"
  }

  // -- digits ---------------------------------------------------------------------------

  predicate IsDigit(c: char) { '0' <= c <= '9' }

  predicate AllDigits(s: string) { forall i :: 0 <= i < |s| ==> IsDigit(s[i]) }

  function DigitChar(d: nat): (c: char)
    requires d < 10
    ensures IsDigit(c) && DigitValue(c) == d
  {
    '0' + d as char
  }

  function DigitValue(c: char): nat
    requires IsDigit(c)
  {
    (c - '0') as nat
  }

  function Digits(n: nat): string {
    if n < 10 then [DigitChar(n)] else Digits(n / 10) + [DigitChar(n % 10)]
  }

  function ValueOf(s: string): nat
    requires AllDigits(s)
  {
    if s == "" then 0 else ValueOf(s[..|s| - 1]) * 10 + DigitValue(s[|s| - 1])
  }

  lemma ValueAppend(s: string, d: nat)
    requires AllDigits(s) && d < 10
    ensures AllDigits(s + [DigitChar(d)]) && ValueOf(s + [DigitChar(d)]) == ValueOf(s) * 10 + d
  {
    assert (s + [DigitChar(d)])[..|s|] == s;
  }

  lemma {:induction false} ValueOfDigits(n: nat)
    ensures AllDigits(Digits(n)) && Digits(n) != "" && ValueOf(Digits(n)) == n
    decreases n
  {
    if n < 10 {
      ValueAppend("", n);
      assert "" + [DigitChar(n)] == [DigitChar(n)];
    } else {
      ValueOfDigits(n / 10);
      ValueAppend(Digits(n / 10), n % 10);
    }
  }

  // -- rendering ----------------------------------------------------------------------------

  /** `padStart(2, "0")` of a number below one hundred. */
  function TwoDigits(n: nat): string
    requires n < 100
  {
    [DigitChar(n / 10), DigitChar(n % 10)]
  }

  function ThreeDigits(n: nat): string
    requires n < 1000
  {
    [DigitChar(n / 100), DigitChar(n / 10 % 10), DigitChar(n % 10)]
  }

  /** `toLocaleString("en-US")`: a comma before every three digits. */
  function Grouped(n: nat): string {
    if n < 1000 then Digits(n) else Grouped(n / 1000) + "," + ThreeDigits(n % 1000)
  }

  /** `formatCustomerMoney`. */
  function FormatCustomerMoney(amount: int, c: Currency): string {
    (if amount < 0 then "-" else "") + Symbol(c) + Grouped(Abs(amount) / FACTOR) + "." + TwoDigits(Abs(amount) % FACTOR)
  }

  // -- parsing ------------------------------------------------------------------------------

  /** The characters `trim` removes. */
  predicate IsSpace(c: char) {
    || '\t' <= c <= '\r' || c == ' ' || c == '\U{A0}' || c == '\U{1680}' || '\U{2000}' <= c <= '\U{200A}'
    || c in {'\U{2028}', '\U{2029}', '\U{202F}', '\U{205F}', '\U{3000}', '\U{FEFF}'}
  }

  function TrimStart(s: string): string {
    if s != "" && IsSpace(s[0]) then TrimStart(s[1..]) else s
  }

  function TrimEnd(s: string): string {
    if s != "" && IsSpace(s[|s| - 1]) then TrimEnd(s[..|s| - 1]) else s
  }

  function LeadingDigits(s: string): (d: string)
    ensures AllDigits(d) && |d| <= |s|
  {
    if s == "" || !IsDigit(s[0]) then "" else [s[0]] + LeadingDigits(s[1..])
  }

  /** An optional sign, digits, and optionally a point with more digits. */
  datatype Decimal = Decimal(negative: bool, whole: string, fraction: string)

  function MatchDecimal(s: string): (r: Option<Decimal>)
    ensures r.Some? ==> AllDigits(r.value.whole) && AllDigits(r.value.fraction)
  {
    if s != "" && s[0] == '-' then MatchUnsigned(s[1..], true) else MatchUnsigned(s, false)
  }

  function MatchUnsigned(s: string, negative: bool): (r: Option<Decimal>)
    ensures r.Some? ==> AllDigits(r.value.whole) && AllDigits(r.value.fraction)
  {
    var whole := LeadingDigits(s);
    var rest := s[|whole|..];
    if whole == "" then None
    else if rest == "" then Some(Decimal(negative, whole, ""))
    else if rest[0] == '.' && |rest| > 1 && AllDigits(rest[1..]) then Some(Decimal(negative, whole, rest[1..]))
    else None
  }

  /** `padEnd(2, "0")` of at most two digits. */
  function PadEnd(s: string): (r: string)
    requires |s| <= DECIMALS
    ensures AllDigits(s) ==> AllDigits(r)
  {
    if |s| == 0 then "00" else if |s| == 1 then s + "0" else s
  }

  /** `parseMoney`. */
  function ParseMoney(text: string): Result<int> {
    var m := MatchDecimal(TrimEnd(TrimStart(text)));
    if m.None? then Err(InvalidRequest)
    else if |m.value.fraction| > DECIMALS then Err(InvalidRequest)
    else
      var magnitude: int := ValueOf(m.value.whole + PadEnd(m.value.fraction));
      ToSafeNumber(if m.value.negative then -magnitude else magnitude)
  }

  // -- the round trip -------------------------------------------------------------------------

  function WithoutCommas(s: string): string {
    if s == "" then "" else (if s[0] == ',' then "" else [s[0]]) + WithoutCommas(s[1..])
  }

  lemma {:induction false} WithoutCommasAppend(a: string, b: string)
    ensures WithoutCommas(a + b) == WithoutCommas(a) + WithoutCommas(b)
    decreases |a|
  {
    if a == "" {
      assert a + b == b;
    } else {
      assert (a + b)[1..] == a[1..] + b;
      WithoutCommasAppend(a[1..], b);
    }
  }

  lemma {:induction false} DigitsHaveNoCommas(s: string)
    requires AllDigits(s)
    ensures WithoutCommas(s) == s
    decreases |s|
  {
    if s != "" { DigitsHaveNoCommas(s[1..]); }
  }

  lemma ThreeDigitsValue(s: string, n: nat)
    requires AllDigits(s) && n < 1000
    ensures AllDigits(ThreeDigits(n)) && AllDigits(s + ThreeDigits(n)) && ValueOf(s + ThreeDigits(n)) == ValueOf(s) * 1000 + n
  {
    hide ValueOf;
    var a := s + [DigitChar(n / 100)];
    var b := a + [DigitChar(n / 10 % 10)];
    ValueAppend(s, n / 100);
    ValueAppend(a, n / 10 % 10);
    ValueAppend(b, n % 10);
    assert s + ThreeDigits(n) == b + [DigitChar(n % 10)];
    assert n == n / 10 * 10 + n % 10 && n / 10 == n / 100 * 10 + n / 10 % 10;
  }

  lemma TwoDigitsValue(s: string, n: nat)
    requires AllDigits(s) && n < 100
    ensures AllDigits(TwoDigits(n)) && AllDigits(s + TwoDigits(n)) && ValueOf(s + TwoDigits(n)) == ValueOf(s) * 100 + n
  {
    hide ValueOf;
    var a := s + [DigitChar(n / 10)];
    ValueAppend(s, n / 10);
    ValueAppend(a, n % 10);
    assert s + TwoDigits(n) == a + [DigitChar(n % 10)];
  }

  lemma CommaDrops(s: string)
    requires AllDigits(s)
    ensures WithoutCommas("," + s) == s
  {
    DigitsHaveNoCommas(s);
    assert ("," + s)[1..] == s;
  }

  /** Grouping only inserts commas: what is left are digits with the number's value. */
  lemma {:induction false} GroupedValue(n: nat)
    ensures var plain := WithoutCommas(Grouped(n));
            AllDigits(plain) && plain != "" && ValueOf(plain) == n
    decreases n
  {
    hide ThreeDigits, Digits, ValueOf, WithoutCommas;
    if n < 1000 {
      ValueOfDigits(n);
      DigitsHaveNoCommas(Digits(n));
    } else {
      GroupedValue(n / 1000);
      var high, low := Grouped(n / 1000), ThreeDigits(n % 1000);
      ThreeDigitsValue(WithoutCommas(high), n % 1000);
      WithoutCommasAppend(high, "," + low);
      CommaDrops(low);
      assert Grouped(n) == high + ("," + low);
    }
  }

  /** The customer's text without its currency symbol and group separators. */
  function Plain(text: string, c: Currency): string {
    if text != "" && text[0] == '-' then "-" + WithoutSymbol(text[1..], c) else WithoutSymbol(text, c)
  }

  function WithoutSymbol(text: string, c: Currency): string {
    WithoutCommas(if Symbol(c) <= text then text[|Symbol(c)|..] else text)
  }

  lemma SymbolIsNoSign(c: Currency)
    ensures Symbol(c) != "" && Symbol(c)[0] != '-'
  {}

  lemma SymbolDrops(c: Currency, rest: string)
    ensures WithoutSymbol(Symbol(c) + rest, c) == WithoutCommas(rest)
  {
    hide WithoutCommas, Symbol;
    assert (Symbol(c) + rest)[|Symbol(c)|..] == rest;
    assert Symbol(c) <= Symbol(c) + rest;
  }

  lemma PlainFormat(amount: int, c: Currency)
    ensures Plain(FormatCustomerMoney(amount, c), c)
            == (if amount < 0 then "-" else "") + (WithoutCommas(Grouped(Abs(amount) / FACTOR)) + "." + TwoDigits(Abs(amount) % FACTOR))
  {
    hide WithoutCommas, Grouped, TwoDigits, Symbol, WithoutSymbol;
    var grouped, fraction := Grouped(Abs(amount) / FACTOR), TwoDigits(Abs(amount) % FACTOR);
    var number := grouped + ("." + fraction);
    var shown, text := Symbol(c) + number, FormatCustomerMoney(amount, c);
    SymbolIsNoSign(c);
    assert text == if amount < 0 then "-" + shown else shown;
    assert amount < 0 ==> text[1..] == shown;
    assert shown[0] == Symbol(c)[0];
    SymbolDrops(c, number);
    WithoutCommasAppend(grouped, "." + fraction);
    PointStays(fraction, Abs(amount) % FACTOR);
    var plain := WithoutCommas(grouped);
    assert plain + ("." + fraction) == plain + "." + fraction;
  }

  lemma PointStays(fraction: string, n: nat)
    requires n < 100 && fraction == TwoDigits(n)
    ensures WithoutCommas("." + fraction) == "." + fraction
  {
    DigitsHaveNoCommas(fraction);
    assert ("." + fraction)[1..] == fraction;
  }

  lemma {:induction false} LeadingDigitsOf(d: string, rest: string)
    requires AllDigits(d) && (rest == "" || !IsDigit(rest[0]))
    ensures LeadingDigits(d + rest) == d
    decreases |d|
  {
    if d == "" {
      assert d + rest == rest;
    } else {
      assert (d + rest)[1..] == d[1..] + rest;
      LeadingDigitsOf(d[1..], rest);
    }
  }

  lemma NoSpace(c: char)
    requires IsDigit(c) || c == '-'
    ensures !IsSpace(c)
  {}

  lemma NothingToTrim(text: string)
    requires text != "" && (IsDigit(text[0]) || text[0] == '-') && IsDigit(text[|text| - 1])
    ensures TrimEnd(TrimStart(text)) == text
  {
    hide IsSpace;
    NoSpace(text[0]);
    NoSpace(text[|text| - 1]);
  }

  /** A decimal as it is written. */
  function Written(d: Decimal): string { (if d.negative then "-" else "") + Digital(d) }

  function Digital(d: Decimal): string { if d.fraction == "" then d.whole else d.whole + ("." + d.fraction) }

  predicate WellFormed(d: Decimal) { d.whole != "" && AllDigits(d.whole) && AllDigits(d.fraction) }

  lemma UnsignedMatches(d: Decimal)
    requires WellFormed(d)
    ensures MatchUnsigned(Digital(d), d.negative) == Some(d)
  {
    hide LeadingDigits;
    var rest := if d.fraction == "" then "" else "." + d.fraction;
    assert Digital(d) == d.whole + rest;
    LeadingDigitsOf(d.whole, rest);
    assert Digital(d)[|d.whole|..] == rest;
    if d.fraction != "" { assert rest[1..] == d.fraction; }
  }

  /** Every decimal is read back from what is written, with nothing to trim. */
  lemma WrittenMatches(d: Decimal)
    requires WellFormed(d)
    ensures MatchDecimal(Written(d)) == Some(d) && TrimEnd(TrimStart(Written(d))) == Written(d)
  {
    hide IsSpace, TrimStart, TrimEnd, MatchUnsigned;
    var text := Written(d);
    assert Digital(d)[0] == d.whole[0] && IsDigit(Digital(d)[|Digital(d)| - 1]);
    assert text[|text| - 1] == Digital(d)[|Digital(d)| - 1];
    assert "" + Digital(d) == Digital(d);
    NothingToTrim(text);
    assert d.negative ==> text[1..] == Digital(d);
    UnsignedMatches(d);
  }

  lemma {:induction false} LeadingDigitsLead(s: string)
    ensures LeadingDigits(s) <= s
    decreases |s|
  {
    if s != "" && IsDigit(s[0]) { LeadingDigitsLead(s[1..]); }
  }

  /** Only what is written as a decimal is read as one. */
  lemma MatchesAreWritten(s: string)
    requires MatchDecimal(s).Some?
    ensures WellFormed(MatchDecimal(s).value) && s == Written(MatchDecimal(s).value)
  {
    hide MatchUnsigned;
    if s != "" && s[0] == '-' {
      UnsignedIsWritten(s[1..], true);
      assert s == "-" + s[1..];
    } else {
      UnsignedIsWritten(s, false);
      assert s == "" + s;
    }
  }

  lemma UnsignedIsWritten(s: string, negative: bool)
    requires MatchUnsigned(s, negative).Some?
    ensures var d := MatchUnsigned(s, negative).value; WellFormed(d) && d.negative == negative && s == Digital(d)
  {
    hide LeadingDigits;
    LeadingDigitsLead(s);
    var whole, rest := LeadingDigits(s), s[|LeadingDigits(s)|..];
    assert s == whole + rest;
    if rest != "" { assert rest == "." + rest[1..]; }
  }

  lemma DigitBack(c: char)
    requires IsDigit(c)
    ensures DigitValue(c) < 10 && DigitChar(DigitValue(c)) == c
  {}

  /** Two more digits, whatever they are. */
  lemma TwoMore(s: string, a: char, b: char)
    requires AllDigits(s) && IsDigit(a) && IsDigit(b)
    ensures AllDigits(s + [a, b]) && ValueOf(s + [a, b]) == ValueOf(s) * 100 + DigitValue(a) * 10 + DigitValue(b)
  {
    hide ValueOf;
    DigitBack(a);
    DigitBack(b);
    ValueAppend(s, DigitValue(a));
    ValueAppend(s + [a], DigitValue(b));
    assert s + [a, b] == s + [a] + [b];
  }

  lemma ShortValue(s: string)
    requires AllDigits(s) && |s| <= 2
    ensures ValueOf(s) == if |s| == 0 then 0 else if |s| == 1 then DigitValue(s[0]) else DigitValue(s[0]) * 10 + DigitValue(s[1])
  {}

  lemma PaddedValue(whole: string, fraction: string)
    requires AllDigits(whole) && AllDigits(fraction) && |fraction| <= DECIMALS
    ensures AllDigits(whole + PadEnd(fraction))
    ensures ValueOf(whole + PadEnd(fraction))
            == ValueOf(whole) * 100 + (if |fraction| == 0 then 0 else if |fraction| == 1 then ValueOf(fraction) * 10 else ValueOf(fraction))
  {
    hide ValueOf;
    var padded := PadEnd(fraction);
    assert padded == [padded[0], padded[1]] && IsDigit(padded[0]) && IsDigit(padded[1]);
    TwoMore(whole, padded[0], padded[1]);
    ShortValue(fraction);
  }

  /**
   * What parses, and to what. Text that is, spaces around it aside, an optional
   * minus, digits, and at most two more digits after a point comes to that many
   * minor units, a missing decimal counting as a zero, if the amount is safe;
   * all other text is refused.
   */
  lemma ParsesAsWritten(text: string, d: Decimal)
    requires WellFormed(d) && TrimEnd(TrimStart(text)) == Written(d)
    ensures ParseMoney(text)
            == if |d.fraction| > 2 then Err(InvalidRequest)
               else var minor: int := if |d.fraction| == 0 then 0 else if |d.fraction| == 1 then ValueOf(d.fraction) * 10 else ValueOf(d.fraction);
                    var amount: int := ValueOf(d.whole) * 100 + minor;
                    ToSafeNumber(if d.negative then -amount else amount)
  {
    hide TrimStart, TrimEnd, MatchDecimal, ValueOf, Written, PadEnd;
    WrittenMatches(d);
    if |d.fraction| <= 2 { PaddedValue(d.whole, d.fraction); }
  }

  lemma NothingElseParses(text: string)
    requires forall d: Decimal :: WellFormed(d) ==> TrimEnd(TrimStart(text)) != Written(d)
    ensures ParseMoney(text) == Err(InvalidRequest)
  {
    hide TrimStart, TrimEnd, MatchDecimal, WellFormed, Written;
    if MatchDecimal(TrimEnd(TrimStart(text))).Some? { MatchesAreWritten(TrimEnd(TrimStart(text))); }
  }

  predicate AllSpace(s: string) { forall i :: 0 <= i < |s| ==> IsSpace(s[i]) }

  lemma {:induction false} TrimStartDrops(before: string, s: string)
    requires AllSpace(before) && s != "" && !IsSpace(s[0])
    ensures TrimStart(before + s) == s
    decreases |before|
  {
    hide IsSpace;
    if before == "" {
      assert before + s == s;
    } else {
      assert (before + s)[1..] == before[1..] + s;
      TrimStartDrops(before[1..], s);
    }
  }

  lemma {:induction false} TrimEndDrops(s: string, after: string)
    requires AllSpace(after) && s != "" && !IsSpace(s[|s| - 1])
    ensures TrimEnd(s + after) == s
    decreases |after|
  {
    hide IsSpace;
    if after == "" {
      assert s + after == s;
    } else {
      assert (s + after)[..|s + after| - 1] == s + after[..|after| - 1];
      TrimEndDrops(s, after[..|after| - 1]);
    }
  }

  /** Spaces on either side of an amount make no difference. */
  lemma SpacesAroundAreIgnored(before: string, d: Decimal, after: string)
    requires AllSpace(before) && AllSpace(after) && WellFormed(d)
    ensures ParseMoney(before + (Written(d) + after)) == ParseMoney(Written(d))
  {
    hide MatchDecimal, TrimStart, TrimEnd, IsSpace, AllSpace;
    var s := Written(d);
    WrittenMatches(d);
    assert s != "" && (IsDigit(s[0]) || s[0] == '-') && IsDigit(s[|s| - 1]);
    NoSpace(s[0]);
    NoSpace(s[|s| - 1]);
    TrimStartDrops(before, s + after);
    TrimEndDrops(s, after);
  }

  /**
   * What a customer reads, stripped of its symbol and separators, parses back to
   * the amount: for every safe amount of every currency, negative and sub-unit
   * amounts included.
   */
  lemma FormatThenParse(amount: int, c: Currency)
    requires Safe(amount)
    ensures ParseMoney(Plain(FormatCustomerMoney(amount, c), c)) == Ok(amount)
  {
    hide WithoutCommas, Grouped, TwoDigits, MatchDecimal, TrimStart, TrimEnd, FormatCustomerMoney, Plain, ValueOf;
    var whole, fraction := WithoutCommas(Grouped(Abs(amount) / FACTOR)), TwoDigits(Abs(amount) % FACTOR);
    GroupedValue(Abs(amount) / FACTOR);
    TwoDigitsValue(whole, Abs(amount) % FACTOR);
    assert |fraction| == DECIMALS by { TwoDigitsLength(Abs(amount) % FACTOR); }
    PlainFormat(amount, c);
    WrittenMatches(Decimal(amount < 0, whole, fraction));
    assert whole + ("." + fraction) == whole + "." + fraction;
  }

  lemma TwoDigitsLength(n: nat)
    requires n < 100
    ensures |TwoDigits(n)| == 2
  {}

  /** No two amounts of a currency read the same. */
  lemma FormatTellsAmountsApart(a: int, b: int, c: Currency)
    requires Safe(a) && Safe(b) && FormatCustomerMoney(a, c) == FormatCustomerMoney(b, c)
    ensures a == b
  {
    hide FormatCustomerMoney, ParseMoney, Plain;
    FormatThenParse(a, c);
    FormatThenParse(b, c);
  }
}
