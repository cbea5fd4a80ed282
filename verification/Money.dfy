/**
 Money in int64 minor units: arithmetic with its exact overflow boundaries, and
 the decimal text form with two digits of scale (internal/domain/money.go).
 */
module MoneyValue {
  import opened Base

  /** The ISO 4217 table is left open: every result holds for every table. */
  const ISO_4217: set<string>

  /** Three capital letters. */
  predicate IsCurrencyPattern(code: string) {
    |code| == 3 && forall i :: 0 <= i < |code| ==> 'A' <= code[i] <= 'Z'
  }

  predicate IsCurrency(code: string) {
    IsCurrencyPattern(code) && code in ISO_4217
  }

  datatype Money = Money(minor: Int64, currency: string) {

    predicate Valid() {
      IsCurrency(currency)
    }

    predicate IsZero() {
      minor == 0
    }

    predicate IsPositive() {
      minor > 0
    }

    predicate IsNegative() {
      minor < 0
    }

    predicate Compatible(other: Money) {
      Valid() && other.Valid() && currency == other.currency
    }

    function CompatibilityError(other: Money): Error
      requires !Compatible(other)
    {
      if !Valid() || !other.Valid() then InvalidMoney else CurrencyMismatch
    }

    /** The overflow test of the source looks at one operand at a time; it is exact. */
    function Add(other: Money): (r: Result<Money>)
      ensures r.Ok? <==> Compatible(other) && MIN_INT64 <= minor + other.minor <= MAX_INT64
      ensures r.Ok? ==> r.value.minor == minor + other.minor && r.value.currency == currency
      ensures Compatible(other) && r.Err? ==> r.error == MoneyOverflow
    {
      if !Compatible(other) then Err(CompatibilityError(other))
      else if (other.minor > 0 && minor > MAX_INT64 - other.minor) ||
              (other.minor < 0 && minor < MIN_INT64 - other.minor) then Err(MoneyOverflow)
      else Ok(Money(minor + other.minor, currency))
    }

    function Negate(): (r: Result<Money>)
      ensures r.Ok? <==> Valid() && minor != MIN_INT64
    {
      if !Valid() then Err(InvalidMoney)
      else if minor == MIN_INT64 then Err(MoneyOverflow)
      else Ok(Money(-minor, currency))
    }

    /** Subtraction is exact, except that the least int64 can never be subtracted. */
    function Subtract(other: Money): (r: Result<Money>)
      ensures r.Ok? <==> Compatible(other) && other.minor != MIN_INT64 && MIN_INT64 <= minor - other.minor <= MAX_INT64
      ensures r.Ok? ==> r.value.minor == minor - other.minor && r.value.currency == currency
    {
      var negated :- other.Negate();
      Add(negated)
    }

    function Compare(other: Money): (r: Result<int>)
      ensures r.Ok? <==> Compatible(other)
      ensures r.Ok? ==> -1 <= r.value <= 1
      ensures r.Ok? ==> (r.value < 0 <==> minor < other.minor) && (r.value > 0 <==> minor > other.minor)
      ensures r.Ok? ==> (r.value == 0 <==> this == other)
    {
      if !Compatible(other) then Err(CompatibilityError(other))
      else if minor < other.minor then Ok(-1)
      else if minor > other.minor then Ok(1)
      else Ok(0)
    }

    function Absolute(): nat {
      var value: int := minor;
      if value < 0 then -value else value
    }

    /** Canonical decimal text, for example "-0.05". */
    function Amount(): string {
      (if minor < 0 then "-" else "") + Decimal(Absolute())
    }
  }

  /** Subtraction refuses a representable difference exactly when the subtrahend is the least int64. */
  lemma SubtractIncomplete(a: Money, b: Money)
    requires a.Compatible(b) && MIN_INT64 <= a.minor - b.minor <= MAX_INT64
    ensures a.Subtract(b).Err? <==> b.minor == MIN_INT64
    ensures b.minor == MIN_INT64 ==> a.minor < 0
  {
  }

  // --- digits -------------------------------------------------------------

  predicate IsDigit(c: char) {
    '0' <= c <= '9'
  }

  function Digit(n: nat): (c: char)
    requires n < 10
    ensures IsDigit(c) && c as int - '0' as int == n
  {
    ('0' as int + n) as char
  }

  predicate AllDigits(s: string) {
    forall i :: 0 <= i < |s| ==> IsDigit(s[i])
  }

  /** The value that strconv.ParseUint reads, before its range test. */
  function DigitsValue(s: string): nat
    requires AllDigits(s)
  {
    if s == "" then 0 else DigitsValue(s[..|s| - 1]) * 10 + (s[|s| - 1] as int - '0' as int)
  }

  /** strconv.FormatUint in base 10. */
  function FormatDigits(n: nat): (s: string)
    ensures AllDigits(s) && s != ""
  {
    if n < 10 then [Digit(n)] else FormatDigits(n / 10) + [Digit(n % 10)]
  }

  /** The first group of the amount pattern: "0", or no leading zero. */
  predicate CanonicalDigits(s: string) {
    AllDigits(s) && s != "" && (s[0] == '0' ==> s == "0")
  }

  lemma {:induction false} FormatThenParse(n: nat)
    ensures CanonicalDigits(FormatDigits(n)) && DigitsValue(FormatDigits(n)) == n
    ensures n > 0 ==> FormatDigits(n)[0] != '0'
  {
    var s := FormatDigits(n);
    if n < 10 {
      assert s[..|s| - 1] == "";
    } else {
      FormatThenParse(n / 10);
      assert s[..|s| - 1] == FormatDigits(n / 10);
    }
  }

  lemma {:induction false} ParseThenFormat(s: string)
    requires CanonicalDigits(s)
    ensures FormatDigits(DigitsValue(s)) == s
    ensures s != "0" ==> DigitsValue(s) > 0
  {
    var init, last := s[..|s| - 1], s[|s| - 1] as int - '0' as int;
    if init == "" {
      assert DigitsValue(init) == 0;
      assert s == [s[|s| - 1]];
      assert s == [Digit(last)];
      if last == 0 { assert s == "0"; }
    } else {
      assert init[0] == s[0];
      ParseThenFormat(init);
      assert DigitsValue(s) / 10 == DigitsValue(init) && DigitsValue(s) % 10 == last;
      assert s == init + [s[|s| - 1]];
    }
  }

  // --- amounts ------------------------------------------------------------

  /** The printer: major part, a point, two digits of cents. */
  function Decimal(absolute: nat): string {
    FormatDigits(absolute / 100) + "." + (if absolute % 100 < 10 then "0" else "") + FormatDigits(absolute % 100)
  }

  /** The regular expression of amounts: canonical digits, a point, exactly two digits. */
  predicate MatchesAmount(s: string) {
    && |s| >= 4
    && CanonicalDigits(s[..|s| - 3])
    && s[|s| - 3] == '.'
    && IsDigit(s[|s| - 2]) && IsDigit(s[|s| - 1])
  }

  function MajorOf(s: string): nat
    requires MatchesAmount(s)
  {
    DigitsValue(s[..|s| - 3])
  }

  function CentsOf(s: string): (c: nat)
    requires MatchesAmount(s)
    ensures c < 100
  {
    (s[|s| - 2] as int - '0' as int) * 10 + (s[|s| - 1] as int - '0' as int)
  }

  function ParseNonNegativeMinor(amount: string, maximum: nat): (r: Result<nat>)
    requires 100 <= maximum <= MAX_UINT64
    ensures r.Ok? <==> MatchesAmount(amount) && MajorOf(amount) * 100 + CentsOf(amount) <= maximum
    ensures r.Ok? ==> r.value == MajorOf(amount) * 100 + CentsOf(amount)
  {
    if !MatchesAmount(amount) then Err(InvalidMoney)
    else if MajorOf(amount) > MAX_UINT64 then Err(MoneyOverflow)
    else if MajorOf(amount) > (maximum - CentsOf(amount)) / 100 then Err(MoneyOverflow)
    else Ok(MajorOf(amount) * 100 + CentsOf(amount))
  }

  function ParseMoney(amount: string, currency: string): Result<Money> {
    if !IsCurrency(currency) then Err(InvalidMoney)
    else
      var minor :- ParseNonNegativeMinor(amount, MAX_INT64);
      Ok(Money(minor, currency))
  }

  function Pow10(n: nat): nat {
    if n == 0 then 1 else 10 * Pow10(n - 1)
  }

  /** Positional notation: every digit counts ten times for each digit after it. */
  function PlaceValue(s: string): nat
    requires AllDigits(s)
  {
    if s == "" then 0 else (s[0] as int - '0' as int) * Pow10(|s| - 1) + PlaceValue(s[1..])
  }

  lemma {:induction false} PlaceValueAppend(s: string, c: char)
    requires AllDigits(s) && IsDigit(c)
    ensures AllDigits(s + [c]) && PlaceValue(s + [c]) == PlaceValue(s) * 10 + (c as int - '0' as int)
  {
    if s == "" {
      assert PlaceValue([c]) == (c as int - '0' as int) * Pow10(0) + PlaceValue([c][1..]);
    } else {
      PlaceValueAppend(s[1..], c);
      assert (s + [c])[1..] == s[1..] + [c];
      LeadingPlace(s[0] as int - '0' as int, |s|);
    }
  }

  lemma LeadingPlace(digit: nat, n: nat)
    requires n > 0
    ensures digit * Pow10(n) == digit * Pow10(n - 1) * 10
  {
  }

  lemma {:induction false} DigitsArePlaces(s: string)
    requires AllDigits(s)
    ensures DigitsValue(s) == PlaceValue(s)
  {
    if s != "" {
      DigitsArePlaces(s[..|s| - 1]);
      PlaceValueAppend(s[..|s| - 1], s[|s| - 1]);
      assert s == s[..|s| - 1] + [s[|s| - 1]];
    }
  }

  /** The digits of an amount, without its point. */
  function DigitsOf(amount: string): (s: string)
    requires MatchesAmount(amount)
    ensures AllDigits(s)
  {
    amount[..|amount| - 3] + amount[|amount| - 2..]
  }

  lemma AmountIsPositional(amount: string)
    requires MatchesAmount(amount)
    ensures MajorOf(amount) * 100 + CentsOf(amount) == PlaceValue(DigitsOf(amount))
  {
    var major, tens, ones := amount[..|amount| - 3], amount[|amount| - 2], amount[|amount| - 1];
    DigitsArePlaces(major);
    PlaceValueAppend(major, tens);
    PlaceValueAppend(major + [tens], ones);
    assert DigitsOf(amount) == major + [tens] + [ones];
  }

  /**
   An amount is worth what its digits say in positional notation, in minor units; texts of
   another form are invalid, and greater amounts overflow.
   */
  lemma ParseIsPositional(amount: string, currency: string)
    ensures ParseMoney(amount, currency) ==
            if !IsCurrency(currency) || !MatchesAmount(amount) then Err(InvalidMoney)
            else if PlaceValue(DigitsOf(amount)) > MAX_INT64 then Err(MoneyOverflow)
            else Ok(Money(PlaceValue(DigitsOf(amount)), currency))
  {
    if MatchesAmount(amount) { AmountIsPositional(amount); }
  }

  /** Some spellings: two digits of scale, no leading zero, no sign, no point left out. */
  lemma Spellings(currency: string)
    requires IsCurrency(currency)
    ensures ParseMoney("1.05", currency) == Ok(Money(105, currency))
    ensures ParseMoney("0.00", currency) == Ok(Money(0, currency))
    ensures forall text :: text in {"1.5", "01.00", ".50", "-1.00", "105", "1.050", ""} ==>
              ParseMoney(text, currency) == Err(InvalidMoney)
  {
    ParseIsPositional("1.05", currency);
    assert DigitsOf("1.05") == "105" && "105"[1..] == "05" && "05"[1..] == "5";
    ParseIsPositional("0.00", currency);
    assert DigitsOf("0.00") == "000" && "000"[1..] == "00" && "00"[1..] == "0";
    assert "01.00"[..2] == "01" && "1.050"[..2] == "1." && "-1.00"[..2] == "-1";
  }

  function TwoDigits(n: nat): (s: string)
    requires n < 100
    ensures |s| == 2
  {
    [Digit(n / 10), Digit(n % 10)]
  }

  lemma DecimalShape(n: nat)
    ensures Decimal(n) == FormatDigits(n / 100) + "." + TwoDigits(n % 100)
  {
    var cents := n % 100;
    if cents >= 10 {
      assert FormatDigits(cents) == FormatDigits(cents / 10) + [Digit(cents % 10)];
      assert FormatDigits(cents / 10) == [Digit(cents / 10)];
    }
  }

  /** Printing and reading back gives the same number of minor units. */
  lemma PrintThenParse(n: nat)
    ensures MatchesAmount(Decimal(n))
    ensures MajorOf(Decimal(n)) * 100 + CentsOf(Decimal(n)) == n
  {
    DecimalShape(n);
    FormatThenParse(n / 100);
    var s := Decimal(n);
    assert s[..|s| - 3] == FormatDigits(n / 100);
  }

  lemma CentsText(s: string)
    requires MatchesAmount(s)
    ensures s[|s| - 2..] == TwoDigits(CentsOf(s))
  {
    assert Digit(CentsOf(s) / 10) == s[|s| - 2] && Digit(CentsOf(s) % 10) == s[|s| - 1];
  }

  lemma Hundreds(major: nat, cents: nat)
    requires cents < 100
    ensures (major * 100 + cents) / 100 == major && (major * 100 + cents) % 100 == cents
  {
  }

  /** Reading and printing gives back the very same text: amounts have one spelling. */
  lemma ParseThenPrint(s: string)
    requires MatchesAmount(s)
    ensures Decimal(MajorOf(s) * 100 + CentsOf(s)) == s
  {
    var n := MajorOf(s) * 100 + CentsOf(s);
    DecimalShape(n);
    Hundreds(MajorOf(s), CentsOf(s));
    ParseThenFormat(s[..|s| - 3]);
    CentsText(s);
    assert s == s[..|s| - 3] + "." + s[|s| - 2..];
  }

  /** ParseMoney accepts exactly the texts that Amount prints for non-negative money. */
  lemma ParseMoneyExact(amount: string, currency: string, m: Money)
    ensures ParseMoney(amount, currency) == Ok(m) <==>
            m.Valid() && m.minor >= 0 && m.currency == currency && m.Amount() == amount
  {
    if ParseMoney(amount, currency).Ok? { ParsedIsPrinted(amount, currency); }
    if m.Valid() && m.minor >= 0 { PrintedIsParsed(m); }
  }

  lemma ParsedIsPrinted(amount: string, currency: string)
    requires ParseMoney(amount, currency).Ok?
    ensures var m := ParseMoney(amount, currency).value;
            m.Valid() && m.minor >= 0 && m.currency == currency && m.Amount() == amount
  {
    ParseThenPrint(amount);
  }

  lemma PrintedIsParsed(m: Money)
    requires m.Valid() && m.minor >= 0
    ensures ParseMoney(m.Amount(), m.currency) == Ok(m)
  {
    assert m.Amount() == Decimal(m.minor);
    PrintThenParse(m.minor);
  }

  /** Amount loses nothing: two amounts with one text are one number. */
  lemma AmountInjective(a: Money, b: Money)
    requires a.Amount() == b.Amount()
    ensures a.minor == b.minor
  {
    var x, y := a.Absolute(), b.Absolute();
    PrintThenParse(x);
    PrintThenParse(y);
    assert Decimal(x)[0] != '-' && Decimal(y)[0] != '-';
    assert a.Amount() == if a.minor < 0 then "-" + Decimal(x) else Decimal(x);
    assert b.Amount() == if b.minor < 0 then "-" + Decimal(y) else Decimal(y);
    assert ("-" + Decimal(x))[1..] == Decimal(x) && ("-" + Decimal(y))[1..] == Decimal(y);
  }

  // --- JSON form ----------------------------------------------------------

  datatype SerializedMoney = SerializedMoney(amount: string, currency: string)

  function Encode(m: Money): Result<SerializedMoney> {
    if !m.Valid() then Err(InvalidMoney) else Ok(SerializedMoney(m.Amount(), m.currency))
  }

  function Decode(encoded: SerializedMoney): Result<Money> {
    if encoded.amount == "" || encoded.amount[0] != '-' then ParseMoney(encoded.amount, encoded.currency)
    else if !IsCurrency(encoded.currency) then Err(InvalidMoney)
    else
      var absolute :- ParseNonNegativeMinor(encoded.amount[1..], MAX_INT64 + 1);
      if absolute == 0 then Err(InvalidMoney) else Ok(Money(0 - (absolute as int), encoded.currency))
  }

  lemma NegativeRoundTrip(tail: string, currency: string, m: Money)
    ensures Decode(SerializedMoney("-" + tail, currency)) == Ok(m) <==>
            m.Valid() && m.currency == currency && m.minor < 0 && tail == Decimal(m.Absolute())
  {
    assert ("-" + tail)[1..] == tail;
    AbsoluteRoundTrip(tail, m);
  }

  /** The absolute value is parsed exactly from its decimal text, up to that of the least int64. */
  lemma AbsoluteRoundTrip(tail: string, m: Money)
    ensures ParseNonNegativeMinor(tail, MAX_INT64 + 1) == Ok(m.Absolute()) <==> tail == Decimal(m.Absolute())
    ensures ParseNonNegativeMinor(tail, MAX_INT64 + 1).Ok? ==> ParseNonNegativeMinor(tail, MAX_INT64 + 1).value <= MAX_INT64 + 1
  {
    if MatchesAmount(tail) { ParseThenPrint(tail); }
    PrintThenParse(m.Absolute());
  }

  /** Exactly the negative amounts begin with a sign; the absolute value follows. */
  lemma AmountSign(m: Money)
    ensures m.Amount() != "" && (m.Amount()[0] == '-' <==> m.minor < 0)
    ensures m.minor < 0 ==> m.Amount()[1..] == Decimal(m.Absolute())
  {
    PrintThenParse(m.Absolute());
    assert Decimal(m.Absolute())[0] != '-';
  }

  lemma NegativeJson(amount: string, currency: string, m: Money)
    requires amount != "" && amount[0] == '-'
    ensures Decode(SerializedMoney(amount, currency)) == Ok(m) <==>
            m.Valid() && m.currency == currency && m.Amount() == amount
  {
    assert amount == "-" + amount[1..];
    AmountSign(m);
    NegativeRoundTrip(amount[1..], currency, m);
  }

  lemma PlainJson(amount: string, currency: string, m: Money)
    requires amount == "" || amount[0] != '-'
    ensures Decode(SerializedMoney(amount, currency)) == Ok(m) <==>
            m.Valid() && m.currency == currency && m.Amount() == amount
  {
    AmountSign(m);
    ParseMoneyExact(amount, currency, m);
  }

  /** Decoding undoes encoding for every int64, and accepts nothing that encoding does not produce. */
  lemma JsonRoundTrip(encoded: SerializedMoney, m: Money)
    ensures Decode(encoded) == Ok(m) <==> Encode(m) == Ok(encoded)
  {
    if encoded.amount != "" && encoded.amount[0] == '-' {
      NegativeJson(encoded.amount, encoded.currency, m);
    } else {
      PlainJson(encoded.amount, encoded.currency, m);
    }
  }
}
