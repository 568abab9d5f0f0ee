/** Amounts of money: 64-bit cents with a currency, their text form and their arithmetic. */
module Finance {
  import opened Core

  const MIN_INT64: int := -0x8000_0000_0000_0000
  const MAX_INT64: int := 0x7fff_ffff_ffff_ffff

  type int64 = x: int | MIN_INT64 <= x <= MAX_INT64

  datatype Currency = BRL | USD | OtherCurrency(code: string)

  datatype Money = Money(amount: int64, currency: Currency)

  predicate ValidCurrency(c: Currency) {
    c.BRL? || c.USD?
  }

  predicate ValidMoney(m: Money) {
    ValidCurrency(m.currency)
  }

  predicate IsZero(m: Money) {
    ValidMoney(m) && m.amount == 0
  }

  predicate IsPositive(m: Money) {
    ValidMoney(m) && m.amount > 0
  }

  predicate InRange(x: int) {
    MIN_INT64 <= x <= MAX_INT64
  }

  predicate IsKnown(currency: Currency) {
    currency == BRL || currency == USD
  }

  // ---- Arithmetic -------------------------------------------------------------------

  function Compatible(m: Money, other: Money): Option<Error> {
    if !ValidMoney(m) || !ValidMoney(other) then Some(ErrInvalidMoney)
    else if m.currency != other.currency then Some(ErrCurrencyMismatch)
    else None
  }

  /**
   * Addition fails exactly when the amounts cannot be combined or the exact sum leaves the
   * 64-bit range. The guards are typed so that none of them wraps around.
   */
  function Add(m: Money, other: Money): (r: Result<Money>)
    ensures !IsKnown(m.currency) || !IsKnown(other.currency) ==> r == Err(ErrInvalidMoney)
    ensures IsKnown(m.currency) && IsKnown(other.currency) && m.currency != other.currency ==> r == Err(ErrCurrencyMismatch)
    ensures IsKnown(m.currency) && m.currency == other.currency ==>
              r == if InRange(m.amount + other.amount) then Ok(Money(m.amount + other.amount, m.currency))
                   else Err(ErrMoneyOverflow)
  {
    match Compatible(m, other)
    case Some(e) => Err(e)
    case None =>
      if other.amount > 0 && (var room: int64 := MAX_INT64 - other.amount; m.amount > room) then
        Err(ErrMoneyOverflow)
      else if other.amount < 0 && (var room: int64 := MIN_INT64 - other.amount; m.amount < room) then
        Err(ErrMoneyOverflow)
      else
        Ok(Money(m.amount + other.amount, m.currency))
  }

  /** Subtraction fails exactly when the exact difference leaves the 64-bit range. */
  function Sub(m: Money, other: Money): (r: Result<Money>)
    ensures !IsKnown(m.currency) || !IsKnown(other.currency) ==> r == Err(ErrInvalidMoney)
    ensures IsKnown(m.currency) && IsKnown(other.currency) && m.currency != other.currency ==> r == Err(ErrCurrencyMismatch)
    ensures IsKnown(m.currency) && m.currency == other.currency ==>
              r == if InRange(m.amount - other.amount) then Ok(Money(m.amount - other.amount, m.currency))
                   else Err(ErrMoneyOverflow)
  {
    match Compatible(m, other)
    case Some(e) => Err(e)
    case None =>
      if other.amount > 0 && (var room: int64 := MIN_INT64 + other.amount; m.amount < room) then
        Err(ErrMoneyOverflow)
      else if other.amount < 0 && (var room: int64 := MAX_INT64 + other.amount; m.amount > room) then
        Err(ErrMoneyOverflow)
      else
        Ok(Money(m.amount - other.amount, m.currency))
  }

  /** Only the least amount has no opposite. */
  function Negate(m: Money): (r: Result<Money>)
    ensures r.Ok? <==> IsKnown(m.currency) && m.amount > MIN_INT64
    ensures r.Ok? ==> Add(m, r.value) == Ok(Money(0, m.currency))
    ensures r.Err? ==> r.error == if IsKnown(m.currency) then ErrMoneyOverflow else ErrInvalidMoney
  {
    if !ValidMoney(m) then Err(ErrInvalidMoney)
    else if m.amount == MIN_INT64 then Err(ErrMoneyOverflow)
    else Ok(Money(-m.amount, m.currency))
  }

  /** What one movement adds the opposite movement takes back, with no overflow on the way. */
  lemma SubUndoesAdd(m: Money, other: Money)
    requires Add(m, other).Ok?
    ensures Sub(Add(m, other).value, other) == Ok(m)
  {
  }

  // ---- Text -------------------------------------------------------------------------

  predicate IsDigit(c: char) {
    '0' <= c <= '9'
  }

  predicate Digits(s: string) {
    forall i :: 0 <= i < |s| ==> IsDigit(s[i])
  }

  /** The number a string of digits denotes. */
  function DigitsValue(s: string): nat
    requires Digits(s)
  {
    if s == [] then 0
    else 10 * DigitsValue(s[..|s| - 1]) + (s[|s| - 1] as int - '0' as int)
  }

  function FirstDot(s: string): (i: nat)
    ensures i <= |s|
    ensures i < |s| ==> s[i] == '.'
    ensures forall j :: 0 <= j < i ==> s[j] != '.'
  {
    if s == [] || s[0] == '.' then 0 else 1 + FirstDot(s[1..])
  }

  function Whole(s: string): string {
    s[..FirstDot(s)]
  }

  function Fraction(s: string): string {
    if FirstDot(s) == |s| then "" else s[FirstDot(s) + 1..]
  }

  /** Digits, then optionally a dot and one or two digits. */
  predicate MoneyPattern(s: string) {
    && |Whole(s)| > 0 && Digits(Whole(s))
    && (FirstDot(s) < |s| ==> 1 <= |Fraction(s)| <= 2)
    && Digits(Fraction(s))
  }

  /** A whole number, or one with one or two decimals behind a dot. */
  predicate IsDecimal(s: string) {
    var n := |s|;
    || (n >= 1 && Digits(s))
    || (n >= 3 && s[n - 2] == '.' && Digits(s[..n - 2]) && IsDigit(s[n - 1]))
    || (n >= 4 && s[n - 3] == '.' && Digits(s[..n - 3]) && IsDigit(s[n - 2]) && IsDigit(s[n - 1]))
  }

  lemma PatternIsDecimal(s: string)
    requires MoneyPattern(s)
    ensures IsDecimal(s)
  {
    var n, dot := |s|, FirstDot(s);
    if dot < n {
      var fraction := Fraction(s);
      assert fraction[0] == s[dot + 1] && fraction[|fraction| - 1] == s[n - 1];
    }
  }

  lemma DecimalIsPattern(s: string)
    requires IsDecimal(s)
    ensures MoneyPattern(s)
  {
    DotIsFound(s, if Digits(s) then |s| else if s[|s| - 2] == '.' then |s| - 2 else |s| - 3);
  }

  /** The texts that the pattern accepts, read from their end. */
  lemma PatternExactly(s: string)
    ensures MoneyPattern(s) <==> IsDecimal(s)
  {
    if MoneyPattern(s) {
      PatternIsDecimal(s);
    }
    if IsDecimal(s) {
      DecimalIsPattern(s);
    }
    hide MoneyPattern, IsDecimal;
  }

  lemma DotIsFound(s: string, dot: nat)
    requires dot <= |s| && Digits(s[..dot]) && (dot < |s| ==> s[dot] == '.')
    ensures FirstDot(s) == dot
  {
    forall j | 0 <= j < dot ensures s[j] != '.' {
      assert s[j] == s[..dot][j];
    }
  }

  function PadFraction(decimal: string): string {
    if |decimal| == 1 then decimal + "0" else decimal
  }

  function NewMoney(value: string, currency: Currency): Result<Money> {
    if !ValidCurrency(currency) then Err(ErrInvalidMoney)
    else if !MoneyPattern(value) then Err(ErrInvalidMoney)
    else
      var whole := DigitsValue(Whole(value));
      if whole > MAX_INT64 then Err(ErrMoneyOverflow)
      else
        var decimal := PadFraction(Fraction(value));
        var cents := DigitsValue(decimal);
        if whole > (MAX_INT64 - cents) / 100 then Err(ErrMoneyOverflow)
        else Ok(Money(whole * 100 + cents, currency))
  }

  function Pow10(n: nat): nat {
    if n == 0 then 1 else 10 * Pow10(n - 1)
  }

  /**
   * Reference reading of a decimal text in cents: drop the dot, read all the digits as one
   * number and scale it by the decimals that are missing.
   */
  function CentsOf(s: string): nat
    requires MoneyPattern(s)
  {
    DigitsOfConcat(Whole(s), Fraction(s));
    DigitsValue(Whole(s) + Fraction(s)) * Pow10(2 - |Fraction(s)|)
  }

  lemma DigitsOfConcat(a: string, b: string)
    requires Digits(a) && Digits(b)
    ensures Digits(a + b)
  {
  }

  lemma {:induction false} ValueOfConcat(a: string, b: string)
    requires Digits(a) && Digits(b)
    ensures Digits(a + b) && DigitsValue(a + b) == DigitsValue(a) * Pow10(|b|) + DigitsValue(b)
  {
    if b == [] {
      assert a + b == a;
    } else {
      var init, last := b[..|b| - 1], b[|b| - 1] as int - '0' as int;
      ValueOfConcat(a, init);
      assert (a + b)[..|a + b| - 1] == a + init && (a + b)[|a + b| - 1] == b[|b| - 1];
      assert Pow10(|b|) == 10 * Pow10(|init|);
      assert DigitsValue(a + b) == 10 * DigitsValue(a + init) + last;
      assert DigitsValue(b) == 10 * DigitsValue(init) + last;
      Scaled(DigitsValue(a), Pow10(|init|));
    }
  }

  lemma Scaled(value: nat, scale: nat)
    ensures value * (10 * scale) == 10 * (value * scale)
  {
  }

  lemma TwoDigits(s: string)
    requires Digits(s) && |s| <= 2
    ensures DigitsValue(s) < 100
  {
    if |s| == 2 {
      assert s[..1][..0] == [];
      assert DigitsValue(s[..1]) == s[0] as int - '0' as int;
    } else if |s| == 1 {
      assert s[..0] == [];
    }
  }

  /** The cents of a text, from the number before the dot and the two decimals after it. */
  lemma CentsByParts(value: string)
    requires MoneyPattern(value)
    ensures Digits(PadFraction(Fraction(value))) && DigitsValue(PadFraction(Fraction(value))) < 100
    ensures CentsOf(value) == DigitsValue(Whole(value)) * 100 + DigitsValue(PadFraction(Fraction(value)))
  {
    var whole, fraction := Whole(value), Fraction(value);
    var padded := PadFraction(fraction);
    ValueOfConcat(whole, fraction);
    TwoDigits(padded);
    assert Pow10(1) == 10 && Pow10(2) == 100;
    if |fraction| == 1 {
      assert padded[..1] == fraction;
    }
  }

  /** `NewMoney` accepts exactly the decimal texts whose cents fit 64 bits, with those cents. */
  lemma NewMoneyIsExact(value: string, currency: Currency)
    ensures NewMoney(value, currency).Ok? <==>
            IsKnown(currency) && IsDecimal(value) && MoneyPattern(value) && CentsOf(value) <= MAX_INT64
    ensures NewMoney(value, currency).Ok? ==> NewMoney(value, currency).value == Money(CentsOf(value), currency)
    ensures IsDecimal(value) ==> MoneyPattern(value)
    ensures IsKnown(currency) && IsDecimal(value) && CentsOf(value) > MAX_INT64 ==>
              NewMoney(value, currency) == Err(ErrMoneyOverflow)
    ensures !IsKnown(currency) || !IsDecimal(value) ==> NewMoney(value, currency) == Err(ErrInvalidMoney)
  {
    PatternExactly(value);
    hide IsDecimal;
    if MoneyPattern(value) {
      CentsByParts(value);
    }
    hide MoneyPattern, CentsOf, DigitsValue, Digits, PadFraction;
  }

  function DigitChar(d: nat): char
    requires d < 10
  {
    ('0' as int + d) as char
  }

  /** Decimal text of a number, without leading zeros. */
  function DecimalText(n: nat): (s: string)
    ensures |s| > 0 && Digits(s)
    ensures DigitsValue(s) == n
  {
    if n < 10 then
      var s := [DigitChar(n)];
      assert s[..0] == [];
      s
    else
      var init := DecimalText(n / 10);
      var s := init + [DigitChar(n % 10)];
      assert s[..|s| - 1] == init;
      s
  }

  function TwoDigitText(n: nat): (s: string)
    requires n < 100
    ensures |s| == 2 && Digits(s)
    ensures DigitsValue(s) == n
  {
    var s := [DigitChar(n / 10), DigitChar(n % 10)];
    assert s[..1] == [DigitChar(n / 10)] && s[..1][..0] == [];
    assert DigitsValue(s[..1]) == n / 10;
    s
  }

  // Division and remainder of the source language truncate toward zero.
  function TruncatedDiv(a: int, b: nat): int
    requires b > 0
  {
    if a >= 0 then a / b else -((-a) / b)
  }

  function TruncatedMod(a: int, b: nat): int
    requires b > 0
  {
    a - TruncatedDiv(a, b) * b
  }

  function MoneyText(m: Money): string {
    var whole := TruncatedDiv(m.amount, 100);
    var cents := TruncatedMod(m.amount, 100);
    if m.amount < 0 then
      var positiveWhole: int64 := -whole;
      "-" + DecimalText(positiveWhole) + "." + TwoDigitText(-cents)
    else
      DecimalText(whole) + "." + TwoDigitText(cents)
  }

  /** The cents that a signed decimal text denotes. */
  function SignedCentsOf(s: string): int
    requires s != []
    requires if s[0] == '-' then MoneyPattern(s[1..]) else MoneyPattern(s)
  {
    if s[0] == '-' then 0 - CentsOf(s[1..]) else CentsOf(s)
  }

  lemma PlainText(whole: nat, cents: nat)
    requires cents < 100
    ensures var s := DecimalText(whole) + "." + TwoDigitText(cents);
            MoneyPattern(s) && s[0] != '-' && CentsOf(s) == 100 * whole + cents
  {
    var a, b := DecimalText(whole), TwoDigitText(cents);
    var s := a + "." + b;
    assert FirstDot(s) == |a| by {
      assert s[|a|] == '.';
      forall j | 0 <= j < |a| ensures s[j] != '.' {
        assert s[j] == a[j] && IsDigit(a[j]);
      }
    }
    assert Whole(s) == a && Fraction(s) == b;
    assert s[0] == a[0] && IsDigit(a[0]);
    ValueOfConcat(a, b);
    assert Pow10(1) == 10 && Pow10(2) == 100;
  }

  /** The text form of every amount, the least one included, denotes that amount. */
  lemma MoneyTextIsCorrect(m: Money)
    ensures var s := MoneyText(m);
            && s != []
            && (if s[0] == '-' then MoneyPattern(s[1..]) else MoneyPattern(s))
            && SignedCentsOf(s) == m.amount
  {
    hide DecimalText, TwoDigitText, MoneyPattern, CentsOf, Digits, DigitsValue;
    var whole, cents := TruncatedDiv(m.amount, 100), TruncatedMod(m.amount, 100);
    if m.amount < 0 {
      PlainText(-whole, -cents);
      var s := MoneyText(m);
      assert s[1..] == DecimalText(-whole) + "." + TwoDigitText(-cents);
    } else {
      PlainText(whole, cents);
    }
  }

  /** Reading back what was written gives the same amount, for every amount that is not negative. */
  lemma ParseUndoesText(m: Money)
    requires ValidMoney(m) && m.amount >= 0
    ensures NewMoney(MoneyText(m), m.currency) == Ok(m)
  {
    PlainText(TruncatedDiv(m.amount, 100), TruncatedMod(m.amount, 100));
    NewMoneyIsExact(MoneyText(m), m.currency);
  }

  /** Distinct amounts have distinct texts. */
  lemma MoneyTextIsInjective(a: Money, b: Money)
    requires MoneyText(a) == MoneyText(b)
    ensures a.amount == b.amount
  {
    MoneyTextIsCorrect(a);
    MoneyTextIsCorrect(b);
  }
}
