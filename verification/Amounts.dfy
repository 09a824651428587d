/** internal/domain/money.go: exact money in signed 64-bit minor units. */
module Amounts {
  import opened Common

  datatype Money = Money(amount: Int64, currency: string)

  // ---- Checked arithmetic

  /** The overflow tests never overflow themselves, and refuse exactly the sums
      that do not fit. */
  function Add(a: Money, b: Money): (r: Result<Money, Error>)
    ensures r.Ok? <==> a.currency == b.currency && MIN_INT64 <= a.amount + b.amount <= MAX_INT64
    ensures r.Ok? ==> r.value.amount == a.amount + b.amount && r.value.currency == a.currency
    ensures r == Err(CurrencyMismatch) <==> a.currency != b.currency
  {
    if a.currency != b.currency then Err(CurrencyMismatch)
    else if b.amount > 0 && a.amount > MAX_INT64 - b.amount then Err(MoneyOverflow)
    else if b.amount < 0 && a.amount < MIN_INT64 - b.amount then Err(MoneyOverflow)
    else Ok(Money(a.amount + b.amount, a.currency))
  }

  /** Subtraction negates its operand first, so the least int64 is refused even
      where the difference would fit. */
  function Subtract(a: Money, b: Money): (r: Result<Money, Error>)
    ensures r.Ok? <==>
              && a.currency == b.currency
              && b.amount != MIN_INT64
              && MIN_INT64 <= a.amount - b.amount <= MAX_INT64
    ensures r.Ok? ==> Add(r.value, b) == Ok(a)
    ensures r == Err(CurrencyMismatch) <==> a.currency != b.currency
  {
    if a.currency != b.currency then Err(CurrencyMismatch)
    else if b.amount == MIN_INT64 then Err(MoneyOverflow)
    else Add(a, Money(-b.amount, b.currency))
  }

  // ---- Decimal text

  predicate IsDigit(c: char) { '0' <= c <= '9' }

  predicate AllDigits(s: string) {
    s != "" && forall i :: 0 <= i < |s| ==> IsDigit(s[i])
  }

  function DigitValue(c: char): nat
    requires IsDigit(c)
  {
    (c as int) - ('0' as int)
  }

  function DigitChar(d: nat): (c: char)
    requires d < 10
    ensures IsDigit(c) && DigitValue(c) == d
  {
    (('0' as int) + d) as char
  }

  /** The number a run of digits denotes. */
  function Number(s: string): nat
    requires forall i :: 0 <= i < |s| ==> IsDigit(s[i])
  {
    if s == "" then 0 else 10 * Number(s[..|s| - 1]) + DigitValue(s[|s| - 1])
  }

  /** The %d rendering of a natural number. */
  function Digits(n: nat): (s: string)
    ensures AllDigits(s) && Number(s) == n
    ensures |s| > 1 ==> s[0] != '0'
  {
    if n < 10 then [DigitChar(n)]
    else
      var init := Digits(n / 10);
      var s := init + [DigitChar(n % 10)];
      assert s[..|s| - 1] == init;
      s
  }

  /** The %02d rendering of a remainder modulo 100. */
  function TwoDigits(n: nat): (s: string)
    requires n < 100
    ensures |s| == 2 && AllDigits(s) && Number(s) == n
  {
    var s := [DigitChar(n / 10), DigitChar(n % 10)];
    TwoDigitNumber(s);
    s
  }

  lemma TwoDigitNumber(s: string)
    requires |s| == 2 && AllDigits(s)
    ensures Number(s) == 10 * DigitValue(s[0]) + DigitValue(s[1])
  {
    assert s[..1][..0] == "";
    assert s[..1] == [s[0]];
    assert Number(s[..1]) == 10 * Number("") + DigitValue(s[0]);
  }

  // Go's division and remainder truncate towards zero.
  function Quotient(a: int, b: nat): int
    requires b > 0
  {
    if a >= 0 then a / b else -((-a) / b)
  }

  function Remainder(a: int, b: nat): int
    requires b > 0
  {
    a - b * Quotient(a, b)
  }

  function FormatInt(n: int): string {
    if n >= 0 then Digits(n) else "-" + Digits(-n)
  }

  function Format(m: Money): string {
    if m.amount >= 0 then
      Digits(m.amount / 100) + "." + TwoDigits(m.amount % 100)
    else
      var whole := Quotient(m.amount, 100);
      var fraction := -Remainder(m.amount, 100);
      if whole == 0 then "-0." + TwoDigits(fraction)
      else FormatInt(whole) + "." + TwoDigits(fraction)
  }

  function Split(s: string, sep: char): (parts: seq<string>)
    ensures |parts| >= 1
  {
    if s == "" then [""]
    else
      var rest := Split(s[1..], sep);
      if s[0] == sep then [""] + rest else [[s[0]] + rest[0]] + rest[1..]
  }

  function ParseInt(s: string): Result<Int64, Error>
    requires AllDigits(s)
  {
    if Number(s) > MAX_INT64 then Err(MoneyOverflow) else Ok(Number(s))
  }

  function ParseMoney(value: string, currency: string): Result<Money, Error> {
    var parts := Split(value, '.');
    if |parts| != 2 then Err(InvalidMoneyFormat)
    else
      var whole, fraction := parts[0], parts[1];
      if whole == "" || |fraction| != 2 then Err(InvalidMoneyFormat)
      else if !AllDigits(whole) || !AllDigits(fraction) then Err(InvalidMoneyFormat)
      else
        match ParseInt(whole)
        case Err(_) => Err(MoneyOverflow)
        case Ok(wholeValue) =>
          match ParseInt(fraction)
          case Err(_) => Err(InvalidMoneyFormat)
          case Ok(fractionValue) =>
            if wholeValue > (MAX_INT64 - fractionValue) / 100 then Err(MoneyOverflow)
            else
              AmountFits(wholeValue, fractionValue);
              Ok(Money(wholeValue * 100 + fractionValue, currency))
  }

  lemma AmountFits(whole: nat, fraction: nat)
    requires fraction <= MAX_INT64
    ensures whole <= (MAX_INT64 - fraction) / 100 <==> whole * 100 + fraction <= MAX_INT64
  {
  }

  // ---- What external text is accepted, and what it means

  /** One or more digits, a point, exactly two digits. */
  predicate WellFormed(value: string) {
    && |value| >= 4
    && value[|value| - 3] == '.'
    && AllDigits(value[..|value| - 3])
    && AllDigits(value[|value| - 2..])
  }

  function MinorUnits(value: string): nat
    requires WellFormed(value)
  {
    100 * Number(value[..|value| - 3]) + Number(value[|value| - 2..])
  }

  lemma {:induction false} SplitWithoutSeparator(s: string, sep: char)
    requires sep !in s
    ensures Split(s, sep) == [s]
  {
    if s != "" {
      SplitWithoutSeparator(s[1..], sep);
      assert [s[0]] + s[1..] == s;
    }
  }

  lemma {:induction false} SplitAtSeparator(a: string, b: string, sep: char)
    requires sep !in a
    ensures Split(a + [sep] + b, sep) == [a] + Split(b, sep)
  {
    var s := a + [sep] + b;
    if a == "" {
      assert s[1..] == b;
    } else {
      assert s[1..] == a[1..] + [sep] + b;
      SplitAtSeparator(a[1..], b, sep);
      assert [a[0]] + a[1..] == a;
    }
  }

  /** Two parts mean exactly one separator, with the parts on its two sides. */
  lemma {:induction false} TwoParts(s: string, sep: char)
    requires |Split(s, sep)| == 2
    ensures var p := Split(s, sep); s == p[0] + [sep] + p[1] && sep !in p[0] && sep !in p[1]
  {
    if s != "" {
      if s[0] == sep {
        OnePart(s[1..], sep);
        assert s == [sep] + s[1..];
      } else {
        TwoParts(s[1..], sep);
        assert s == [s[0]] + s[1..];
      }
    }
  }

  lemma {:induction false} OnePart(s: string, sep: char)
    requires |Split(s, sep)| == 1
    ensures Split(s, sep) == [s] && sep !in s
  {
    if s != "" && s[0] != sep {
      OnePart(s[1..], sep);
      assert s == [s[0]] + s[1..];
    }
  }

  /** ParseMoney accepts exactly the fixed two-decimal format within range, tells
      a malformed text from one too large, and returns the amount written. */
  lemma ParseMoneyMeaning(value: string, currency: string)
    ensures var r := ParseMoney(value, currency);
            && (!WellFormed(value) <==> r == Err(InvalidMoneyFormat))
            && (WellFormed(value) && MinorUnits(value) > MAX_INT64 <==> r == Err(MoneyOverflow))
            && (WellFormed(value) && MinorUnits(value) <= MAX_INT64 <==> r.Ok?)
            && (r.Ok? ==> r.value.amount == MinorUnits(value) && r.value.currency == currency)
  {
    var parts := Split(value, '.');
    if WellFormed(value) {
      var whole, fraction := value[..|value| - 3], value[|value| - 2..];
      assert value == whole + ['.'] + fraction;
      SplitAtSeparator(whole, fraction, '.');
      SplitWithoutSeparator(fraction, '.');
      TwoDigitNumber(fraction);
      AmountFits(Number(whole), Number(fraction));
    } else if |parts| == 2 {
      TwoParts(value, '.');
      if |parts[1]| == 2 && parts[0] != "" {
        assert value[..|value| - 3] == parts[0] && value[|value| - 2..] == parts[1];
      }
    }
  }

  // ---- Printing and parsing undo each other

  lemma FormatIsWellFormed(m: Money)
    requires m.amount >= 0
    ensures WellFormed(Format(m)) && MinorUnits(Format(m)) == m.amount
  {
    var whole, fraction := Digits(m.amount / 100), TwoDigits(m.amount % 100);
    var s := Format(m);
    assert s[..|s| - 3] == whole && s[|s| - 2..] == fraction;
  }

  /** Every non-negative amount survives printing and parsing. */
  lemma ParseOfFormat(m: Money)
    requires m.amount >= 0
    ensures ParseMoney(Format(m), m.currency) == Ok(m)
  {
    FormatIsWellFormed(m);
    ParseMoneyMeaning(Format(m), m.currency);
  }

  function StripZeros(s: string): string {
    if |s| > 1 && s[0] == '0' then StripZeros(s[1..]) else s
  }

  lemma {:induction false} LeadingZero(s: string)
    requires AllDigits(s) && |s| > 1 && s[0] == '0'
    ensures AllDigits(s[1..]) && Number(s[1..]) == Number(s)
  {
    if |s| == 2 {
      assert s[..1][..0] == "" && s[1..][..0] == "";
    } else {
      LeadingZero(s[..|s| - 1]);
      assert s[1..][..|s| - 2] == s[..|s| - 1][1..];
    }
  }

  /** A digit string is the rendering of its number once leading zeros go. */
  lemma {:induction false} DigitsOfNumber(s: string)
    requires AllDigits(s)
    ensures Digits(Number(s)) == StripZeros(s)
  {
    if |s| > 1 && s[0] == '0' {
      LeadingZero(s);
      DigitsOfNumber(s[1..]);
    } else {
      DigitsOfCanonical(s);
    }
  }

  lemma {:induction false} DigitsOfCanonical(s: string)
    requires AllDigits(s) && (|s| > 1 ==> s[0] != '0')
    ensures Digits(Number(s)) == s
    ensures s[0] != '0' ==> Number(s) > 0
  {
    if |s| == 1 {
      assert s[..0] == "";
    } else {
      var init := s[..|s| - 1];
      DigitsOfCanonical(init);
      assert Number(s) / 10 == Number(init) && Number(s) % 10 == DigitValue(s[|s| - 1]);
    }
  }

  /** Printing a parsed text only strips leading zeros. */
  lemma FormatOfParse(value: string, currency: string)
    requires ParseMoney(value, currency).Ok?
    ensures WellFormed(value)
    ensures Format(ParseMoney(value, currency).value)
         == StripZeros(value[..|value| - 3]) + "." + value[|value| - 2..]
  {
    ParseMoneyMeaning(value, currency);
    var whole, fraction := value[..|value| - 3], value[|value| - 2..];
    TwoDigitNumber(fraction);
    DigitsOfNumber(whole);
    TwoDigitsOfNumber(fraction);
    var amount := MinorUnits(value);
    assert amount / 100 == Number(whole) && amount % 100 == Number(fraction);
  }

  lemma TwoDigitsOfNumber(s: string)
    requires |s| == 2 && AllDigits(s)
    ensures Number(s) < 100 && TwoDigits(Number(s)) == s
  {
    TwoDigitNumber(s);
  }

  function Unsigned(n: nat): string {
    Digits(n / 100) + "." + TwoDigits(n % 100)
  }

  lemma NegativeFormat(m: Money)
    requires m.amount < 0
    ensures Format(m) == "-" + Unsigned(0 - m.amount)
  {
    var n := 0 - m.amount;
    assert Quotient(m.amount, 100) == -(n / 100);
    assert -Remainder(m.amount, 100) == n % 100;
    if n / 100 == 0 {
      assert Digits(0) == "0";
    }
  }

  lemma UnsignedInjective(m: nat, n: nat)
    requires Unsigned(m) == Unsigned(n)
    ensures m == n
  {
    var s := Unsigned(m);
    assert s[..|s| - 3] == Digits(m / 100) && s[|s| - 2..] == TwoDigits(m % 100);
    assert s[..|s| - 3] == Digits(n / 100) && s[|s| - 2..] == TwoDigits(n % 100);
    assert m / 100 == n / 100 && m % 100 == n % 100;
  }

  lemma FirstCharacter(m: Money)
    ensures Format(m) != "" && (Format(m)[0] == '-' <==> m.amount < 0)
  {
    if m.amount < 0 {
      NegativeFormat(m);
    } else {
      assert Format(m)[0] == Digits(m.amount / 100)[0];
    }
  }

  /** No two amounts print alike, over the whole int64 range. */
  lemma FormatInjective(a: Money, b: Money)
    requires Format(a) == Format(b)
    ensures a.amount == b.amount
  {
    FirstCharacter(a);
    FirstCharacter(b);
    if a.amount >= 0 {
      UnsignedInjective(a.amount, b.amount);
    } else {
      NegativeFormat(a);
      NegativeFormat(b);
      assert Format(a)[1..] == Unsigned(0 - a.amount) && Format(b)[1..] == Unsigned(0 - b.amount);
      UnsignedInjective(0 - a.amount, 0 - b.amount);
    }
  }
}
