/**
 * Display formatting of amounts and dates (`toCurrency`, `toDateFmt`), with
 * the readers that recover the value from the text.
 */
module Format {
  import opened Objects
  import opened Strings
  import opened Calendar

  const CURRENCY_SIGN := "$"

  /**
   * `toCurrency(num)` for an integer amount. `Number(num).toFixed(0)` is the
   * decimal text of an integer of magnitude below 2^53, with a minus sign
   * when it is negative.
   */
  function ToCurrency(amount: int): string
  {
    CURRENCY_SIGN + IntText(amount)
  }

  /**
   * The text of `ToCurrency` is the sign followed by the digits, with a minus
   * sign first for a negative amount and no leading zero unless it is `$0`.
   */
  lemma CurrencyShape(amount: int)
    ensures var s := ToCurrency(amount);
      && |s| >= 2 && s[0] == '$'
      && (forall i :: 1 <= i < |s| ==> IsDigit(s[i]) || (i == 1 && s[i] == '-'))
      && (s[1] == '-' <==> amount < 0)
      && (s[1] == '0' ==> s == "$0")
      && (amount < 0 ==> |s| >= 3 && s[2] != '0')
  {
    var s := ToCurrency(amount);
    assert s[1..] == IntText(amount);
    IntTextDigits(amount);
  }

  function ParseCurrency(s: string): Option<int>
  {
    if |s| > 0 && s[0] == '$' then ParseInt(s[1..]) else None
  }

  /** The amount can be read back from its currency text, so distinct amounts display differently. */
  lemma CurrencyRoundTrip(amount: int)
    ensures ParseCurrency(ToCurrency(amount)) == Some(amount)
  {
    assert ToCurrency(amount)[1..] == IntText(amount);
    IntTextRoundTrip(amount);
  }

  /** `("0" + n).slice(-2)`: the last two characters of `n` with a zero put in front. */
  function Pad2(n: nat): string
  {
    var t := "0" + NatText(n);
    t[|t| - 2..]
  }

  /** The number two digits denote. */
  lemma DigitsValuePair(a: char, b: char)
    requires IsDigit(a) && IsDigit(b)
    ensures AllDigits([a, b]) && DigitsValue([a, b]) == DigitValue(a) * 10 + DigitValue(b)
  {
    assert AllDigits([a]) && [a][..0] == [] && DigitsValue([a]) == DigitValue(a);
    assert [a, b][..1] == [a] && [a, b][1] == b;
  }

  /** The padded text is two digits, and for a number below 100 they read back as the number. */
  lemma Pad2Digits(n: nat)
    ensures |Pad2(n)| == 2 && AllDigits(Pad2(n))
    ensures n < 100 ==> DigitsValue(Pad2(n)) == n
  {
    NatTextDigits(n);
    var u := NatText(n);
    var t := "0" + u;
    assert t[1..] == u;
    forall i | 0 <= i < |t| ensures IsDigit(t[i]) {
      if i > 0 {
        assert t[i] == u[i - 1];
      }
    }
    var s := t[|t| - 2..];
    assert s == Pad2(n) && |s| == 2 && s == [s[0], s[1]];
    assert IsDigit(s[0]) && IsDigit(s[1]);
    if n < 10 {
      assert u == [DigitChar(n)];
      assert s == ['0', DigitChar(n)];
      DigitsValuePair('0', DigitChar(n));
    } else if n < 100 {
      assert NatText(n / 10) == [DigitChar(n / 10)];
      assert u == [DigitChar(n / 10), DigitChar(n % 10)];
      assert s == u;
      DigitsValuePair(DigitChar(n / 10), DigitChar(n % 10));
    }
  }

  /** A calendar date as MM/DD/YYYY: two digits of month, two of day, and the full year. */
  function DateText(c: Civil): string
  {
    Pad2(c.month) + "/" + Pad2(c.day) + "/" + IntText(c.year)
  }

  /** `toDateFmt(date)`. */
  function ToDateFmt(d: int): string
  {
    DateText(CivilFromDays(d))
  }

  /** The three fields of the text. */
  lemma DateTextFields(c: Civil)
    ensures |DateText(c)| >= 7 && DateText(c)[2] == '/' && DateText(c)[5] == '/'
    ensures DateText(c)[..2] == Pad2(c.month)
    ensures DateText(c)[3..5] == Pad2(c.day)
    ensures DateText(c)[6..] == IntText(c.year)
  {
    Pad2Digits(c.month);
    Pad2Digits(c.day);
  }

  /** The text of a valid date: the month reads as 1 to 12 and the day as a day of that month. */
  lemma DateTextShape(c: Civil)
    requires Valid(c)
    ensures var s := DateText(c);
      && |s| >= 7 && s[2] == '/' && s[5] == '/'
      && AllDigits(s[..2]) && AllDigits(s[3..5])
      && DigitsValue(s[..2]) == c.month && DigitsValue(s[3..5]) == c.day
      && 1 <= c.month <= 12 && 1 <= c.day <= DaysInMonth(c.year, c.month)
  {
    DaysInMonthRange(c.year, c.month);
    DateTextFields(c);
    Pad2Digits(c.month);
    Pad2Digits(c.day);
  }

  /** The year field of the text: the year's digits, without a leading zero unless it is `0`. */
  lemma DateTextYear(c: Civil)
    ensures var s := DateText(c);
      && |s| >= 7
      && s[6..] == IntText(c.year)
      && ParseInt(s[6..]) == Some(c.year)
      && (forall i :: 6 <= i < |s| ==> IsDigit(s[i]) || (i == 6 && s[i] == '-'))
      && (s[6] == '0' ==> s[6..] == "0")
      && (s[6] == '-' ==> |s| >= 8 && s[7] != '0')
  {
    var s := DateText(c);
    DateTextFields(c);
    IntTextDigits(c.year);
    IntTextRoundTrip(c.year);
    var y := IntText(c.year);
    assert s[6..] == y;
    forall i | 6 <= i < |s|
      ensures IsDigit(s[i]) || (i == 6 && s[i] == '-')
    {
      assert s[i] == y[i - 6];
    }
    assert s[6] == y[0];
    if s[6] == '-' {
      assert s[7] == y[1];
    }
  }

  /**
   * The text of `ToDateFmt` is two digits of month, a slash, two digits of
   * day, a slash and the year; the month reads as 1 to 12, the day as a day
   * of that month, and the year text is the year's digits, after a minus
   * sign for a negative year, with no leading zero unless the year is 0.
   */
  lemma DateFmtShape(d: int)
    ensures var s := ToDateFmt(d);
      && |s| >= 7 && s[2] == '/' && s[5] == '/'
      && AllDigits(s[..2]) && AllDigits(s[3..5])
      && 1 <= DigitsValue(s[..2]) <= 12
      && 1 <= DigitsValue(s[3..5]) <= DaysInMonth(CivilFromDays(d).year, DigitsValue(s[..2]))
      && s[6..] == IntText(CivilFromDays(d).year)
      && ParseInt(s[6..]) == Some(CivilFromDays(d).year)
      && (forall i :: 6 <= i < |s| ==> IsDigit(s[i]) || (i == 6 && s[i] == '-'))
      && (s[6] == '0' ==> s[6..] == "0")
      && (s[6] == '-' ==> |s| >= 8 && s[7] != '0')
  {
    CivilValid(d);
    DateTextShape(CivilFromDays(d));
    DateTextYear(CivilFromDays(d));
  }

  /** Reads MM/DD/YYYY (a year of any number of digits, possibly negative) back into a date. */
  function ParseDateFmt(s: string): Option<Civil>
  {
    if |s| >= 7 && s[2] == '/' && s[5] == '/' && AllDigits(s[..2]) && AllDigits(s[3..5]) then
      match ParseInt(s[6..])
      case Some(y) => Some(Civil(y, DigitsValue(s[..2]), DigitsValue(s[3..5])))
      case None => None
    else None
  }

  /** The reader on any text with the three fields in place. */
  lemma ParseDateFmtFields(s: string, y: int, m: nat, d: nat)
    requires |s| >= 7 && s[2] == '/' && s[5] == '/'
    requires AllDigits(s[..2]) && DigitsValue(s[..2]) == m
    requires AllDigits(s[3..5]) && DigitsValue(s[3..5]) == d
    requires ParseInt(s[6..]) == Some(y)
    ensures ParseDateFmt(s) == Some(Civil(y, m, d))
  {
  }

  /** A date whose month and day have at most two digits, as every valid date's do, is read back from its text. */
  lemma DateTextRoundTrip(c: Civil)
    requires c.month < 100 && c.day < 100
    ensures ParseDateFmt(DateText(c)) == Some(c)
  {
    var s := DateText(c);
    DateTextFields(c);
    Pad2Digits(c.month);
    Pad2Digits(c.day);
    IntTextRoundTrip(c.year);
    ParseDateFmtFields(s, c.year, c.month, c.day);
  }

  /** The formatted text of a day determines its calendar date. */
  lemma DateFmtRoundTrip(d: int)
    ensures ParseDateFmt(ToDateFmt(d)) == Some(CivilFromDays(d))
  {
    CivilValid(d);
    DaysInMonthRange(CivilFromDays(d).year, CivilFromDays(d).month);
    DateTextRoundTrip(CivilFromDays(d));
  }

  /** Distinct days have distinct formatted texts. */
  lemma DateFmtInjective(d1: int, d2: int)
    requires ToDateFmt(d1) == ToDateFmt(d2)
    ensures d1 == d2
  {
    DateFmtRoundTrip(d1);
    DateFmtRoundTrip(d2);
    CivilInjective(d1, d2);
  }
}
