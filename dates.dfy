/**
 * `format_date`: a date given as text or as a timestamp, rendered as the
 * `YYYY-MM-DD` text the API expects.
 */
module Dates {
  import opened Wrappers
  import opened Errors

  /** The calendar date of a `pd.Timestamp`; `strftime('%Y-%m-%d')` reads nothing else. */
  datatype Timestamp = Timestamp(year: int, month: int, day: int)

  /** What a caller may hand to `format_date`: text, a timestamp, or any other value. */
  datatype DateInput = Text(text: string) | Stamp(stamp: Timestamp) | NotADate

  predicate IsLeapYear(y: int) {
    y % 4 == 0 && (y % 100 != 0 || y % 400 == 0)
  }

  /** Length of a month in the proleptic Gregorian calendar. */
  function DaysInMonth(y: int, m: int): int
    requires 1 <= m <= 12
  {
    if m == 2 then (if IsLeapYear(y) then 29 else 28)
    else if m == 4 || m == 6 || m == 9 || m == 11 then 30
    else 31
  }

  /** A real calendar date with a four-digit year. */
  predicate ValidDate(t: Timestamp) {
    1 <= t.year <= 9999 && 1 <= t.month <= 12 && 1 <= t.day <= DaysInMonth(t.year, t.month)
  }

  predicate IsDigit(c: char) {
    '0' <= c <= '9'
  }

  predicate AllDigits(s: string) {
    forall i :: 0 <= i < |s| ==> IsDigit(s[i])
  }

  function Pow10(n: nat): (r: nat)
    ensures r >= 1
  {
    if n == 0 then 1 else 10 * Pow10(n - 1)
  }

  /** The number a string of decimal digits denotes. */
  function Decimal(s: string): (r: nat)
    requires AllDigits(s)
    ensures r < Pow10(|s|)
  {
    if s == [] then 0
    else Decimal(s[..|s| - 1]) * 10 + (s[|s| - 1] as int - '0' as int)
  }

  /** `n` written with exactly `width` decimal digits, zero-padded on the left. */
  function Digits(n: nat, width: nat): (r: string)
    ensures |r| == width && AllDigits(r)
  {
    if width == 0 then ""
    else Digits(n / 10, width - 1) + [('0' as int + n % 10) as char]
  }

  /** The fixed output shape: four digits, `-`, two digits, `-`, two digits. */
  predicate IsIsoDate(s: string) {
    && |s| == 10
    && s[4] == '-' && s[7] == '-'
    && AllDigits(s[..4]) && AllDigits(s[5..7]) && AllDigits(s[8..])
  }

  /** `strftime('%Y-%m-%d')` of a timestamp. */
  function Strftime(t: Timestamp): (r: string)
    requires ValidDate(t)
    ensures IsIsoDate(r)
  {
    var r := Digits(t.year, 4) + "-" + Digits(t.month, 2) + "-" + Digits(t.day, 2);
    assert r[..4] == Digits(t.year, 4) && r[5..7] == Digits(t.month, 2) && r[8..] == Digits(t.day, 2);
    r
  }

  /**
   * `pd.Timestamp(text)` restricted to ISO calendar dates: the text must have
   * the `YYYY-MM-DD` shape and name a real date.
   */
  function ParseIso(s: string): (r: Option<Timestamp>)
    ensures r.Some? ==> ValidDate(r.value) && IsIsoDate(s)
  {
    if IsIsoDate(s) then
      var t := Timestamp(Decimal(s[..4]), Decimal(s[5..7]), Decimal(s[8..]));
      if ValidDate(t) then Some(t) else None
    else
      None
  }

  /**
   * `format_date`: a TypeError for anything but text or a timestamp, a
   * ValueError for text that does not parse, otherwise the date as
   * `YYYY-MM-DD`. A timestamp is always a real date, which the requires says.
   */
  function FormatDate(date: DateInput): (r: Result<string, Error>)
    requires date.Stamp? ==> ValidDate(date.stamp)
    ensures date.NotADate? ==> r == Failure(DateTypeError)
    ensures date.Text? ==> (r.Failure? <==> ParseIso(date.text).None?)
    ensures date.Text? && r.Failure? ==> r.error == InvalidDateFormat(date.text)
    ensures date.Stamp? ==> r.Success?
    ensures r.Success? ==> IsIsoDate(r.value)
  {
    match date
      case NotADate => Failure(DateTypeError)
      case Text(s) =>
        (match ParseIso(s)
           case None => Failure(InvalidDateFormat(s))
           case Some(t) => Success(Strftime(t)))
      case Stamp(t) => Success(Strftime(t))
  }

  /** Reading back zero-padded digits gives the number, when it fits the width. */
  lemma {:induction false} DecimalOfDigits(n: nat, width: nat)
    requires n < Pow10(width)
    ensures Decimal(Digits(n, width)) == n
  {
    if width > 0 {
      var d := Digits(n / 10, width - 1);
      DecimalOfDigits(n / 10, width - 1);
      assert Digits(n, width)[..width - 1] == d;
    }
  }

  /** Writing out a digit string's value at its own width gives the string back. */
  lemma {:induction false} DigitsOfDecimal(s: string)
    requires AllDigits(s)
    ensures Digits(Decimal(s), |s|) == s
  {
    if s != [] {
      var p := s[..|s| - 1];
      DigitsOfDecimal(p);
      var n := Decimal(s);
      assert n / 10 == Decimal(p) && n % 10 == s[|s| - 1] as int - '0' as int;
      assert s == p + [s[|s| - 1]];
    }
  }

  /** Every valid timestamp survives the trip through its text. */
  lemma ParseStrftime(t: Timestamp)
    requires ValidDate(t)
    ensures ParseIso(Strftime(t)) == Some(t)
  {
    var s := Strftime(t);
    assert s[..4] == Digits(t.year, 4) && s[5..7] == Digits(t.month, 2) && s[8..] == Digits(t.day, 2);
    DecimalOfDigits(t.year, 4);
    DecimalOfDigits(t.month, 2);
    DecimalOfDigits(t.day, 2);
  }

  /** Text that parses is already in the canonical form the formatter emits. */
  lemma StrftimeParse(s: string)
    requires ParseIso(s).Some?
    ensures Strftime(ParseIso(s).value) == s
  {
    var y, m, d := s[..4], s[5..7], s[8..];
    DigitsOfDecimal(y);
    DigitsOfDecimal(m);
    DigitsOfDecimal(d);
    IsoFields(s);
  }

  /** An ISO date is its three fields joined by dashes. */
  lemma IsoFields(s: string)
    requires |s| == 10 && s[4] == '-' && s[7] == '-'
    ensures s == s[..4] + "-" + s[5..7] + "-" + s[8..]
  {
  }

  /** Text and a timestamp for the same date format alike. */
  lemma TextAndStampAgree(s: string, t: Timestamp)
    requires ParseIso(s) == Some(t)
    ensures FormatDate(Text(s)) == FormatDate(Stamp(t)) == Success(s)
  {
    StrftimeParse(s);
  }

  /** Formatting is idempotent: its output, formatted again, is unchanged. */
  lemma FormatDateIdempotent(date: DateInput)
    requires date.Stamp? ==> ValidDate(date.stamp)
    requires FormatDate(date).Success?
    ensures FormatDate(Text(FormatDate(date).value)) == FormatDate(date)
  {
    match date
      case Text(s) =>
        StrftimeParse(s);
      case Stamp(t) =>
        ParseStrftime(t);
  }

  /** The examples the test suite checks. */
  lemma FormatDateExamples(good: string, t: Timestamp, bad: string)
    requires good == "2023-01-01" && t == Timestamp(2023, 1, 1) && bad == "invalid_date"
    ensures FormatDate(Text(good)) == FormatDate(Stamp(t)) == Success(good)
    ensures FormatDate(Text(bad)) == Failure(InvalidDateFormat(bad))
    ensures FormatDate(NotADate) == Failure(DateTypeError)
  {
    FormatStampExample(t, good);
    ParseStrftime(t);
    TextAndStampAgree(good, t);
    assert |bad| == 12;
  }

  /** The timestamps of the test suite format as their ISO dates. */
  lemma FormatStampExample(t: Timestamp, s: string)
    requires || (t == Timestamp(2023, 1, 1) && s == "2023-01-01")
             || (t == Timestamp(2023, 12, 31) && s == "2023-12-31")
    ensures FormatDate(Stamp(t)) == Success(s)
  {
    DigitsExamples();
    assert Strftime(t) == s;
  }

  /** The zero-padded fields of those timestamps. */
  lemma DigitsExamples()
    ensures Digits(2023, 4) == "2023"
    ensures Digits(1, 2) == "01" && Digits(12, 2) == "12" && Digits(31, 2) == "31"
  {
    DigitsOfYear();
    DigitsOfDay(1, "01");
    DigitsOfDay(12, "12");
    DigitsOfDay(31, "31");
  }

  lemma DigitsOfYear()
    ensures Digits(2023, 4) == "2023"
  {
    assert Digits(20, 2) == "20";
  }

  lemma DigitsOfDay(n: nat, s: string)
    requires (n == 1 && s == "01") || (n == 12 && s == "12") || (n == 31 && s == "31")
    ensures Digits(n, 2) == s
  {
  }
}
