/**
 * `java.time.LocalDate` values and `LocalDate.toString`, which writes the
 * ISO-8601 calendar date (`yyyy-MM-dd` for years 0 to 9999).
 */
module Dates {
  import opened Results
  import opened Decimal

  datatype LocalDate = LocalDate(year: int, month: int, day: int)

  const MinYear := -999_999_999
  const MaxYear := 999_999_999

  /** `IsoChronology.isLeapYear`: the proleptic Gregorian rule. */
  predicate IsLeap(year: int) {
    year % 4 == 0 && (year % 100 != 0 || year % 400 == 0)
  }

  function LengthOfMonth(year: int, month: int): int {
    if month == 2 then (if IsLeap(year) then 29 else 28)
    else if month == 4 || month == 6 || month == 9 || month == 11 then 30
    else 31
  }

  /** The dates a `LocalDate` can hold. */
  predicate Valid(d: LocalDate) {
    MinYear <= d.year <= MaxYear && 1 <= d.month <= 12 && 1 <= d.day <= LengthOfMonth(d.year, d.month)
  }

  type Date = d: LocalDate | Valid(d) witness LocalDate(1970, 1, 1)

  function Abs(n: int): nat { if n < 0 then -n else n }

  /** `StringBuilder.deleteCharAt`. */
  function DeleteAt(s: string, k: nat): string
    requires k < |s|
  {
    s[..k] + s[k + 1..]
  }

  /**
   * The year part of `LocalDate.toString`: years below 1000 in magnitude are
   * zero-padded to four digits by printing year ± 10000 and deleting the
   * leading `1`; years above 9999 get a `+` sign.
   */
  function YearText(year: int): string {
    if Abs(year) < 1000 then
      if year < 0 then DeleteAt(IntToString(year - 10000), 1)
      else DeleteAt(IntToString(year + 10000), 0)
    else
      (if year > 9999 then "+" else "") + IntToString(year)
  }

  /** A month or day field: `-0` before a single digit, `-` otherwise. */
  function FieldText(v: int): string {
    (if v < 10 then "-0" else "-") + IntToString(v)
  }

  /** `LocalDate.toString`. */
  function ToIsoString(d: LocalDate): string {
    YearText(d.year) + FieldText(d.month) + FieldText(d.day)
  }

  /** Reads a `yyyy-MM-dd` string back into its three fields. */
  function ParseIsoDate(s: string): Option<LocalDate> {
    if |s| == 10 && s[4] == '-' && s[7] == '-'
       && AllDigits(s[..4]) && AllDigits(s[5..7]) && AllDigits(s[8..])
    then Some(LocalDate(ParseDigits(s[..4]), ParseDigits(s[5..7]), ParseDigits(s[8..])))
    else None
  }

  /** The shape a date string has for years 0 to 9999: four digits, `-`, two digits, `-`, two digits. */
  predicate IsIsoShaped(s: string) {
    |s| == 10 && s[4] == '-' && s[7] == '-'
    && forall i :: 0 <= i < 10 && i != 4 && i != 7 ==> IsDigit(s[i])
  }

  lemma Pow10Values()
    ensures Pow10(1) == 10 && Pow10(2) == 100 && Pow10(3) == 1000 && Pow10(4) == 10000
  {
    assert Pow10(1) == 10;
    assert Pow10(2) == 100;
    assert Pow10(3) == 1000;
  }

  /** Years 0 to 9999 are written as exactly four digits that read back as the year. */
  lemma YearTextFourDigits(year: int)
    requires 0 <= year <= 9999
    ensures |YearText(year)| == 4 && AllDigits(YearText(year))
    ensures ParseDigits(YearText(year)) == year
  {
    Pow10Values();
    if year < 1000 {
      var s := NatToString(year + 10000);
      NatToStringLength(year + 10000, 4);
      NatToStringRoundTrip(year + 10000);
      ParseDigitsFirst(s);
      var rest := s[1..];
      assert AllDigits(rest);
      ParseDigitsBound(rest);
      assert DigitValue(s[0]) == 1;
      assert YearText(year) == rest;
    } else {
      NatToStringLength(year, 3);
      NatToStringRoundTrip(year);
      assert YearText(year) == "" + NatToString(year) == NatToString(year);
    }
  }

  /** Fields 1 to 99 are written as `-` and exactly two digits that read back as the field. */
  lemma FieldTextTwoDigits(v: int)
    requires 1 <= v <= 99
    ensures |FieldText(v)| == 3 && FieldText(v)[0] == '-'
    ensures AllDigits(FieldText(v)[1..]) && ParseDigits(FieldText(v)[1..]) == v
  {
    Pow10Values();
    var digits := NatToString(v);
    NatToStringRoundTrip(v);
    if v < 10 {
      NatToStringLength(v, 0);
      LeadingZero(digits);
      assert FieldText(v)[1..] == "0" + digits;
    } else {
      NatToStringLength(v, 1);
      assert FieldText(v)[1..] == digits;
    }
  }

  /**
   * For years 0 to 9999 `LocalDate.toString` yields a ten-character
   * `yyyy-MM-dd` string, and reading it back gives the same date.
   */
  lemma IsoStringRoundTrip(d: Date)
    requires 0 <= d.year <= 9999
    ensures IsIsoShaped(ToIsoString(d))
    ensures ParseIsoDate(ToIsoString(d)) == Some(d)
  {
    var y, m, dd := YearText(d.year), FieldText(d.month), FieldText(d.day);
    YearTextFourDigits(d.year);
    FieldTextTwoDigits(d.month);
    FieldTextTwoDigits(d.day);
    var s := ToIsoString(d);
    assert s == y + m + dd;
    assert s[..4] == y;
    assert s[5..7] == m[1..];
    assert s[8..] == dd[1..];
    assert s[4] == m[0] && s[7] == dd[0];
    forall i | 0 <= i < 10 && i != 4 && i != 7
      ensures IsDigit(s[i])
    {
      if i < 4 {
        assert s[i] == y[i];
      } else if i < 7 {
        assert s[i] == m[1..][i - 5];
      } else {
        assert s[i] == dd[1..][i - 8];
      }
    }
  }

  /** Past year 9999 the text grows a `+` sign and is no longer ten characters long. */
  lemma YearTenThousand()
    ensures ToIsoString(LocalDate(10000, 1, 1)) == "+10000-01-01"
  {
    Pow10Values();
    assert NatToString(1) == "1";
    assert NatToString(10) == "10";
    assert NatToString(100) == "100";
    assert NatToString(1000) == "1000";
    assert NatToString(10000) == "10000";
  }
}
