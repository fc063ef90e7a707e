/** The two datetime calls the budget code makes on month keys:
    datetime.strptime(s, "%Y-%m") and the "%Y-%m" formatting of a year and month. */
module PyTime {
  import opened Wrappers
  import opened PyText

  /** A calendar date, as datetime.date holds it. */
  datatype Date = Date(year: int, month: int, day: int)

  /** The range datetime.date allows. */
  predicate ValidDate(d: Date) {
    1 <= d.year <= 9999 && 1 <= d.month <= 12 && 1 <= d.day <= 31
  }

  /** f"{year:04d}-{month:02d}". strftime("%Y-%m") writes the same text where
      %Y zero-pads the year to four digits; YearMonthTextUnpadded is the
      strftime of platforms that do not pad it. */
  function YearMonthText(year: int, month: int): (r: string)
    ensures |r| >= 7
    ensures 0 <= year < 10000 && 0 <= month < 100 ==>
      |r| == 7 && r[..4] == FixedDigits(year, 4) && r[4] == '-' && r[5..] == FixedDigits(month, 2)
  {
    assert Pow10(4) == 10000 && Pow10(2) == 100;
    var y, m := FormatInt(year, 4), FormatInt(month, 2);
    if 0 <= year < 10000 && 0 <= month < 100 then
      NatToDigitsOrFixed(year, 4);
      NatToDigitsOrFixed(month, 2);
      var r := y + "-" + m;
      assert r[..4] == y && r[5..] == m;
      r
    else y + "-" + m
  }

  /** strftime("%Y-%m") where %Y writes the year's plain numeral, as glibc does:
      from year 1000 on this is the canonical key, below it the key is short. */
  function YearMonthTextUnpadded(year: nat, month: int): (r: string)
    ensures 1000 <= year <= 9999 && 0 <= month < 100 ==> r == YearMonthText(year, month)
    ensures 1 <= year < 1000 && 0 <= month < 100 ==> |r| <= 6 && !IsMonthKey(r)
  {
    var r := NatToDigits(year) + "-" + FormatInt(month, 2);
    if 1000 <= year <= 9999 && 0 <= month < 100 then
      assert Pow10(3) == 1000 && Pow10(4) == 10000;
      NatToDigitsFixed(year, 4);
      NatToDigitsOrFixed(year, 4);
      assert NatToDigits(year) == FormatInt(year, 4);
      r
    else if 1 <= year < 1000 && 0 <= month < 100 then
      assert Pow10(3) == 1000 && Pow10(2) == 100;
      NumeralShort(year, 3);
      NatToDigitsOrFixed(month, 2);
      r
    else r
  }

  /** The month field of strptime's "%m": "1".."9" or "01".."12". */
  function StrptimeMonth(s: string): (m: Option<int>)
    ensures m.Some? ==> 1 <= m.value <= 12
  {
    if |s| == 1 && '1' <= s[0] <= '9' then Some(DigitValue(s[0]))
    else if |s| == 2 && AllDigits(s) && 1 <= DigitsValue(s) <= 12 then Some(DigitsValue(s))
    else None
  }

  /** datetime.strptime(s, "%Y-%m") as (year, month): exactly four digits naming
      a year from 1, a '-', then a month; anything else (trailing text included)
      raises ValueError, modelled as None. */
  function StrptimeYearMonth(s: string): (r: Option<(int, int)>)
    ensures r.Some? ==> 1 <= r.value.0 <= 9999 && 1 <= r.value.1 <= 12
  {
    if |s| >= 5 && AllDigits(s[..4]) && s[4] == '-' && DigitsValue(s[..4]) >= 1 then
      FixedDigitsOfValue(s[..4]);
      match StrptimeMonth(s[5..])
      case Some(m) => Some((DigitsValue(s[..4]), m))
      case None => None
    else None
  }

  /** A canonical month key "YYYY-MM". */
  predicate IsMonthKey(s: string) {
    && |s| == 7 && AllDigits(s[..4]) && s[4] == '-' && AllDigits(s[5..])
    && DigitsValue(s[..4]) >= 1 && 1 <= DigitsValue(s[5..]) <= 12
  }

  /** Formatting a valid year and month gives a canonical key that strptime
      reads back as the same year and month. */
  lemma {:induction false} YearMonthTextRoundTrip(year: int, month: int)
    requires 1 <= year <= 9999 && 1 <= month <= 12
    ensures IsMonthKey(YearMonthText(year, month))
    ensures StrptimeYearMonth(YearMonthText(year, month)) == Some((year, month))
  {
    assert Pow10(4) == 10000 && Pow10(2) == 100;
    var y, m := FixedDigits(year, 4), FixedDigits(month, 2);
    var s := YearMonthText(year, month);
    assert s == y + "-" + m;
    assert s[..4] == y && s[5..] == m;
  }

  /** A canonical key is the formatting of the year and month strptime reads from it. */
  lemma {:induction false} MonthKeyRoundTrip(s: string)
    requires IsMonthKey(s)
    ensures StrptimeYearMonth(s).Some?
    ensures YearMonthText(StrptimeYearMonth(s).value.0, StrptimeYearMonth(s).value.1) == s
  {
    var y, m := s[..4], s[5..];
    FixedDigitsOfValue(y);
    FixedDigitsOfValue(m);
    assert StrptimeYearMonth(s) == Some((DigitsValue(y), DigitsValue(m)));
    assert s == y + "-" + m;
  }
}
