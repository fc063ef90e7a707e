/** The logic of app.py around the store: the month-key normalisation, the
    pie-chart split of the dashboard, and the two request handlers with the
    request, the clock and the page rendering reduced to parameters and results. */
module App {
  import opened Wrappers
  import opened PyText
  import opened PyTime
  import opened Budget
  import opened Store

  /** normalize_month_key: the month a request asks for, as a canonical
      "YYYY-MM" key; a missing, empty or unreadable month gives today's month. */
  function NormalizeMonthKey(rawMonth: Option<string>, today: Date): (r: string)
    requires ValidDate(today)
    ensures IsMonthKey(r)
    ensures rawMonth.None? || rawMonth.value == "" ==> r == YearMonthText(today.year, today.month)
    ensures rawMonth.Some? && StrptimeYearMonth(rawMonth.value).None? ==> r == YearMonthText(today.year, today.month)
    ensures rawMonth.Some? && rawMonth.value != "" && StrptimeYearMonth(rawMonth.value).Some? ==>
              StrptimeYearMonth(r) == StrptimeYearMonth(rawMonth.value)
    ensures rawMonth.Some? && IsMonthKey(rawMonth.value) ==> r == rawMonth.value
  {
    var fallback := YearMonthText(today.year, today.month);
    YearMonthTextRoundTrip(today.year, today.month);
    if rawMonth.None? || rawMonth.value == "" then fallback
    else
      match StrptimeYearMonth(rawMonth.value)
      case None => fallback
      case Some((year, month)) =>
        YearMonthTextRoundTrip(year, month);
        if IsMonthKey(rawMonth.value) then MonthKeyRoundTrip(rawMonth.value); YearMonthText(year, month)
        else YearMonthText(year, month)
  }

  /** Normalising a normalised key changes nothing, whatever day it is. */
  lemma {:induction false} NormalizeMonthKeyIdempotent(rawMonth: Option<string>, today: Date, later: Date)
    requires ValidDate(today) && ValidDate(later)
    ensures NormalizeMonthKey(Some(NormalizeMonthKey(rawMonth, today)), later) == NormalizeMonthKey(rawMonth, today)
  {
  }

  /** The year of a canonical key, int(month_key[:4]). */
  function KeyYear(monthKey: string): (year: int)
    requires IsMonthKey(monthKey)
    ensures StrptimeYearMonth(monthKey).Some? && year == StrptimeYearMonth(monthKey).value.0
    ensures 1 <= year <= 9999
  {
    MonthKeyRoundTrip(monthKey);
    DigitsValue(monthKey[..4])
  }

  /** A canonical key is one of the twelve keys of its own year. */
  lemma {:induction false} KeyInItsYear(monthKey: string)
    requires IsMonthKey(monthKey)
    ensures monthKey in YearKeys(KeyYear(monthKey))
  {
    MonthKeyRoundTrip(monthKey);
    var (year, month) := StrptimeYearMonth(monthKey).value;
    assert year == KeyYear(monthKey) && 1 <= month <= 12;
    assert YearMonthText(year, month) == monthKey;
    assert YearKeys(year)[month - 1] == YearMonthText(year, month);
  }

  /** int(s) on text made of ASCII digits and '-', the only characters a
      formatted month key holds: a non-empty run of digits reads as its value,
      and any '-' raises ValueError, modelled as None. */
  function IntOfText(s: string): Option<int> {
    if |s| > 0 && AllDigits(s) then Some(DigitsValue(s)) else None
  }

  /** int(month_key[:4]) of every normalised key reads the key's year. */
  lemma {:induction false} NormalizedKeyYearReads(rawMonth: Option<string>, today: Date)
    requires ValidDate(today)
    ensures var k := NormalizeMonthKey(rawMonth, today);
      IntOfText(k[..4]) == Some(KeyYear(k))
  {
  }

  /** normalize_month_key as written, on a platform whose strftime does not
      zero-pad %Y: the key of a year below 1000 comes out short. */
  function NormalizeMonthKeyUnpadded(rawMonth: Option<string>, today: Date): (r: string)
    requires ValidDate(today)
    ensures today.year >= 1000 && (rawMonth.None? || rawMonth.value == "" || StrptimeYearMonth(rawMonth.value).None?)
      ==> r == NormalizeMonthKey(rawMonth, today)
  {
    var fallback := YearMonthTextUnpadded(today.year, today.month);
    if rawMonth.None? || rawMonth.value == "" then fallback
    else
      match StrptimeYearMonth(rawMonth.value)
      case None => fallback
      case Some((year, month)) => YearMonthTextUnpadded(year, month)
  }

  /** The unpadded key differs from the canonical one only for a year below
      1000, and then int(month_key[:4]) raises. */
  lemma {:induction false} UnpaddedDiffersOnlyBelowYear1000(rawMonth: Option<string>, today: Date)
    requires ValidDate(today) && today.year >= 1000
    ensures var k := NormalizeMonthKey(rawMonth, today);
      NormalizeMonthKeyUnpadded(rawMonth, today) != k ==>
        KeyYear(k) < 1000 && IntOfText(NormalizeMonthKeyUnpadded(rawMonth, today)[..4]) == None
  {
    var k := NormalizeMonthKey(rawMonth, today);
    var u := NormalizeMonthKeyUnpadded(rawMonth, today);
    if u != k {
      var (year, month) := StrptimeYearMonth(rawMonth.value).value;
      assert u == YearMonthTextUnpadded(year, month);
      assert StrptimeYearMonth(k) == Some((year, month));
      assert KeyYear(k) == year;
      if year >= 1000 {
        YearMonthTextRoundTrip(year, month);
        assert false;
      }
      ShortYearKeyUnreadable(year, month);
    }
  }

  /** The unpadded key of a year below 1000 has its '-' among the first four
      characters, so int(month_key[:4]) raises. */
  lemma {:induction false} ShortYearKeyUnreadable(year: nat, month: int)
    requires 1 <= year < 1000
    ensures |YearMonthTextUnpadded(year, month)| >= 4
    ensures IntOfText(YearMonthTextUnpadded(year, month)[..4]) == None
  {
    var d := NatToDigits(year);
    var u := YearMonthTextUnpadded(year, month);
    assert Pow10(3) == 1000;
    NumeralShort(year, 3);
    assert u == d + "-" + FormatInt(month, 2);
    assert |FormatInt(month, 2)| >= 2;
    assert u[..4][|d|] == '-';
  }

  /** ?month=0999-01: strptime accepts it, the unpadded strftime writes
      "999-01", and int("999-") raises in both handlers; the padded key
      "0999-01" reads as the year 999. */
  lemma {:induction false} UnpaddedYearBreaksHandlers(today: Date)
    requires ValidDate(today)
    ensures StrptimeYearMonth("0999-01") == Some((999, 1))
    ensures NormalizeMonthKeyUnpadded(Some("0999-01"), today) == "999-01"
    ensures IntOfText(NormalizeMonthKeyUnpadded(Some("0999-01"), today)[..4]) == None
    ensures NormalizeMonthKey(Some("0999-01"), today) == "0999-01"
    ensures IntOfText(NormalizeMonthKey(Some("0999-01"), today)[..4]) == Some(999)
  {
    var s := "0999-01";
    CanonicalKeyOf999();
    NormalizedKeyYearReads(Some(s), today);
    UnpaddedKeyOf999();
  }

  lemma {:induction false} CanonicalKeyOf999()
    ensures IsMonthKey("0999-01") && StrptimeYearMonth("0999-01") == Some((999, 1))
  {
    var s := "0999-01";
    assert s[..4] == "0999" && s[5..] == "01";
    assert DigitsValue("0999") == 999 by {
      assert "0999"[..3] == "099" && "099"[..2] == "09" && "09"[..1] == "0" && "0"[..0] == "";
    }
    assert DigitsValue("01") == 1 by {
      assert "01"[..1] == "0" && "0"[..0] == "";
    }
  }

  lemma {:induction false} UnpaddedKeyOf999()
    ensures YearMonthTextUnpadded(999, 1) == "999-01"
    ensures IntOfText("999-01"[..4]) == None
  {
    NumeralOf999();
    TwoDigitsOf1();
    assert NatToDigits(999) + "-" + FormatInt(1, 2) == "999-01";
    ShortKeyUnreadable();
  }

  lemma {:induction false} NumeralOf999()
    ensures NatToDigits(999) == "999"
  {
    assert 999 / 10 == 99 && 999 % 10 == 9 && 99 / 10 == 9 && 99 % 10 == 9;
    assert NatToDigits(9) == "9";
    assert NatToDigits(99) == NatToDigits(9) + "9";
  }

  lemma {:induction false} TwoDigitsOf1()
    ensures FormatInt(1, 2) == "01"
  {
    NatToDigitsOrFixed(1, 2);
    assert FixedDigits(0, 1) == FixedDigits(0, 0) + "0";
    assert FixedDigits(1, 2) == FixedDigits(0, 1) + "1";
  }

  lemma {:induction false} ShortKeyUnreadable()
    ensures IntOfText("999-01"[..4]) == None
  {
    var y := "999-01"[..4];
    assert y[3] == '-';
    assert !AllDigits(y);
  }

  /** The dashboard's pie_chart. */
  datatype PieChart = PieChart(
    incomeAmount: real,
    expenseAmount: real,
    savingsAmount: real,
    incomePct: real,
    expensePct: real,
    savingsPct: real,
    expenseEnd: real,
    hasData: bool)

  /** max(x, 0.0): x unless 0.0 is greater. */
  function ClampAtZero(x: real): (r: real)
    ensures r >= 0.0 && r >= x
    ensures r == x || r == 0.0
  {
    if 0.0 > x then 0.0 else x
  }

  /** The pie-chart split of the take-home, the expenses and the savings: each
      clamped at zero, then as percentages of their total when it is positive. */
  function SplitPieChart(takeHome: real, expenses: real, savings: real): (p: PieChart)
    ensures p.incomeAmount == ClampAtZero(takeHome)
    ensures p.expenseAmount == ClampAtZero(expenses)
    ensures p.savingsAmount == ClampAtZero(savings)
    ensures p.hasData <==> p.incomeAmount > 0.0 || p.expenseAmount > 0.0 || p.savingsAmount > 0.0
    ensures p.hasData ==> 0.0 <= p.incomePct <= 100.0 && 0.0 <= p.expensePct <= 100.0 && 0.0 <= p.savingsPct <= 100.0
    ensures p.hasData ==> p.incomePct + p.expensePct + p.savingsPct == 100.0
    ensures !p.hasData ==> p.incomePct == 0.0 && p.expensePct == 0.0 && p.savingsPct == 0.0
    ensures p.expenseEnd == p.incomePct + p.expensePct
  {
    var incomeAmount := ClampAtZero(takeHome);
    var expenseAmount := ClampAtZero(expenses);
    var savingsAmount := ClampAtZero(savings);
    var chartTotal := incomeAmount + expenseAmount + savingsAmount;
    if chartTotal > 0.0 then
      var incomePct := (incomeAmount / chartTotal) * 100.0;
      var expensePct := (expenseAmount / chartTotal) * 100.0;
      var savingsPct := (savingsAmount / chartTotal) * 100.0;
      PercentagesOfTotal(incomeAmount, expenseAmount, savingsAmount);
      PieChart(incomeAmount, expenseAmount, savingsAmount, incomePct, expensePct, savingsPct, incomePct + expensePct, true)
    else
      PieChart(incomeAmount, expenseAmount, savingsAmount, 0.0, 0.0, 0.0, 0.0, false)
  }

  /** Three non-negative amounts with a positive total, as percentages of that
      total, each lie in [0, 100] and add up to 100. */
  lemma {:induction false} PercentagesOfTotal(a: real, b: real, c: real)
    requires a >= 0.0 && b >= 0.0 && c >= 0.0 && a + b + c > 0.0
    ensures var t := a + b + c;
      0.0 <= (a / t) * 100.0 <= 100.0 && 0.0 <= (b / t) * 100.0 <= 100.0 && 0.0 <= (c / t) * 100.0 <= 100.0 &&
      (a / t) * 100.0 + (b / t) * 100.0 + (c / t) * 100.0 == 100.0
  {
    var t := a + b + c;
    assert a / t + b / t + c / t == (a + b + c) / t;
    assert (a + b + c) / t == 1.0;
    assert a / t <= 1.0 by { assert a <= t; }
    assert b / t <= 1.0 by { assert b <= t; }
    assert c / t <= 1.0 by { assert c <= t; }
  }

  /** Two amounts as percentages of a positive total keep their ratio. */
  lemma {:induction false} PercentagesKeepRatio(a: real, b: real, t: real)
    requires t > 0.0
    ensures ((a / t) * 100.0) * b == ((b / t) * 100.0) * a
  {
    var x, y := a / t, b / t;
    assert a == x * t && b == y * t;
    calc {
      (x * 100.0) * b;
      (x * 100.0) * (y * t);
      (y * 100.0) * (x * t);
      (y * 100.0) * a;
    }
  }

  /** The slices keep the ratios of the amounts. */
  lemma {:induction false} PieChartProportional(takeHome: real, expenses: real, savings: real)
    ensures var p := SplitPieChart(takeHome, expenses, savings);
      p.incomePct * p.expenseAmount == p.expensePct * p.incomeAmount &&
      p.expensePct * p.savingsAmount == p.savingsPct * p.expenseAmount &&
      p.incomePct * p.savingsAmount == p.savingsPct * p.incomeAmount
  {
    var p := SplitPieChart(takeHome, expenses, savings);
    var i, e, s := p.incomeAmount, p.expenseAmount, p.savingsAmount;
    var t := i + e + s;
    if t > 0.0 {
      assert p.incomePct == (i / t) * 100.0 && p.expensePct == (e / t) * 100.0 && p.savingsPct == (s / t) * 100.0;
      PercentagesKeepRatio(i, e, t);
      PercentagesKeepRatio(e, s, t);
      PercentagesKeepRatio(i, s, t);
    }
  }

  /** The pie chart of a budget view's summary: the take-home, the expenses
      and the savings, each clamped at zero. */
  function PieChartOf(summary: Summary): (p: PieChart)
    ensures p.incomeAmount == ClampAtZero(summary.totalMonthlyTakeHome)
    ensures p.expenseAmount == ClampAtZero(summary.totalExpenses)
    ensures p.savingsAmount == ClampAtZero(summary.totalSavings)
    ensures p.hasData ==> p.incomePct + p.expensePct + p.savingsPct == 100.0
  {
    SplitPieChart(summary.totalMonthlyTakeHome, summary.totalExpenses, summary.totalSavings)
  }

  /** The values the save handler passes on: every field as the form sent it,
      and "0" for a field the form omits. */
  function FormPayload(form: map<string, string>): (payload: map<string, RawValue>)
    ensures payload.Keys == FieldKeySet()
    ensures forall k :: k in payload ==> payload[k] == Text(if k in form then form[k] else "0")
  {
    map k | k in FieldKeySet() :: Text(if k in form then form[k] else "0")
  }

  /** A field the form omits is saved as 0.0. */
  lemma {:induction false} OmittedFieldSavedAsZero(form: map<string, string>, k: string)
    requires k in FieldKeys && k !in form
    ensures k in NormalizeBudgetValues(FormPayload(form))
    ensures NormalizeBudgetValues(FormPayload(form))[k] == 0.0
  {
    ParseFloatZeroText();
  }

  /** The GET / handler: normalise the requested month, make sure its year has
      its twelve months, read the month's view and split its summary into the
      pie chart. */
  method Dashboard(db: BudgetDatabase, rawMonth: Option<string>, today: Date, now: Timestamp)
    returns (view: BudgetView, pieChart: PieChart)
    requires db.Valid() && ValidDate(today)
    modifies db`monthlyBudgets
    ensures db.Valid()
    ensures var monthKey := NormalizeMonthKey(rawMonth, today);
      db.monthlyBudgets == EnsureKeys(old(db.monthlyBudgets), YearKeys(KeyYear(monthKey)), now)
      && monthKey in db.monthlyBudgets
      && view == ViewOf(monthKey, db.monthlyBudgets[monthKey])
    ensures pieChart == PieChartOf(view.summary)
  {
    var monthKey := NormalizeMonthKey(rawMonth, today);
    var year := KeyYear(monthKey);
    db.EnsureYearHasMonths(year, now);
    KeyInItsYear(monthKey);
    MonthKeyRoundTrip(monthKey);
    var budget := db.GetMonthBudgetView(monthKey, now);
    view := budget.value;
    pieChart := PieChartOf(view.summary);
  }

  /** The POST /budget handler: normalise the month, make sure its year has its
      twelve months, save the form's values for the month and redirect to the
      month it saved. */
  method SaveBudget(db: BudgetDatabase, rawMonth: Option<string>, form: map<string, string>, today: Date, now: Timestamp)
    returns (redirectMonth: string)
    requires db.Valid() && ValidDate(today)
    modifies db`monthlyBudgets
    ensures db.Valid()
    ensures redirectMonth == NormalizeMonthKey(rawMonth, today)
    ensures db.monthlyBudgets
         == Upsert(EnsureKeys(old(db.monthlyBudgets), YearKeys(KeyYear(redirectMonth)), now),
                   redirectMonth, NormalizeBudgetValues(FormPayload(form)), now)
  {
    var monthKey := NormalizeMonthKey(rawMonth, today);
    db.EnsureYearHasMonths(KeyYear(monthKey), now);
    var _ := db.SaveMonthBudget(monthKey, FormPayload(form), now);
    redirectMonth := monthKey;
  }
}
