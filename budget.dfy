/** The budget fields, the normalisation of raw form or stored values into
    amounts, and the summary arithmetic of src/db.py. Amounts are reals. */
module Budget {
  import opened Wrappers
  import opened PyText
  import opened PyFloat

  // ---- The fixed field set ----

  // The groups the summary adds up, each listed in the order the summary adds it.
  const IncomeFields: seq<string> := ["salary", "stock", "interest_income_dividends"]
  const RetirementField: string := "monthly_401k_contribution"
  const TaxFields: seq<string> := ["monthly_federal_taxes", "monthly_state_taxes", "monthly_city_taxes"]
  const IrresponsibleFields: seq<string> := ["fun_random", "alcohol", "ubers", "other"]
  const ResponsibleFields: seq<string> := [
    "rent", "groceries", "utilities", "student_loans", "credit_card_debt",
    "robinhood", "laundry", "car", "public_transportation", "dog_care"
  ]
  const SavingsFields: seq<string> := ["savings_401k", "savings_cash", "savings_roth_ira", "savings_stocks"]
  const BonusFields: seq<string> := [
    "eating_out_restaurants", "travel", "gym_fitness", "bathhouse", "hair",
    "nails", "skincare", "clothes", "coffee"
  ]

  /** Every field after the 401k contribution and the three taxes is money spent or saved. */
  const SpendingFields: seq<string> := IrresponsibleFields + ResponsibleFields + SavingsFields + BonusFields

  /** BUDGET_FIELD_KEYS: the source lists the groups above end to end, in this order. */
  const FieldKeys: seq<string> := IncomeFields + [RetirementField] + TaxFields + SpendingFields

  /** There are 34 fields, no name listed twice, the three income fields first
      and the spending and saving fields last. */
  lemma {:induction false} FieldCount()
    ensures |FieldKeys| == 34 && |FieldKeySet()| == 34
    ensures FieldKeys[..3] == IncomeFields && FieldKeys[3] == RetirementField
    ensures FieldKeys[7..] == SpendingFields
  {
    assert FieldKeys == (IncomeFields + [RetirementField] + TaxFields) + SpendingFields;
    FieldKeysDistinct();
    DistinctSize(FieldKeys);
  }

  /** The field names as a set: the keys of every normalised values map. */
  function FieldKeySet(): set<string> {
    set k | k in FieldKeys
  }

  // ---- No field is listed twice ----

  predicate NoDuplicates(s: seq<string>) {
    forall i, j :: 0 <= i < j < |s| ==> s[i] != s[j]
  }

  predicate Disjoint(a: seq<string>, b: seq<string>) {
    forall x :: x in a ==> x !in b
  }

  /** Two duplicate-free lists with no name in common concatenate to a
      duplicate-free list. */
  lemma {:induction false} NoDuplicatesAppend(a: seq<string>, b: seq<string>)
    requires NoDuplicates(a) && NoDuplicates(b) && Disjoint(a, b)
    ensures NoDuplicates(a + b)
  {
    var c := a + b;
    forall i, j | 0 <= i < j < |c| ensures c[i] != c[j] {
      if j < |a| {
      } else if i >= |a| {
        assert c[i] == b[i - |a|] && c[j] == b[j - |a|];
      } else {
        assert c[i] in a && c[j] == b[j - |a|];
      }
    }
  }

  /** A duplicate-free list has as many distinct names as entries. */
  lemma {:induction false} DistinctSize(s: seq<string>)
    requires NoDuplicates(s)
    ensures |(set x | x in s)| == |s|
  {
    if s != [] {
      var init, last := s[..|s| - 1], s[|s| - 1];
      assert NoDuplicates(init) by {
        forall i, j | 0 <= i < j < |init| ensures init[i] != init[j] {
          assert init[i] == s[i] && init[j] == s[j];
        }
      }
      DistinctSize(init);
      assert (set x | x in s) == (set x | x in init) + {last};
      assert last !in (set x | x in init);
    }
  }

  /** Within each group the names differ. */
  lemma {:induction false} GroupsHaveNoDuplicates()
    ensures NoDuplicates(IncomeFields) && NoDuplicates(TaxFields)
    ensures NoDuplicates(IrresponsibleFields) && NoDuplicates(SavingsFields)
    ensures NoDuplicates(ResponsibleFields) && NoDuplicates(BonusFields)
  {
    assert NoDuplicates(IncomeFields) && NoDuplicates(TaxFields);
    assert NoDuplicates(IrresponsibleFields) && NoDuplicates(SavingsFields);
    assert NoDuplicates(ResponsibleFields);
  }

  /** The income, 401k and tax fields share no name with one another. */
  lemma {:induction false} HeadGroupsDisjoint()
    ensures Disjoint(IncomeFields, [RetirementField]) && Disjoint(IncomeFields + [RetirementField], TaxFields)
  {
  }

  /** Nor with a spending group, one lemma per group. */
  lemma {:induction false} HeadNotIrresponsible()
    ensures Disjoint(IncomeFields + [RetirementField] + TaxFields, IrresponsibleFields)
  {
  }

  lemma {:induction false} HeadNotResponsible()
    ensures Disjoint(IncomeFields + [RetirementField] + TaxFields, ResponsibleFields)
  {
  }

  lemma {:induction false} HeadNotSavings()
    ensures Disjoint(IncomeFields + [RetirementField] + TaxFields, SavingsFields)
  {
  }

  lemma {:induction false} HeadNotBonus()
    ensures Disjoint(IncomeFields + [RetirementField] + TaxFields, BonusFields)
  {
  }

  /** No two spending groups share a name. */
  lemma {:induction false} IrresponsibleNotResponsible()
    ensures Disjoint(IrresponsibleFields, ResponsibleFields)
  {
  }

  lemma {:induction false} EarlierSpendingNotSavings()
    ensures Disjoint(IrresponsibleFields + ResponsibleFields, SavingsFields)
  {
  }

  lemma {:induction false} IrresponsibleNotBonus()
    ensures Disjoint(IrresponsibleFields, BonusFields)
  {
  }

  lemma {:induction false} ResponsibleNotBonus()
    ensures Disjoint(ResponsibleFields, BonusFields)
  {
    FirstResponsibleNotBonus();
    LastResponsibleNotBonus();
    forall x | x in ResponsibleFields ensures x !in BonusFields {
      var k :| 0 <= k < |ResponsibleFields| && ResponsibleFields[k] == x;
    }
  }

  lemma {:induction false} FirstResponsibleNotBonus()
    ensures forall k :: 0 <= k < 5 ==> ResponsibleFields[k] !in BonusFields
  {
  }

  lemma {:induction false} LastResponsibleNotBonus()
    ensures forall k :: 5 <= k < 10 ==> ResponsibleFields[k] !in BonusFields
  {
  }

  lemma {:induction false} SavingsNotBonus()
    ensures Disjoint(SavingsFields, BonusFields)
  {
  }

  /** BUDGET_FIELD_KEYS lists no name twice. */
  lemma {:induction false} FieldKeysDistinct()
    ensures NoDuplicates(FieldKeys)
  {
    GroupsHaveNoDuplicates();
    HeadGroupsDisjoint();
    HeadNotIrresponsible();
    HeadNotResponsible();
    HeadNotSavings();
    HeadNotBonus();
    IrresponsibleNotResponsible();
    EarlierSpendingNotSavings();
    IrresponsibleNotBonus();
    ResponsibleNotBonus();
    SavingsNotBonus();
    var head := IncomeFields + [RetirementField] + TaxFields;
    NoDuplicatesAppend(IncomeFields, [RetirementField]);
    NoDuplicatesAppend(IncomeFields + [RetirementField], TaxFields);
    NoDuplicatesAppend(IrresponsibleFields, ResponsibleFields);
    NoDuplicatesAppend(IrresponsibleFields + ResponsibleFields, SavingsFields);
    NoDuplicatesAppend(IrresponsibleFields + ResponsibleFields + SavingsFields, BonusFields);
    NoDuplicatesAppend(head, SpendingFields);
  }

  // ---- Values ----

  /** A value as it reaches the normalisation: a Python int or float, or the
      text str() gives for anything else (form input is always text). */
  datatype RawValue = Number(x: real) | Text(s: string)

  /** default_budget_values(): every field at 0.0. */
  function DefaultBudgetValues(): (m: map<string, real>)
    ensures m.Keys == FieldKeySet()
    ensures forall k :: k in m ==> m[k] == 0.0
  {
    map k | k in FieldKeySet() :: 0.0
  }

  /** The cleaning step of parse_float: every ',' and every '$' removed, then
      surrounding whitespace stripped. */
  function Clean(s: string): (r: string)
    ensures r == Strip(RemoveChar(RemoveChar(s, ','), '$'))
    ensures ',' !in r && '$' !in r
    ensures IsStripped(r)
  {
    var noCommas := RemoveChar(s, ',');
    var noSymbols := RemoveChar(noCommas, '$');
    RemoveCharKeepsAbsence(noCommas, '$', ',');
    StripKeepsAbsence(noSymbols, ',');
    StripKeepsAbsence(noSymbols, '$');
    Strip(noSymbols)
  }

  /** parse_float: a number is taken as it is; text is cleaned and read with
      float(), and empty or unreadable text gives 0.0. It never fails. */
  function ParseFloat(v: RawValue): (r: real)
    ensures v.Number? ==> r == v.x
    ensures v.Text? && Clean(v.s) == "" ==> r == 0.0
    ensures v.Text? && FloatOf(Clean(v.s)).None? ==> r == 0.0
    ensures v.Text? && FloatOf(Clean(v.s)).Some? ==> r == FloatOf(Clean(v.s)).value
  {
    match v
    case Number(x) => x
    case Text(s) =>
      var cleaned := Clean(s);
      if cleaned == "" then 0.0
      else FloatOf(cleaned).GetOr(0.0)
  }

  /** The value a missing field is looked up as: raw_values.get(field, 0). */
  function Lookup(raw: map<string, RawValue>, k: string): (v: RawValue)
    ensures k in raw ==> v == raw[k]
    ensures k !in raw ==> v == Number(0.0) && ParseFloat(v) == 0.0
  {
    if k in raw then raw[k] else Number(0.0)
  }

  /** normalize_budget_values: exactly the 34 fields, each parsed; a field the
      input lacks is 0.0 and a key outside the field list is dropped. */
  function NormalizeBudgetValues(raw: map<string, RawValue>): (m: map<string, real>)
    ensures m.Keys == FieldKeySet()
    ensures forall k :: k in m && k !in raw ==> m[k] == 0.0
    ensures forall k :: k in m && k in raw ==> m[k] == ParseFloat(raw[k])
  {
    map k | k in FieldKeySet() :: ParseFloat(Lookup(raw, k))
  }

  /** Amounts held as Python floats, seen again as raw values. */
  function Lift(values: map<string, real>): (raw: map<string, RawValue>)
    ensures raw.Keys == values.Keys
    ensures forall k :: k in raw ==> raw[k] == Number(values[k])
  {
    map k | k in values :: Number(values[k])
  }

  // ---- Properties of the normalisation ----

  /** Cleaning a cleaned string changes nothing. */
  lemma {:induction false} CleanIdempotent(s: string)
    ensures Clean(Clean(s)) == Clean(s)
  {
  }

  /** A ',' or '$' inserted anywhere in the text does not change the amount. */
  lemma {:induction false} ParseFloatIgnoresSeparator(a: string, b: string, c: char)
    requires c == ',' || c == '$'
    ensures ParseFloat(Text(a + [c] + b)) == ParseFloat(Text(a + b))
  {
    if c == ',' {
      RemoveCharIgnoresInsertion(a, b, ',');
    } else {
      RemoveCharAppend(a + ['$'], b, ',');
      RemoveCharAppend(a, ['$'], ',');
      RemoveCharAppend(a, b, ',');
      assert RemoveChar(['$'], ',') == ['$'];
      RemoveCharIgnoresInsertion(RemoveChar(a, ','), RemoveChar(b, ','), '$');
    }
  }

  /** Text with no ',' or '$' and no surrounding whitespace is already clean. */
  lemma {:induction false} CleanOfPlainText(s: string)
    requires ',' !in s && '$' !in s && IsStripped(s)
    ensures Clean(s) == s
  {
  }

  /** Reading the text of an integer gives that integer. */
  lemma {:induction false} ParseFloatIntText(n: int)
    ensures ParseFloat(Text(IntText(n))) == n as real
  {
    var d := NatToDigits(if n < 0 then -n else n);
    var t := IntText(n);
    assert forall i :: 0 <= i < |t| ==> t[i] == '-' || IsDigit(t[i]);
    assert IsStripped(t) by {
      assert t[|t| - 1] == d[|d| - 1];
    }
    CleanOfPlainText(t);
    FloatOfIntText(n);
  }

  /** "w.f" of two digit strings is already clean. */
  lemma {:induction false} DecimalTextIsClean(w: string, f: string)
    requires |w| >= 1 && AllDigits(w) && |f| >= 1 && AllDigits(f)
    ensures Clean(w + "." + f) == w + "." + f
  {
    var t := w + "." + f;
    assert forall i :: 0 <= i < |t| ==> t[i] == '.' || IsDigit(t[i]) by {
      assert forall i :: 0 <= i < |w| ==> t[i] == w[i];
      assert forall i :: |w| < i < |t| ==> t[i] == f[i - |w| - 1];
    }
    assert IsStripped(t) by {
      assert t[0] == w[0] && t[|t| - 1] == f[|f| - 1];
    }
    CleanOfPlainText(t);
  }

  /** Reading a decimal amount written "whole.frac" with k fraction digits
      gives whole + frac / 10^k. With ParseFloatIgnoresSeparator this covers
      currency text such as "$1,234.56". */
  lemma {:induction false} ParseFloatDecimalText(whole: nat, frac: nat, k: nat)
    requires 1 <= k && frac < Pow10(k)
    ensures ParseFloat(Text(NatToDigits(whole) + "." + FixedDigits(frac, k))) == DecimalValue(whole, frac, k)
  {
    DecimalTextIsClean(NatToDigits(whole), FixedDigits(frac, k));
    FloatOfDecimalText(whole, frac, k);
  }

  /** Blank text reads as zero without consulting the number grammar. */
  lemma {:induction false} ParseFloatBlankExample()
    ensures ParseFloat(Text("")) == 0.0
  {
    assert Clean("") == "";
  }

  /** Text that is not a number reads as zero. */
  lemma {:induction false} ParseFloatWordExample()
    ensures ParseFloat(Text("abc")) == 0.0
  {
    assert IsStripped("abc");
    CleanOfPlainText("abc");
    FloatOfWord();
  }

  /** The "0" an omitted form field defaults to reads as zero. */
  lemma {:induction false} ParseFloatZeroText()
    ensures ParseFloat(Text("0")) == 0.0
  {
    ParseFloatIntText(0);
    assert IntText(0) == "0";
  }

  /** Normalising values that are already normalised is a no-op. */
  lemma {:induction false} NormalizeIdempotent(raw: map<string, RawValue>)
    ensures NormalizeBudgetValues(Lift(NormalizeBudgetValues(raw))) == NormalizeBudgetValues(raw)
  {
    var m := NormalizeBudgetValues(raw);
    var m2 := NormalizeBudgetValues(Lift(m));
    assert forall k :: k in m2 ==> m2[k] == m[k];
  }

  /** Keys outside the field list do not influence the result. */
  lemma {:induction false} NormalizeIgnoresUnknownKey(raw: map<string, RawValue>, k: string, v: RawValue)
    requires k !in FieldKeys
    ensures NormalizeBudgetValues(raw[k := v]) == NormalizeBudgetValues(raw)
  {
    var a, b := NormalizeBudgetValues(raw[k := v]), NormalizeBudgetValues(raw);
    assert forall f :: f in a ==> Lookup(raw[k := v], f) == Lookup(raw, f);
  }

  /** Normalising nothing gives the default, all-zero values. */
  lemma {:induction false} NormalizeEmpty()
    ensures NormalizeBudgetValues(map[]) == DefaultBudgetValues()
  {
  }

  // ---- The summary ----

  /** The figures calculate_budget_summary derives, one per key of its result. */
  datatype Summary = Summary(
    annualPreTaxIncome: real,
    preTaxMonthlyIncome: real,
    monthlyTaxableIncome: real,
    monthlyTaxTotal: real,
    postTaxMonthlyTakeHome: real,
    totalAnnualTakeHome: real,
    totalMonthlyTakeHome: real,
    totalIrresponsible: real,
    totalResponsible: real,
    totalSavings: real,
    totalBonusSpending: real,
    totalExpenses: real,
    totalMonthlySpending: real,
    monthlyBuffer: real)

  /** Values holding every field, as calculate_budget_summary indexes them. */
  predicate HasAllFields(values: map<string, real>) {
    forall k :: k in FieldKeys ==> k in values
  }

  /** values[k] for a field k; every field is present in the values the
      summary is computed from, so the default is never used. */
  function Amount(values: map<string, real>, k: string): real {
    if k in values then values[k] else 0.0
  }

  /** salary + stock + interest_income_dividends */
  function AnnualPreTaxIncome(values: map<string, real>): (r: real)
  {
    Amount(values, "salary") + Amount(values, "stock") + Amount(values, "interest_income_dividends")
  }

  /** federal + state + city monthly taxes */
  function MonthlyTaxTotal(values: map<string, real>): (r: real)
  {
    Amount(values, "monthly_federal_taxes") + Amount(values, "monthly_state_taxes") + Amount(values, "monthly_city_taxes")
  }

  /** fun_random + alcohol + ubers + other */
  function TotalIrresponsible(values: map<string, real>): (r: real)
  {
    Amount(values, "fun_random") + Amount(values, "alcohol") + Amount(values, "ubers") + Amount(values, "other")
  }

  /** The ten fixed monthly costs, rent to dog_care. */
  function TotalResponsible(values: map<string, real>): (r: real)
  {
    Amount(values, "rent") + Amount(values, "groceries") + Amount(values, "utilities") + Amount(values, "student_loans")
    + Amount(values, "credit_card_debt") + Amount(values, "robinhood") + Amount(values, "laundry") + Amount(values, "car")
    + Amount(values, "public_transportation") + Amount(values, "dog_care")
  }

  /** The four savings fields. */
  function TotalSavings(values: map<string, real>): (r: real)
  {
    Amount(values, "savings_401k") + Amount(values, "savings_cash") + Amount(values, "savings_roth_ira") + Amount(values, "savings_stocks")
  }

  /** The nine discretionary fields, eating_out_restaurants to coffee. */
  function TotalBonusSpending(values: map<string, real>): (r: real)
  {
    Amount(values, "eating_out_restaurants") + Amount(values, "travel") + Amount(values, "gym_fitness") + Amount(values, "bathhouse")
    + Amount(values, "hair") + Amount(values, "nails") + Amount(values, "skincare") + Amount(values, "clothes") + Amount(values, "coffee")
  }

  /** calculate_budget_summary: a fixed linear transform of the field values. */
  function CalculateBudgetSummary(values: map<string, real>): (r: Summary)
    requires HasAllFields(values)
    ensures r.preTaxMonthlyIncome * 12.0 == r.annualPreTaxIncome
    ensures r.totalAnnualTakeHome == 12.0 * r.postTaxMonthlyTakeHome
    ensures r.totalMonthlyTakeHome == r.postTaxMonthlyTakeHome
    ensures r.totalExpenses == r.totalResponsible + r.totalBonusSpending + r.totalIrresponsible
    ensures r.totalMonthlySpending == r.totalExpenses + r.totalSavings
    ensures r.monthlyBuffer == r.totalMonthlyTakeHome - r.totalMonthlySpending
  {
    var annualPreTaxIncome := AnnualPreTaxIncome(values);
    var preTaxMonthlyIncome := annualPreTaxIncome / 12.0;
    var monthlyTaxableIncome := preTaxMonthlyIncome - Amount(values, RetirementField);
    var monthlyTaxTotal := MonthlyTaxTotal(values);
    var postTaxMonthlyTakeHome := monthlyTaxableIncome - monthlyTaxTotal;
    var totalAnnualTakeHome := postTaxMonthlyTakeHome * 12.0;
    var totalIrresponsible := TotalIrresponsible(values);
    var totalResponsible := TotalResponsible(values);
    var totalSavings := TotalSavings(values);
    var totalBonusSpending := TotalBonusSpending(values);
    var totalMonthlySpending := totalResponsible + totalBonusSpending + totalIrresponsible + totalSavings;
    var totalExpenses := totalResponsible + totalBonusSpending + totalIrresponsible;
    Summary(
      annualPreTaxIncome,
      preTaxMonthlyIncome,
      monthlyTaxableIncome,
      monthlyTaxTotal,
      postTaxMonthlyTakeHome,
      totalAnnualTakeHome,
      postTaxMonthlyTakeHome,
      totalIrresponsible,
      totalResponsible,
      totalSavings,
      totalBonusSpending,
      totalExpenses,
      totalMonthlySpending,
      postTaxMonthlyTakeHome - totalMonthlySpending)
  }

  /** The summary of all-zero values is all zeros; in particular the summary
      of default_budget_values(). */
  lemma {:induction false} ZeroSummary(values: map<string, real>)
    requires HasAllFields(values)
    requires forall k :: k in values ==> values[k] == 0.0
    ensures CalculateBudgetSummary(values)
         == Summary(0.0, 0.0, 0.0, 0.0, 0.0, 0.0, 0.0, 0.0, 0.0, 0.0, 0.0, 0.0, 0.0, 0.0)
  {
    assert forall k :: Amount(values, k) == 0.0;
  }

  /** A freshly created month has an all-zero summary. */
  lemma {:induction false} DefaultSummaryIsZero()
    ensures HasAllFields(DefaultBudgetValues())
    ensures CalculateBudgetSummary(DefaultBudgetValues())
         == Summary(0.0, 0.0, 0.0, 0.0, 0.0, 0.0, 0.0, 0.0, 0.0, 0.0, 0.0, 0.0, 0.0, 0.0)
  {
    ZeroSummary(DefaultBudgetValues());
  }

  /** A group whose every field is zero totals zero, one lemma per group. */
  lemma {:induction false} NoIrresponsibleSpending(values: map<string, real>)
    requires forall k :: k in IrresponsibleFields ==> Amount(values, k) == 0.0
    ensures TotalIrresponsible(values) == 0.0
  {
  }

  lemma {:induction false} NoResponsibleSpending(values: map<string, real>)
    requires forall k :: k in ResponsibleFields ==> Amount(values, k) == 0.0
    ensures TotalResponsible(values) == 0.0
  {
  }

  lemma {:induction false} NoSavings(values: map<string, real>)
    requires forall k :: k in SavingsFields ==> Amount(values, k) == 0.0
    ensures TotalSavings(values) == 0.0
  {
  }

  lemma {:induction false} NoBonusSpending(values: map<string, real>)
    requires forall k :: k in BonusFields ==> Amount(values, k) == 0.0
    ensures TotalBonusSpending(values) == 0.0
  {
  }

  /** With nothing spent or saved, every spending group totals zero. */
  lemma {:induction false} NothingSpent(values: map<string, real>)
    requires forall k :: k in SpendingFields ==> Amount(values, k) == 0.0
    ensures TotalIrresponsible(values) == 0.0 && TotalSavings(values) == 0.0
    ensures TotalResponsible(values) == 0.0
    ensures TotalBonusSpending(values) == 0.0
  {
    NoIrresponsibleSpending(values);
    NoResponsibleSpending(values);
    NoSavings(values);
    NoBonusSpending(values);
  }

  /** The worked example: a 120000 salary, a 500 contribution and taxes of
      800, 200 and 100, with nothing spent or saved, leave a take-home of 8400
      a month and a buffer of 8400. */
  lemma {:induction false} WorkedExampleSummary(values: map<string, real>)
    requires HasAllFields(values)
    requires Amount(values, "salary") == 120000.0 && Amount(values, "stock") == 0.0
    requires Amount(values, "interest_income_dividends") == 0.0
    requires Amount(values, RetirementField) == 500.0
    requires Amount(values, "monthly_federal_taxes") == 800.0
    requires Amount(values, "monthly_state_taxes") == 200.0
    requires Amount(values, "monthly_city_taxes") == 100.0
    requires forall k :: k in SpendingFields ==> Amount(values, k) == 0.0
    ensures var s := CalculateBudgetSummary(values);
      s.preTaxMonthlyIncome == 10000.0 && s.monthlyTaxableIncome == 9500.0 &&
      s.monthlyTaxTotal == 1100.0 && s.postTaxMonthlyTakeHome == 8400.0 &&
      s.totalExpenses == 0.0 && s.monthlyBuffer == 8400.0
  {
    NothingSpent(values);
    assert AnnualPreTaxIncome(values) == 120000.0;
    assert MonthlyTaxTotal(values) == 1100.0;
  }

  /** Field-by-field sum of two sets of values. */
  function AddValues(a: map<string, real>, b: map<string, real>): (c: map<string, real>)
    ensures c.Keys == a.Keys + b.Keys
  {
    map k | k in a.Keys + b.Keys :: Amount(a, k) + Amount(b, k)
  }

  /** Every amount of a sum is the sum of the amounts. */
  lemma {:induction false} AmountOfSum(a: map<string, real>, b: map<string, real>)
    ensures forall k :: Amount(AddValues(a, b), k) == Amount(a, k) + Amount(b, k)
  {
  }

  /** Figure-by-figure sum of two summaries. */
  function AddSummaries(s: Summary, t: Summary): Summary {
    Summary(
      s.annualPreTaxIncome + t.annualPreTaxIncome,
      s.preTaxMonthlyIncome + t.preTaxMonthlyIncome,
      s.monthlyTaxableIncome + t.monthlyTaxableIncome,
      s.monthlyTaxTotal + t.monthlyTaxTotal,
      s.postTaxMonthlyTakeHome + t.postTaxMonthlyTakeHome,
      s.totalAnnualTakeHome + t.totalAnnualTakeHome,
      s.totalMonthlyTakeHome + t.totalMonthlyTakeHome,
      s.totalIrresponsible + t.totalIrresponsible,
      s.totalResponsible + t.totalResponsible,
      s.totalSavings + t.totalSavings,
      s.totalBonusSpending + t.totalBonusSpending,
      s.totalExpenses + t.totalExpenses,
      s.totalMonthlySpending + t.totalMonthlySpending,
      s.monthlyBuffer + t.monthlyBuffer)
  }

  /** The income fields of a sum is the sum of the income fields. */
  lemma {:induction false} AnnualPreTaxIncomeAdditive(a: map<string, real>, b: map<string, real>)
    ensures AnnualPreTaxIncome(AddValues(a, b)) == AnnualPreTaxIncome(a) + AnnualPreTaxIncome(b)
  {
    AmountOfSum(a, b);
  }

  /** The taxes of a sum is the sum of the taxes. */
  lemma {:induction false} MonthlyTaxTotalAdditive(a: map<string, real>, b: map<string, real>)
    ensures MonthlyTaxTotal(AddValues(a, b)) == MonthlyTaxTotal(a) + MonthlyTaxTotal(b)
  {
    AmountOfSum(a, b);
  }

  /** The irresponsible spending of a sum is the sum of the irresponsible spending. */
  lemma {:induction false} TotalIrresponsibleAdditive(a: map<string, real>, b: map<string, real>)
    ensures TotalIrresponsible(AddValues(a, b)) == TotalIrresponsible(a) + TotalIrresponsible(b)
  {
    AmountOfSum(a, b);
  }

  /** The responsible spending of a sum is the sum of the responsible spending. */
  lemma {:induction false} TotalResponsibleAdditive(a: map<string, real>, b: map<string, real>)
    ensures TotalResponsible(AddValues(a, b)) == TotalResponsible(a) + TotalResponsible(b)
  {
    AmountOfSum(a, b);
  }

  /** The savings of a sum is the sum of the savings. */
  lemma {:induction false} TotalSavingsAdditive(a: map<string, real>, b: map<string, real>)
    ensures TotalSavings(AddValues(a, b)) == TotalSavings(a) + TotalSavings(b)
  {
    AmountOfSum(a, b);
  }

  /** The bonus spending of a sum is the sum of the bonus spending. */
  lemma {:induction false} TotalBonusSpendingAdditive(a: map<string, real>, b: map<string, real>)
    ensures TotalBonusSpending(AddValues(a, b)) == TotalBonusSpending(a) + TotalBonusSpending(b)
  {
    AmountOfSum(a, b);
  }

  /** The income and take-home figures are additive. */
  lemma {:induction false} IncomeFiguresAdditive(a: map<string, real>, b: map<string, real>)
    requires HasAllFields(a) && HasAllFields(b) && HasAllFields(AddValues(a, b))
    ensures var s, t, u := CalculateBudgetSummary(a), CalculateBudgetSummary(b), CalculateBudgetSummary(AddValues(a, b));
      u.annualPreTaxIncome == s.annualPreTaxIncome + t.annualPreTaxIncome &&
      u.preTaxMonthlyIncome == s.preTaxMonthlyIncome + t.preTaxMonthlyIncome &&
      u.monthlyTaxableIncome == s.monthlyTaxableIncome + t.monthlyTaxableIncome &&
      u.monthlyTaxTotal == s.monthlyTaxTotal + t.monthlyTaxTotal &&
      u.postTaxMonthlyTakeHome == s.postTaxMonthlyTakeHome + t.postTaxMonthlyTakeHome &&
      u.totalAnnualTakeHome == s.totalAnnualTakeHome + t.totalAnnualTakeHome &&
      u.totalMonthlyTakeHome == s.totalMonthlyTakeHome + t.totalMonthlyTakeHome
  {
    AnnualPreTaxIncomeAdditive(a, b);
    MonthlyTaxTotalAdditive(a, b);
    AmountOfSum(a, b);
  }

  /** The spending figures and the buffer are additive. */
  lemma {:induction false} SpendingFiguresAdditive(a: map<string, real>, b: map<string, real>)
    requires HasAllFields(a) && HasAllFields(b) && HasAllFields(AddValues(a, b))
    ensures var s, t, u := CalculateBudgetSummary(a), CalculateBudgetSummary(b), CalculateBudgetSummary(AddValues(a, b));
      u.totalIrresponsible == s.totalIrresponsible + t.totalIrresponsible &&
      u.totalResponsible == s.totalResponsible + t.totalResponsible &&
      u.totalSavings == s.totalSavings + t.totalSavings &&
      u.totalBonusSpending == s.totalBonusSpending + t.totalBonusSpending &&
      u.totalExpenses == s.totalExpenses + t.totalExpenses &&
      u.totalMonthlySpending == s.totalMonthlySpending + t.totalMonthlySpending
  {
    TotalIrresponsibleAdditive(a, b);
    TotalResponsibleAdditive(a, b);
    TotalSavingsAdditive(a, b);
    TotalBonusSpendingAdditive(a, b);
  }

  /** The buffer is additive. */
  lemma {:induction false} BufferAdditive(a: map<string, real>, b: map<string, real>)
    requires HasAllFields(a) && HasAllFields(b) && HasAllFields(AddValues(a, b))
    ensures CalculateBudgetSummary(AddValues(a, b)).monthlyBuffer
         == CalculateBudgetSummary(a).monthlyBuffer + CalculateBudgetSummary(b).monthlyBuffer
  {
    var s, t, u := CalculateBudgetSummary(a), CalculateBudgetSummary(b), CalculateBudgetSummary(AddValues(a, b));
    IncomeFiguresAdditive(a, b);
    SpendingFiguresAdditive(a, b);
    calc {
      u.monthlyBuffer;
      u.totalMonthlyTakeHome - u.totalMonthlySpending;
      (s.totalMonthlyTakeHome + t.totalMonthlyTakeHome) - (s.totalMonthlySpending + t.totalMonthlySpending);
      (s.totalMonthlyTakeHome - s.totalMonthlySpending) + (t.totalMonthlyTakeHome - t.totalMonthlySpending);
      s.monthlyBuffer + t.monthlyBuffer;
    }
  }

  /** A summary whose every figure is the sum of two others' is their sum. */
  lemma {:induction false} AddSummariesFieldwise(u: Summary, s: Summary, t: Summary)
    requires u.annualPreTaxIncome == s.annualPreTaxIncome + t.annualPreTaxIncome
    requires u.preTaxMonthlyIncome == s.preTaxMonthlyIncome + t.preTaxMonthlyIncome
    requires u.monthlyTaxableIncome == s.monthlyTaxableIncome + t.monthlyTaxableIncome
    requires u.monthlyTaxTotal == s.monthlyTaxTotal + t.monthlyTaxTotal
    requires u.postTaxMonthlyTakeHome == s.postTaxMonthlyTakeHome + t.postTaxMonthlyTakeHome
    requires u.totalAnnualTakeHome == s.totalAnnualTakeHome + t.totalAnnualTakeHome
    requires u.totalMonthlyTakeHome == s.totalMonthlyTakeHome + t.totalMonthlyTakeHome
    requires u.totalIrresponsible == s.totalIrresponsible + t.totalIrresponsible
    requires u.totalResponsible == s.totalResponsible + t.totalResponsible
    requires u.totalSavings == s.totalSavings + t.totalSavings
    requires u.totalBonusSpending == s.totalBonusSpending + t.totalBonusSpending
    requires u.totalExpenses == s.totalExpenses + t.totalExpenses
    requires u.totalMonthlySpending == s.totalMonthlySpending + t.totalMonthlySpending
    requires u.monthlyBuffer == s.monthlyBuffer + t.monthlyBuffer
    ensures u == AddSummaries(s, t)
  {
  }

  /** The summary is linear: summing two budgets field by field sums every figure. */
  lemma {:induction false} SummaryAdditive(a: map<string, real>, b: map<string, real>)
    requires HasAllFields(a) && HasAllFields(b)
    ensures HasAllFields(AddValues(a, b))
    ensures CalculateBudgetSummary(AddValues(a, b))
         == AddSummaries(CalculateBudgetSummary(a), CalculateBudgetSummary(b))
  {
    assert HasAllFields(AddValues(a, b));
    IncomeFiguresAdditive(a, b);
    SpendingFiguresAdditive(a, b);
    BufferAdditive(a, b);
    var s, t, u := CalculateBudgetSummary(a), CalculateBudgetSummary(b), CalculateBudgetSummary(AddValues(a, b));
    AddSummariesFieldwise(u, s, t);
  }

  /** The buffer in terms of the inputs: take-home less everything spent or saved. */
  lemma {:induction false} BufferFormula(values: map<string, real>)
    requires HasAllFields(values)
    ensures CalculateBudgetSummary(values).monthlyBuffer
         == AnnualPreTaxIncome(values) / 12.0 - Amount(values, RetirementField) - MonthlyTaxTotal(values)
            - TotalIrresponsible(values) - TotalResponsible(values) - TotalSavings(values) - TotalBonusSpending(values)
  {
  }
}
