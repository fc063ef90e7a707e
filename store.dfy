/** The month-record store of src/db.py: the BudgetDatabase class over its
    monthly_budgets, categories and meta tables, with the tables held in memory.
    The clock is a parameter: every call receives the timestamp `now` it
    stamps records with. */
module Store {
  import opened Wrappers
  import opened PyTime
  import opened Budget

  /** datetime.utcnow().isoformat(timespec="seconds") */
  type Timestamp = string

  /** One document of the monthly_budgets table. The values are kept as they
      were stored, so a view re-normalises them. */
  datatype Record = Record(month: string, values: map<string, RawValue>, createdAt: Timestamp, updatedAt: Timestamp)

  /** One document of the categories table. */
  datatype Category = Category(name: string, color: string, icon: string)

  /** DEFAULT_CATEGORIES, in order. */
  const DefaultCategories: seq<Category> := [
    Category("Housing", "#6F4E37", "home"),
    Category("Food", "#C68B59", "utensils"),
    Category("Transport", "#355C7D", "car"),
    Category("Utilities", "#4E6C50", "bolt"),
    Category("Health", "#9A3B3B", "heart"),
    Category("Savings", "#2E8B57", "piggy-bank")
  ]

  /** Every record is filed under its own month: the table holds at most one
      record per month key. */
  predicate KeyedByMonth(m: map<string, Record>) {
    forall k :: k in m ==> m[k].month == k
  }

  // ---- Specification of the table operations ----

  /** _default_month_budget: a new record for the month, every field 0.0, created
      and updated now. */
  function DefaultMonthBudget(monthKey: string, now: Timestamp): (r: Record)
    ensures r.month == monthKey && r.createdAt == now && r.updatedAt == now
    ensures r.values.Keys == FieldKeySet()
    ensures forall k :: k in r.values ==> r.values[k] == Number(0.0)
  {
    Record(monthKey, Lift(DefaultBudgetValues()), now, now)
  }

  /** The table after get_or_create_month_budget: unchanged when the month has a
      record, otherwise with the month's default record added. */
  function GetOrCreate(m: map<string, Record>, monthKey: string, now: Timestamp): (r: map<string, Record>)
    ensures r.Keys == m.Keys + {monthKey}
    ensures forall k :: k in m ==> r[k] == m[k]
    ensures monthKey !in m ==> r[monthKey] == DefaultMonthBudget(monthKey, now)
    ensures KeyedByMonth(m) ==> KeyedByMonth(r)
  {
    if monthKey in m then m else m[monthKey := DefaultMonthBudget(monthKey, now)]
  }

  /** The table after get_or_create_month_budget on each key in turn. */
  function EnsureKeys(m: map<string, Record>, keys: seq<string>, now: Timestamp): (r: map<string, Record>)
    ensures forall k :: k in r <==> k in m || k in keys
    ensures forall k :: k in m ==> r[k] == m[k]
    ensures forall k :: k in r && k !in m ==> r[k] == DefaultMonthBudget(k, now)
    decreases |keys|
  {
    if keys == [] then m
    else
      var init, last := keys[..|keys| - 1], keys[|keys| - 1];
      assert forall k :: k in keys <==> k in init || k == last;
      GetOrCreate(EnsureKeys(m, init, now), last, now)
  }

  /** Ensuring keys files every new record under its own month. */
  lemma {:induction false} EnsureKeysKeyedByMonth(m: map<string, Record>, keys: seq<string>, now: Timestamp)
    requires KeyedByMonth(m)
    ensures KeyedByMonth(EnsureKeys(m, keys, now))
  {
  }

  /** The first n month keys of a year, "YYYY-01" onwards. */
  function MonthKeysUpTo(year: int, n: nat): seq<string> {
    seq(n, i => YearMonthText(year, i + 1))
  }

  /** The twelve keys ensure_year_has_months visits. */
  function YearKeys(year: int): seq<string> {
    MonthKeysUpTo(year, 12)
  }

  /** The table after save_month_budget: the month's values are replaced by the
      normalised values and its updated_at set to now, keeping month and
      created_at; a missing month is inserted, created and updated now. */
  function Upsert(m: map<string, Record>, monthKey: string, values: map<string, real>, now: Timestamp): (r: map<string, Record>)
    ensures r.Keys == m.Keys + {monthKey}
    ensures forall k :: k in m && k != monthKey ==> r[k] == m[k]
    ensures r[monthKey].values == Lift(values) && r[monthKey].updatedAt == now
    ensures monthKey in m ==> r[monthKey].month == m[monthKey].month && r[monthKey].createdAt == m[monthKey].createdAt
    ensures monthKey !in m ==> r[monthKey].month == monthKey && r[monthKey].createdAt == now
    ensures KeyedByMonth(m) ==> KeyedByMonth(r)
  {
    if monthKey in m then m[monthKey := m[monthKey].(values := Lift(values), updatedAt := now)]
    else m[monthKey := Record(monthKey, Lift(values), now, now)]
  }

  /** The categories and flag after _bootstrap's seeding step: the defaults are
      appended only while the initialized flag is unset, and the flag is set. */
  function SeedCategories(categories: seq<Category>, initialized: bool): (r: (seq<Category>, bool))
    ensures r.1
    ensures initialized ==> r.0 == categories
    ensures !initialized ==> r.0 == categories + DefaultCategories
  {
    if initialized then (categories, true) else (categories + DefaultCategories, true)
  }

  /** What get_month_budget_view returns apart from the month label. */
  datatype BudgetView = BudgetView(month: string, values: map<string, real>, summary: Summary, updatedAt: Timestamp)

  /** The view of a stored record: its values normalised again and their summary. */
  function ViewOf(monthKey: string, record: Record): (v: BudgetView)
    ensures v.month == monthKey && v.updatedAt == record.updatedAt
    ensures v.values == NormalizeBudgetValues(record.values)
    ensures HasAllFields(v.values) && v.summary == CalculateBudgetSummary(v.values)
    ensures v.summary.monthlyBuffer == v.summary.totalMonthlyTakeHome - v.summary.totalMonthlySpending
  {
    var values := NormalizeBudgetValues(record.values);
    BudgetView(monthKey, values, CalculateBudgetSummary(values), record.updatedAt)
  }

  // ---- Properties of the table operations ----

  /** Asking for a month twice, at any two times, gives the table (and so the
      record and its created_at) of the first call. */
  lemma {:induction false} GetOrCreateIdempotent(m: map<string, Record>, monthKey: string, now1: Timestamp, now2: Timestamp)
    ensures GetOrCreate(GetOrCreate(m, monthKey, now1), monthKey, now2) == GetOrCreate(m, monthKey, now1)
  {
  }

  /** Ensuring the same keys again changes nothing, whatever the time. */
  lemma {:induction false} EnsureKeysIdempotent(m: map<string, Record>, keys: seq<string>, now1: Timestamp, now2: Timestamp)
    ensures EnsureKeys(EnsureKeys(m, keys, now1), keys, now2) == EnsureKeys(m, keys, now1)
  {
    var r := EnsureKeys(m, keys, now1);
    var r2 := EnsureKeys(r, keys, now2);
    assert forall k :: k in r2 <==> k in r;
  }

  /** The twelve keys of a year are the canonical keys of its months 1 to 12,
      in order, with the year zero-padded to four digits. */
  lemma {:induction false} YearKeysAreMonths(year: int)
    requires 1 <= year <= 9999
    ensures |YearKeys(year)| == 12
    ensures forall i :: 0 <= i < 12 ==> IsMonthKey(YearKeys(year)[i])
    ensures forall i :: 0 <= i < 12 ==> StrptimeYearMonth(YearKeys(year)[i]) == Some((year, i + 1))
  {
    forall i | 0 <= i < 12
      ensures IsMonthKey(YearKeys(year)[i])
      ensures StrptimeYearMonth(YearKeys(year)[i]) == Some((year, i + 1))
    {
      YearMonthTextRoundTrip(year, i + 1);
    }
  }

  /** After ensure_year_has_months every month of the year has a record, and a
      key holds a record only if it held one before or is one of those months. */
  lemma {:induction false} EnsureYearCoversYear(m: map<string, Record>, year: int, now: Timestamp)
    ensures forall month :: 1 <= month <= 12 ==> YearMonthText(year, month) in EnsureKeys(m, YearKeys(year), now)
    ensures forall k :: k in EnsureKeys(m, YearKeys(year), now) ==> k in m || k in YearKeys(year)
  {
    var keys := YearKeys(year);
    forall month | 1 <= month <= 12
      ensures YearMonthText(year, month) in EnsureKeys(m, keys, now)
    {
      YearKeyAt(year, month);
      EnsureKeysContains(m, keys, now, month - 1);
    }
  }

  lemma YearKeyAt(year: int, month: int)
    requires 1 <= month <= 12
    ensures |YearKeys(year)| == 12 && YearKeys(year)[month - 1] == YearMonthText(year, month)
  {
  }

  lemma EnsureKeysContains(m: map<string, Record>, keys: seq<string>, now: Timestamp, i: int)
    requires 0 <= i < |keys|
    ensures keys[i] in EnsureKeys(m, keys, now)
  {
  }

  /** A save followed by a view of the same month shows the normalised input
      and its summary: omitted fields read back as 0.0. The view's own
      get_or_create leaves the saved table as it is. */
  lemma {:induction false} SaveThenView(m: map<string, Record>, monthKey: string, raw: map<string, RawValue>, now1: Timestamp, now2: Timestamp)
    ensures var saved := Upsert(m, monthKey, NormalizeBudgetValues(raw), now1);
      GetOrCreate(saved, monthKey, now2) == saved &&
      ViewOf(monthKey, saved[monthKey]).values == NormalizeBudgetValues(raw) &&
      ViewOf(monthKey, saved[monthKey]).summary == CalculateBudgetSummary(NormalizeBudgetValues(raw))
  {
    var values := NormalizeBudgetValues(raw);
    var saved := Upsert(m, monthKey, values, now1);
    assert monthKey in saved;
    assert GetOrCreate(saved, monthKey, now2) == saved;
    NormalizeIdempotent(raw);
    var v := ViewOf(monthKey, saved[monthKey]);
    assert v.values == values;
  }

  /** A month nobody has saved yet views as all zeros. */
  lemma {:induction false} NewMonthViewsZero(monthKey: string, now: Timestamp)
    ensures ViewOf(monthKey, DefaultMonthBudget(monthKey, now)).values == DefaultBudgetValues()
    ensures ViewOf(monthKey, DefaultMonthBudget(monthKey, now)).summary
         == Summary(0.0, 0.0, 0.0, 0.0, 0.0, 0.0, 0.0, 0.0, 0.0, 0.0, 0.0, 0.0, 0.0, 0.0)
  {
    var v := NormalizeBudgetValues(DefaultMonthBudget(monthKey, now).values);
    assert forall k :: k in v ==> v[k] == 0.0;
    assert v == DefaultBudgetValues();
    DefaultSummaryIsZero();
  }

  /** Seeding twice gives what seeding once gives: the defaults are never duplicated. */
  lemma {:induction false} SeedCategoriesOnce(categories: seq<Category>, initialized: bool)
    ensures var once := SeedCategories(categories, initialized);
      SeedCategories(once.0, once.1) == once
  {
  }

  // ---- The database ----

  /** BudgetDatabase: the monthly_budgets table keyed by month, the categories
      table and the meta table's "initialized" entry. */
  class BudgetDatabase {
    var monthlyBudgets: map<string, Record>
    var categories: seq<Category>
    var initialized: bool

    ghost predicate Valid()
      reads this
    {
      KeyedByMonth(monthlyBudgets)
    }

    /** Opening a database over stored tables, then bootstrapping it in the
        current year. */
    constructor (storedBudgets: map<string, Record>, storedCategories: seq<Category>, storedInitialized: bool,
                 todayYear: int, now: Timestamp)
      requires KeyedByMonth(storedBudgets)
      ensures Valid()
      ensures (categories, initialized) == SeedCategories(storedCategories, storedInitialized)
      ensures monthlyBudgets == EnsureKeys(storedBudgets, YearKeys(todayYear), now)
    {
      monthlyBudgets := storedBudgets;
      categories := storedCategories;
      initialized := storedInitialized;
      new;
      Bootstrap(todayYear, now);
    }

    /** _bootstrap: seed the default categories once, then make sure the
        current year has its twelve months. */
    method Bootstrap(todayYear: int, now: Timestamp)
      requires Valid()
      modifies this
      ensures Valid()
      ensures (categories, initialized) == SeedCategories(old(categories), old(initialized))
      ensures monthlyBudgets == EnsureKeys(old(monthlyBudgets), YearKeys(todayYear), now)
    {
      if !initialized {
        categories := categories + DefaultCategories;
        initialized := true;
      }
      EnsureYearHasMonths(todayYear, now);
    }

    /** get_or_create_month_budget: the stored record of the month, or a new
        default record, inserted and returned. */
    method GetOrCreateMonthBudget(monthKey: string, now: Timestamp) returns (record: Record)
      requires Valid()
      modifies this`monthlyBudgets
      ensures Valid()
      ensures monthlyBudgets == GetOrCreate(old(monthlyBudgets), monthKey, now)
      ensures record == monthlyBudgets[monthKey] && record.month == monthKey
      ensures monthKey in old(monthlyBudgets) ==> record == old(monthlyBudgets[monthKey])
    {
      if monthKey in monthlyBudgets {
        return monthlyBudgets[monthKey];
      }
      record := DefaultMonthBudget(monthKey, now);
      monthlyBudgets := monthlyBudgets[monthKey := record];
    }

    /** ensure_year_has_months: get_or_create for months 1 to 12 of the year. */
    method EnsureYearHasMonths(year: int, now: Timestamp)
      requires Valid()
      modifies this`monthlyBudgets
      ensures Valid()
      ensures monthlyBudgets == EnsureKeys(old(monthlyBudgets), YearKeys(year), now)
    {
      var month := 1;
      while month < 13
        invariant 1 <= month <= 13
        invariant Valid()
        invariant monthlyBudgets == EnsureKeys(old(monthlyBudgets), MonthKeysUpTo(year, month - 1), now)
      {
        var monthKey := YearMonthText(year, month);
        assert MonthKeysUpTo(year, month)[..month - 1] == MonthKeysUpTo(year, month - 1);
        var _ := GetOrCreateMonthBudget(monthKey, now);
        month := month + 1;
      }
    }

    /** save_month_budget: store the normalised values as the month's values in
        full and return the month's record as stored. */
    method SaveMonthBudget(monthKey: string, raw: map<string, RawValue>, now: Timestamp) returns (record: Record)
      requires Valid()
      modifies this`monthlyBudgets
      ensures Valid()
      ensures monthlyBudgets == Upsert(old(monthlyBudgets), monthKey, NormalizeBudgetValues(raw), now)
      ensures record == monthlyBudgets[monthKey]
      ensures NormalizeBudgetValues(record.values) == NormalizeBudgetValues(raw)
    {
      var normalizedValues := NormalizeBudgetValues(raw);
      if monthKey in monthlyBudgets {
        var existing := monthlyBudgets[monthKey];
        monthlyBudgets := monthlyBudgets[monthKey := existing.(values := Lift(normalizedValues), updatedAt := now)];
      } else {
        monthlyBudgets := monthlyBudgets[monthKey := Record(monthKey, Lift(normalizedValues), now, now)];
      }
      record := GetOrCreateMonthBudget(monthKey, now);
      NormalizeIdempotent(raw);
    }

    /** get_month_budget_view: the month's record (created if missing), its
        values normalised and summarised. The month label is written with
        strptime, so a key strptime rejects gives None, after the record has
        been created. */
    method GetMonthBudgetView(monthKey: string, now: Timestamp) returns (view: Option<BudgetView>)
      requires Valid()
      modifies this`monthlyBudgets
      ensures Valid()
      ensures monthlyBudgets == GetOrCreate(old(monthlyBudgets), monthKey, now)
      ensures view.None? <==> StrptimeYearMonth(monthKey).None?
      ensures view.Some? ==> view.value == ViewOf(monthKey, monthlyBudgets[monthKey])
    {
      var record := GetOrCreateMonthBudget(monthKey, now);
      var values := NormalizeBudgetValues(record.values);
      var summary := CalculateBudgetSummary(values);
      if StrptimeYearMonth(monthKey).None? {
        return None;
      }
      view := Some(BudgetView(monthKey, values, summary, record.updatedAt));
    }
  }
}
