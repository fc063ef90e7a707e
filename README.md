# Monthly budget calculator — a Dafny model

The budget calculator keeps one record per calendar month. A record is keyed "YYYY-MM" and holds
34 named amounts (income, a 401k contribution, three taxes and four groups of spending and saving)
and two timestamps. It derives a fixed summary from those amounts: income, tax, take-home, the
four spending totals, and a signed monthly buffer. The web layer turns a request's month parameter
into a canonical key, makes sure the month's year has all twelve records, and shows the month's
summary as a three-slice pie chart. A form post saves a month's amounts in full.

The model has these modules:

- `PyText` models the Python text built-ins the code relies on: `str.replace(c, "")`,
  `str.strip()` (with `str.isspace`), and the zero-padded `f"{n:0Wd}"` formatting.
- `PyFloat` models Python's `float()` on text for the decimal grammar. That grammar is an
  optional sign, digits grouped by single underscores, an optional fraction and an optional
  exponent. The whitespace `str.strip` removes is ignored around the text. `None` stands for the
  `ValueError`.
- `PyTime` models `datetime.strptime(s, "%Y-%m")` and the `"%Y-%m"` formatting of a year and
  a month.
- `Budget` models the pure half of `src/db.py`:
  - the field list;
  - `default_budget_values`;
  - `parse_float` and its cleaning step;
  - `normalize_budget_values`;
  - `calculate_budget_summary`.

  Amounts are reals.
- `Store` models the `BudgetDatabase` class:
  - The class holds the `monthly_budgets` table as a map from month key to record, the
    `categories` table as a sequence, and the meta table's "initialized" entry as a flag.
  - Its methods update those fields in place. Each is proved against a function on the old
    table: `GetOrCreate`, `EnsureKeys`, `Upsert`, `SeedCategories` and `ViewOf`.
  - Lemmas then state what those functions promise.
- `App` models `normalize_month_key` and the dashboard's pie-chart split as functions. The GET /
  and POST /budget handlers are methods over a `BudgetDatabase`, with the request, the clock and
  the page rendering reduced to parameters and results.

The clock is always a parameter. `now` is the timestamp a store call writes, and `today` is the
date `normalize_month_key` falls back to.

Two facts of the code that the model follows:

- There are 34 budget fields (`src/db.py:18-53`).
- `parse_float` removes every `$` in the text, not only one currency symbol (`src/db.py:64`).

## Model

| member | source | states |
|---|---|---|
| `Budget.FieldCount` | src/db.py:18-53 | There are 34 field keys, all distinct, so the set of field keys has 34 elements: the three income fields first, then the 401k contribution, the three taxes, and the 27 spending and saving fields. |
| `Budget.DefaultBudgetValues` | src/db.py:56-57 | The default values have exactly the field keys, and every one is 0.0. |
| `PyText.RemoveChar` | src/db.py:64 | `replace(c, "")` leaves no `c`, and changes nothing in a string without `c`. |
| `PyText.RemoveCharCounts` | src/db.py:64 | Removing `c` keeps every other character exactly as often as it occurred. |
| `PyText.RemoveCharAppend` | src/db.py:64 | Removal distributes over concatenation. |
| `PyText.RemoveCharIgnoresInsertion` | src/db.py:64 | An extra `c` inserted anywhere disappears in the removal. |
| `PyText.LStrip` | src/db.py:64 | `lstrip` drops exactly the leading whitespace. The result is a suffix of the input and does not start with whitespace. |
| `PyText.RStrip` | src/db.py:64 | `rstrip` drops exactly the trailing whitespace. The result is a prefix of the input and does not end with whitespace. |
| `PyText.Strip` | src/db.py:64 | `strip` leaves no whitespace at either end, and a stripped string is left as it is. |
| `PyText.StripTrims` | src/db.py:64 | `strip` returns a contiguous slice of its input, and everything before and after that slice is whitespace. |
| `PyText.StripKeepsAbsence` | src/db.py:64 | Stripping introduces no character. |
| `Budget.Clean` | src/db.py:64 | The cleaned text is `strip` of the text with every `,` and then every `$` removed. It contains no `,` and no `$` and is stripped. |
| `Budget.CleanIdempotent` | src/db.py:64 | Cleaning a cleaned text changes nothing. |
| `Budget.ParseFloat` | src/db.py:60-71 | A number passes through unchanged. Text whose cleaned form is empty gives 0.0. Text `float()` rejects with `ValueError` gives 0.0. Otherwise the result is `float()` of the cleaned text. The overflow cases, in which `float()` raises another exception or gives an infinity, are listed under Left out. |
| `Budget.ParseFloatIgnoresSeparator` | src/db.py:64-69 | A `,` or `$` inserted anywhere in a text does not change its amount. |
| `Budget.ParseFloatIntText` | src/db.py:64-69 | The text of any integer, negative ones included, reads back as that integer. |
| `Budget.ParseFloatDecimalText` | src/db.py:64-69 | A text "whole.frac" with k fraction digits reads as whole + frac / 10^k. With `ParseFloatIgnoresSeparator` this gives "$1,234.56" as 1234.56. |
| `Budget.ParseFloatBlankExample` | src/db.py:65-66 | Empty text reads as 0.0. |
| `Budget.ParseFloatWordExample` | src/db.py:68-71 | "abc" reads as 0.0, because `float()` rejects it. |
| `Budget.ParseFloatZeroText` | src/db.py:64-69 | "0" reads as 0.0. |
| `PyFloat.FloatOfIntText` | src/db.py:69 | `float(str(n)) == n` for every integer `n`. |
| `PyFloat.FloatOfNeedsDigit` | src/db.py:69 | `float()` accepts only text with a digit in it, so a text of signs, points, exponent markers, underscores or whitespace alone raises. |
| `PyFloat.FloatOfStripped` | src/db.py:69 | The model's `float()` ignores the whitespace `str.strip` removes around the text: the stripped text reads as the same number or raises the same way. |
| `PyFloat.FloatOfStrippedText` | src/db.py:64-69 | Text with no whitespace at either end, which is what `parse_float` passes to `float()`, is read as it stands, with nothing stripped. |
| `PyFloat.FloatOfUnsigned` | src/db.py:69 | `float()` of stripped text that does not start with a sign is the value of the unsigned number. |
| `PyFloat.FloatOfNegative` | src/db.py:69 | `float()` of "-" followed by a number is that number negated, and raises when the number is malformed. |
| `PyFloat.FloatOfDecimalText` | src/db.py:69 | `float()` of "whole.frac" with k fraction digits is whole + frac / 10^k. |
| `PyFloat.FloatOfEmpty` | src/db.py:65-69 | `float("")` raises. `parse_float` never passes it empty text, because the early return at `src/db.py:65-66` gives 0.0 first (`Budget.ParseFloatBlankExample`). |
| `PyFloat.FloatOfWord` | src/db.py:68-71 | `float("abc")` raises. |
| `Budget.NormalizeBudgetValues` | src/db.py:74-75 | The result has exactly the 34 field keys. A field the input lacks is 0.0, and a field it has is `parse_float` of its value. |
| `Budget.Lookup` | src/db.py:75 | `raw_values.get(field, 0)` is the stored value when the key is present. Otherwise it is the number 0, which `parse_float` reads as 0.0. |
| `Budget.NormalizeIdempotent` | src/db.py:74-75 | Normalising already-normalised values is a no-op. |
| `Budget.NormalizeIgnoresUnknownKey` | src/db.py:74-75 | A key outside the field list never changes the result. |
| `Budget.NormalizeEmpty` | src/db.py:74-75 | Normalising an empty map gives the default, all-zero values. |
| `Budget.CalculateBudgetSummary` | src/db.py:78-154 | The summary satisfies these identities: `pre_tax_monthly * 12 == annual`, `annual_take_home == 12 * post_tax_monthly`, `monthly_take_home == post_tax_monthly`, `expenses == responsible + bonus + irresponsible`, `monthly_spending == expenses + savings`, and `buffer == take_home - monthly_spending`. |
| `Budget.BufferFormula` | src/db.py:84-153 | The buffer is `annual / 12 - 401k - taxes - every spending and saving group`, which can be negative. |
| `Budget.ZeroSummary` | src/db.py:78-154 | All-zero values give an all-zero summary. |
| `Budget.DefaultSummaryIsZero` | src/db.py:78-154 | The summary of `default_budget_values()` is all zeros. |
| `Budget.NothingSpent` | src/db.py:95-132 | With every spending and saving field 0, each of the four group totals is 0. |
| `Budget.WorkedExampleSummary` | src/db.py:78-154 | Salary 120000, 401k 500 and taxes 800/200/100, with everything else 0, give: pre-tax monthly 10000, taxable 9500, tax 1100, take-home 8400, expenses 0, buffer 8400. |
| `Budget.SummaryAdditive` | src/db.py:78-154 | The summary is linear: the summary of two budgets added field by field is the sum of their summaries. |
| `PyTime.StrptimeYearMonth` | app.py:15 | An accepted key gives a year in 1..9999 and a month in 1..12. |
| `PyTime.YearMonthText` | src/db.py:199 | `f"{year:04d}-{month:02d}"` has at least 7 characters. For a year in 0..9999 and a month in 0..99, it is exactly the four digits of the year, a `-`, and the two digits of the month. |
| `PyText.FormatInt` | src/db.py:199 | `f"{n:0Wd}"` is at least W characters long. |
| `PyText.FormatIntDigits` | src/db.py:199 | For n >= 0 the text is all digits with value n. For n < 0 it is `-` followed by the digits of -n. It is exactly W long when W > 0 and 0 <= n < 10^W. A non-negative n whose text is longer than W has no leading zero, unless its text is the single digit "0". |
| `PyTime.YearMonthTextRoundTrip` | src/db.py:199 | `f"{year:04d}-{month:02d}"` of a valid year and month is a canonical key that strptime reads back as the same pair. |
| `PyTime.YearMonthTextUnpadded` | app.py:15 | `strftime("%Y-%m")` where `%Y` is not zero-padded: from year 1000 to 9999 it is the canonical key, and for a year below 1000 it is at most 6 characters long and not a canonical key. |
| `PyTime.MonthKeyRoundTrip` | app.py:15 | strptime accepts a canonical key, and reformatting what it read gives the same key back. |
| `Store.DefaultMonthBudget` | src/db.py:178-185 | A new record is for its month, with every field 0 and `created_at == updated_at == now`. |
| `Store.GetOrCreate` | src/db.py:187-195 | An existing record is kept unchanged. A missing month gets the default record. No other key changes, and at most one record per month is preserved. |
| `Store.GetOrCreateIdempotent` | src/db.py:187-195 | A second call, at any later time, changes nothing, so the record and its `created_at` are those of the first call. |
| `Store.EnsureKeys` | src/db.py:197-200 | After the loop, a key holds a record iff it held one before or was visited. Old records are unchanged, and new ones are defaults. |
| `Store.EnsureKeysKeyedByMonth` | src/db.py:197-200 | Every record stays filed under its own month. |
| `Store.EnsureKeysIdempotent` | src/db.py:197-200 | Ensuring the same keys again changes nothing. |
| `Store.YearKeysAreMonths` | src/db.py:198-199 | The twelve keys are canonical, zero-padded "YYYY-MM" keys of months 1..12 of the year, in order. |
| `Store.EnsureYearCoversYear` | src/db.py:197-200 | Afterwards every month of the year has a record, and no key outside the year's months is added. |
| `Store.Upsert` | src/db.py:202-221 | The month's values are replaced in full and its `updated_at` set to `now`, keeping `month` and `created_at`. A missing month is inserted with `created_at == updated_at == now`. Other months are unchanged, and records stay filed under their own month. |
| `Store.SeedCategories` | src/db.py:170-174 | The flag ends set. The six defaults are appended only when the flag was unset, and the list is kept otherwise. |
| `Store.SeedCategoriesOnce` | src/db.py:170-174 | Bootstrapping again never duplicates the default categories. |
| `Store.ViewOf` | src/db.py:225-235 | The view shows the record's values normalised to the 34 field keys, the record's `updated_at`, and `calculate_budget_summary` of those normalised values. |
| `Store.SaveThenView` | src/db.py:202-235 | After a save, the view of that month shows `normalize(raw)` and its summary, so omitted fields read as 0. The view's own get-or-create leaves the table unchanged. |
| `Store.NewMonthViewsZero` | src/db.py:225-235 | A month nobody has saved views as all-zero values with an all-zero summary. |
| `Store.BudgetDatabase.constructor` | src/db.py:157-168 | Opening stored tables seeds the categories once and gives the current year its twelve months. |
| `Store.BudgetDatabase.Bootstrap` | src/db.py:170-176 | The categories and flag become `SeedCategories` of the old ones, and the table becomes `EnsureKeys` over the current year. |
| `Store.BudgetDatabase.GetOrCreateMonthBudget` | src/db.py:187-195 | The table becomes `GetOrCreate` of the old table. The returned record is the stored one, unchanged if it existed. |
| `Store.BudgetDatabase.EnsureYearHasMonths` | src/db.py:197-200 | The loop over months 1..12 leaves the table equal to `EnsureKeys` over the year's twelve keys. |
| `Store.BudgetDatabase.SaveMonthBudget` | src/db.py:202-223 | The table becomes `Upsert` with the normalised values. The returned record is the stored one, and its values normalise to `normalize(raw)`. |
| `Store.BudgetDatabase.GetMonthBudgetView` | src/db.py:225-235 | The record is created first if missing. The view is `ViewOf` the stored record, and it is absent exactly when strptime rejects the key. |
| `App.NormalizeMonthKey` | app.py:9-17 | The result is always a canonical key. A missing or empty month, or one strptime rejects, gives today's "YYYY-MM". Otherwise the result names the same year and month, and a canonical key comes back unchanged. |
| `App.NormalizeMonthKeyIdempotent` | app.py:9-17 | Normalising a normalised key, on any day, changes nothing. |
| `App.KeyYear` | app.py:30 | `int(month_key[:4])` is the year strptime reads from the key. |
| `App.KeyInItsYear` | app.py:30-31 | The requested month is one of the twelve months ensured for its year, so the view never needs to create it. |
| `App.NormalizedKeyYearReads` | app.py:29-30 | `int(month_key[:4])` of every normalised key succeeds and gives the year strptime reads from the key. |
| `App.NormalizeMonthKeyUnpadded` | app.py:9-17 | With the unpadded `%Y`, normalisation matches the padded one whenever it falls back to a today with a year of 1000 or more. |
| `App.UnpaddedDiffersOnlyBelowYear1000` | app.py:9-17 | With today in year 1000 or later, the unpadded key differs from the canonical one only when the requested year is below 1000, and then `int(month_key[:4])` raises. |
| `App.ShortYearKeyUnreadable` | app.py:30 | The unpadded key of a year below 1000 has its `-` within the first four characters, so `int(month_key[:4])` raises. |
| `App.UnpaddedYearBreaksHandlers` | app.py:29-30 | On `0999-01`, strptime gives (999, 1), the unpadded key is "999-01", and `int("999-")` raises. The padded key "0999-01" reads as 999. |
| `App.ClampAtZero` | app.py:34-36 | `max(x, 0.0)` is non-negative, at least `x`, and either `x` or 0. |
| `App.PieChartOf` | app.py:34-45 | The three amounts are the take-home, expenses and savings of the summary, each clamped at 0. With data, the three percentages sum to 100. |
| `App.SplitPieChart` | app.py:34-55 | The amounts are clamped at 0, and `has_data` holds iff some amount is positive. With data, each percentage is in [0, 100] and the three sum to 100. Without data, all three are 0. `expense_end == income_pct + expense_pct`. |
| `App.PercentagesOfTotal` | app.py:39-42 | Three non-negative amounts with a positive total, taken as percentages of that total, each lie in [0, 100] and sum to 100. |
| `App.PieChartProportional` | app.py:39-42 | The slices keep the ratios of the amounts, for income to expenses, expenses to savings, and income to savings. |
| `App.FormPayload` | app.py:69 | The payload has exactly the field keys, each the form's text or "0" when the form omits it. |
| `App.OmittedFieldSavedAsZero` | app.py:69-70 | A field the form omits is saved as 0.0. |
| `App.Dashboard` | app.py:27-55 | The table becomes `EnsureKeys` over the requested month's year. The view is that month's `ViewOf`, and the pie chart is the split of its summary. |
| `App.SaveBudget` | app.py:64-72 | The table becomes the year ensured and then the month upserted with the normalised form payload. The handler redirects to the normalised month. |

## Findings

| source | as written | input that shows it | evidently intended | confidence | as-written member | corrected member |
|---|---|---|---|---|---|---|
| app.py:15 | `normalize_month_key` reformats a key with `strftime("%Y-%m")`. Where `%Y` is not zero-padded (glibc), a year below 1000 gives a short key, and `int(month_key[:4])` then reads a `-` and raises `ValueError` in both handlers. | `?month=0999-01` gives "999-01", and `int("999-")` raises | the key "0999-01", whose year reads as 999 | medium; depends on the platform's strftime; not executed | `App.NormalizeMonthKeyUnpadded`, `App.UnpaddedYearBreaksHandlers` | `App.NormalizeMonthKey`, `App.NormalizedKeyYearReads` |

## Left out

- `PyFloat.FloatOf`: `inf`, `infinity` and `nan` (in any case, with a sign) are not reals, so the model rejects them. `float()` accepts them, and `parse_float` would return an infinity or a NaN instead of 0.0.
- `PyFloat.FloatOf`: `float()` also accepts non-ASCII Unicode decimal digits, which the model rejects.
- `PyFloat.FloatOf`: the model strips the whitespace `str.strip` removes (`str.isspace`) before reading. `float()` strips a narrower set, without the separators U+001C to U+001F, so `float("\x1c1")` raises where the model reads 1.0. `parse_float` calls `float()` only on text `str.strip()` has already stripped (`src/db.py:64`), and on such text the two agree (`PyFloat.FloatOfStrippedText`), so its result is unaffected.
- `PyTime.StrptimeYearMonth`: the regex's `\d` also matches non-ASCII digits; the model reads ASCII digits only.
- Amounts are reals, so IEEE-754 rounding is not modelled. For example, `float("0.1")` is modelled as exactly 1/10, and the summary's sums are exact.
- `Budget.ParseFloat`: the input is a number or the text `str()` gives. A Python `bool` is an `int` and passes through as 0.0 or 1.0; a caller models it as `Number`.
- `Budget.ParseFloat`: the model never fails, but the source can. `float(value)` on an `int` beyond the float range raises `OverflowError` (`src/db.py:61-62`). That exception is not caught, and neither is one from `float(cleaned)`, because `src/db.py:70` catches only `ValueError`. Text with a huge exponent, such as "1e400", reads as an infinity in the source and as an exact real in the model.
- `month_label` (`src/db.py:232`) is left out: `strftime("%B %Y")` is locale-dependent text. Only strptime's acceptance of the key is kept, and `GetMonthBudgetView` returns `None` where the source raises `ValueError`.
- The TinyDB files, paths and directory creation (`src/db.py:158-166`) become in-memory fields. The unused `transactions` table is left out. The meta table is reduced to its one "initialized" flag.
- Records always carry their four fields. The source's `if record:` treats an empty document as missing, and `record.get("values", {})` allows a record without values. Neither can arise from the code's own writes, so the model does not represent them.
- Wall-clock time is a parameter. One `now` stamps every record a call creates, whereas the source reads `datetime.utcnow()` once per created record inside `ensure_year_has_months`. `date.today()` is the `today` and `todayYear` parameters.
- `App.NormalizeMonthKey`: the model zero-pads the year to four digits, as `strftime("%Y")` does where `%Y` pads. With glibc's `strftime`, `%Y` is not padded. A requested month such as `?month=0999-01` is then accepted by strptime (`app.py:15`) and reformatted as "999-01". `int(month_key[:4])` is then `int("999-")`, which raises an uncaught `ValueError` in both `dashboard` (`app.py:30`) and `save_budget` (`app.py:67`), before the store is touched. `Dashboard` and `SaveBudget` use the padded key and succeed. The unpadded behaviour is modelled separately, as recorded under "## Findings". The fallback key never has this problem, because today's year is never below 1000.
- The Flask application object, routing, template rendering, the `saved` flag and the `/health` endpoint (`app.py:20-26`, `app.py:57-62`, `app.py:74-84`) are request/response glue. `static/js/main.js` (UI only) and `src/config.py` (constants only) are not part of this model.
- Concurrent requests and their last-write-wins races are not modelled. The code has no coordination to model.
