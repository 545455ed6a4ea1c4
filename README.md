# Personal tax return engine — a verified model

This project models the core of a desktop application for preparing a Japanese
individual income-tax return (確定申告). The core is written in Python. The model
covers four parts:

- **The tax engine** (`calculators.py`).
  - `IncomeCalculator` nets each income category. Salary is reduced by the salary
    deduction curve. Business revenue is reduced by business expenses and by the
    650,000 yen blue-return (青色申告) bonus. Rental revenue is reduced by rent,
    utilities and depreciation.
  - `DeductionCalculator` computes each income deduction: basic, spouse, dependents,
    social insurance, life and earthquake insurance, donation and medical.
  - `TaxCalculator` applies the seven-rate progressive income-tax table. It adds the
    reconstruction, resident, business and consumption taxes and applies the
    home-loan credit. It then settles withholding and prepaid tax into tax due or a
    refund, and splits the income tax into four quarterly instalments.
- **The transaction ledger** (`models.py`). This covers `Transaction` with its
  dictionary round trip, and `TaxReturnData`. `TaxReturnData` keeps a list of
  transactions with add and remove-by-id. It aggregates them into filters, totals,
  per-category sums and a month-sorted summary.
- **The depreciation ledger** (`depreciation_calculator.py`). This covers
  straight-line (定額法) depreciation of one asset in a given year, the assets in
  service in a year and their total, and the asset list that add, update and delete
  change in place.
- **The recent-files list and backup pruning** (`data_manager.py`).
  - `add_recent_file` moves a path to the front, removes its duplicate and caps the
    list at ten.
  - `get_recent_files` drops paths that no longer exist.
  - `cleanup_old_backups` keeps the newest `max_backups` backup files.

**Representation**

- Money is an exact `real`, and `math.floor` is `Floor`.
- The categories are datatypes. Each carries its Japanese label, and a label that
  names no category parses to `None`.
- The bracket tables are constant sequences of `Band`s. The loops over them become
  a first-match scan, `Brackets.ScanTable`.
- The dictionaries the engine returns are records: `IncomeBreakdown`,
  `DeductionBreakdown` and `TaxCalculation`.
- The engine is a function of a `TaxReturn` snapshot. The loops in the source become
  methods proved equal to those functions.
- The classes whose fields the source mutates become Dafny classes:
  - `TaxReturns.TaxReturnData`;
  - `Depreciation.DepreciationCalculator`, whose asset list is a `seq` field and
    whose useful-life table is a `map` field;
  - `DataStore.DataManager`. Its settings file becomes the `recentFiles` field plus
    a count of settings writes. Its backup directory becomes a map from file name to
    modification time.

Modules, one per file:
- `Wrappers`: Option, Result, Max/Min, Floor.
- `Text`: `find`, `endswith` and decimal digits.
- `Lists`: order-keeping filter.
- `Grouping`: keyed sums.
- `Brackets`: first-match tables.
- `Models`.
- `TaxReturns`.
- `IncomeCalculator`.
- `DeductionCalculator`.
- `TaxCalculator`.
- `Depreciation`.
- `DataStore`.

**Where the code and the design description differ, the model follows the code:**
- Withholding and prepaid tax sum every EXPENSE transaction whose description
  contains 源泉 or 予定納税. They do not filter on `tax_related`
  (calculators.py:287-291).
- Outsourcing (外注費) is counted twice in business expenses: once as the starting
  value and once in the loop over categories (calculators.py:56-59).
- An income category label outside the enumeration is silently ignored
  (calculators.py:51-78).
- The salary deduction is not floored. Its constants are not the statutory ones
  (calculators.py:7-25). As a result, net salary drops at 1,625,000 yen.
- The spouse-deduction reduction branch (calculators.py:114-115) can never be taken.
  The earlier branch already returns 0 for every total income above 10,000,000.
- The fallback returns after the bracket loops (calculators.py:25, 226) are
  unreachable, because the last threshold of each table is infinite.

## Model

| member | source | states |
|---|---|---|
| Models.ParseTransactionType | models.py:6-8 | `TransactionType(s)` finds the member whose value is `s`, and no other; an unknown value yields `None` (the ValueError case) |
| Models.ParseIncomeCategory | models.py:10-18 | a label parses to category `c` exactly when `c`'s label is that text |
| Models.IncomeLabelsDistinct | models.py:10-18 | distinct income categories have distinct labels |
| Models.ExpenseLabelsDistinct | models.py:20-34 | distinct expense categories have distinct labels |
| Models.AllExpenseCategoriesComplete | models.py:20-34 | the iteration order over `ExpenseCategory` lists every member |
| Models.IsoFormat | models.py:53 | `isoformat()` text is 19 characters, or 26 when microseconds are present |
| Models.FromIsoFormat | models.py:69 | on the two layouts `isoformat` writes, whatever parses is a valid calendar date-time |
| Models.IsoRoundTrip | models.py:53-69 | parsing the ISO text of a valid date-time gives back the same date-time |
| Models.FromDict | models.py:66-79 | `from_dict` succeeds exactly when the date and the type value parse; a bad date gives an invalid-date error; `tax_related`, `receipt_attached` and `notes` default to true, false and "" |
| Models.DictRoundTrip | models.py:50-79 | `Transaction.from_dict(t.to_dict()) == t` |
| TaxReturns.TransactionsByType | models.py:164-165 | holds exactly the transactions of that type |
| TaxReturns.TransactionsByCategory | models.py:167-168 | holds exactly the transactions with that category |
| TaxReturns.TransactionsByDateRange | models.py:170-171 | holds exactly the transactions with start ≤ date ≤ end |
| TaxReturns.DateRangeKeepsOrder | models.py:170-171 | the date filter distributes over concatenation and keeps a single transaction exactly when it is in range, so the original order is kept |
| TaxReturns.WithoutId | models.py:161 | holds exactly the transactions whose id differs |
| TaxReturns.WithoutIdKeepsOrder | models.py:161 | removal by id distributes over concatenation, so the survivors keep their order |
| TaxReturns.AmountSumAppend | models.py:173-183 | the amount sum is additive over concatenation |
| TaxReturns.AmountSumNonNegative | models.py:173-183 | non-negative amounts give a non-negative sum |
| TaxReturns.TotalsNonNegative | models.py:173-183 | with non-negative amounts, the total income, the total expense and every category total are non-negative |
| TaxReturns.CategoryTotalsSpec | models.py:185-203 | the keys are exactly the categories of tax-related transactions of the kind, and each value is the sum of their amounts |
| TaxReturns.CategoryTotalsSumToTotal | models.py:177-203 | the per-category values sum to `calculate_total_income` (or `_expense`) |
| TaxReturns.MonthlyTotalsKeys | models.py:205-213 | the summary's months are exactly those of the tax-related transactions |
| TaxReturns.MonthlyTotalsValues | models.py:214-220 | each month's income is the sum of tax-related INCOME amounts in that month, its expense the sum of all other tax-related amounts, and net = income − expense |
| TaxReturns.MonthlyTotalsSpec | models.py:205-220 | the keys and, for every month present, the income, expense and net of that month |
| TaxReturns.EarliestMonth | models.py:222 | returns a member of the set that precedes every other member |
| TaxReturns.SortedByMonth | models.py:222 | `sorted(summary.items())` gives one row per key, carrying that key's value, in strictly ascending month order |
| TaxReturns.SortedByMonthCovers | models.py:222 | every key of the summary appears as a row |
| TaxReturns.MonthlySummaryCovers | models.py:205-222 | every tax-related transaction's month has a row |
| TaxReturns.MonthlySummaryRow | models.py:205-222 | every row comes from a tax-related transaction, and its income, expense and net are that month's sums |
| TaxReturns.MonthlyColumnsSumToTotals | models.py:177-222 | the income column summed over all months is the total income, and the expense column the total expense |
| TaxReturns.NonTaxRelatedIgnored | models.py:175-222 | adding a transaction that is not tax-related changes no total, no per-category map and no monthly summary |
| TaxReturns.RemoveUndoesAdd | models.py:156-162 | removing the id of a freshly added transaction restores the list |
| TaxReturns.TaxReturnData.constructor | models.py:82-154 | a new return has no transactions, no dependents, spouse income 0, blue-return filing, the basic deduction elected, the spouse deduction not elected, and every premium and the home-loan credit 0 |
| TaxReturns.TaxReturnData.AddTransaction | models.py:156-158 | the transaction is appended at the end, and nothing else changes |
| TaxReturns.TaxReturnData.RemoveTransaction | models.py:160-162 | the list becomes the old list without the id, in order |
| TaxReturns.AddAmount | models.py:190-192 | adding an amount under a category, creating it at zero when missing, is one step of accumulating the category totals |
| TaxReturns.TaxReturnData.ByCategory | models.py:185-203 | the dictionary-filling loop computes the category totals |
| TaxReturns.TaxReturnData.GetIncomeByCategory | models.py:185-193 | equals the income category totals |
| TaxReturns.TaxReturnData.GetExpenseByCategory | models.py:195-203 | equals the expense category totals |
| TaxReturns.TaxReturnData.GetMonthlySummary | models.py:205-222 | the loop's rows are the month-sorted monthly summary |
| Brackets.ScanTable | calculators.py:22-24 | on a table ending in an unbounded row, finds the first row whose threshold admits the amount |
| Brackets.FirstMatchUnique | calculators.py:22-24 | the first matching row is unique |
| IncomeCalculator.SalaryBandIsClosedForm | calculators.py:7-25 | above 1,625,000 the first matching salary row gives income × rate + fixed, which is the band formula |
| IncomeCalculator.CalculateSalaryDeduction | calculators.py:16-25 | the branch-and-scan computation equals the salary deduction curve |
| IncomeCalculator.SalaryDeductionBounds | calculators.py:16-25 | for non-negative income the deduction lies between 0 and the income |
| IncomeCalculator.NetSalaryProperties | calculators.py:52-54 | net salary is never negative, equals income − deduction for non-negative income, and is 0 up to 650,000 |
| IncomeCalculator.NetSalaryDropsAfter1625000 | calculators.py:8-24 | net salary falls from 731,250 to 547,500.6 when income passes 1,625,000 |
| IncomeCalculator.BusinessIncome | calculators.py:27-30 | the result is max(0, revenue − expenses − bonus) |
| IncomeCalculator.RentalIncome | calculators.py:32-33 | the result is max(0, revenue − expenses) |
| IncomeCalculator.CalculateBusinessExpenses | calculators.py:56-59 | the loop over categories computes the business expenses |
| IncomeCalculator.BusinessExpensesCountOutsourcingTwice | calculators.py:56-59 | business expenses = 2 × outsourcing + every other category except medical and donation |
| IncomeCalculator.FillField | calculators.py:51-78 | one step of the loop sets exactly the field of the step's category to that category's income and leaves the others; an unknown category label changes nothing |
| IncomeCalculator.CalculateTotalIncome | calculators.py:35-81 | the dictionary-filling loop over the income categories produces the income breakdown of the return |
| IncomeCalculator.BreakdownFields | calculators.py:51-78 | each field is its category's net income, or 0 when the category is absent; dividend, interest, capital gain, pension and other pass through unchanged |
| IncomeCalculator.UnknownCategoryIgnored | calculators.py:51-78 | adding an unknown category label leaves the breakdown unchanged |
| IncomeCalculator.TotalIncomeNonNegative | calculators.py:39-80 | with non-negative category totals, every field and the total are non-negative |
| DeductionCalculator.BasicDeductionSchedule | calculators.py:89-97 | the basic deduction is 480,000, 320,000, 160,000 or 0 exactly on the ranges up to 24M, 24.5M and 25M (each bound inclusive) and above; it never increases with income |
| DeductionCalculator.SpouseDeductionValues | calculators.py:99-115 | the spouse deduction is 0, 130,000, 260,000 or 380,000; it is positive exactly when spouse income ≤ 480,000 and total income ≤ 10M; it never increases with income |
| DeductionCalculator.CalculateDependentDeduction | calculators.py:117-127 | the accumulating loop computes the sum of the per-dependent amounts |
| DeductionCalculator.DependentsTotalBounds | calculators.py:117-127 | each dependent adds between 380,000 and 630,000 |
| DeductionCalculator.DependentsTotalAppend | calculators.py:117-127 | the dependent total is additive over concatenation |
| DeductionCalculator.LifeInsuranceProperties | calculators.py:132-140 | the life-insurance deduction lies in [0, min(premium, 40,000)], never decreases as the premium grows, and is continuous at 20,000, 40,000 and 80,000 |
| DeductionCalculator.SmallDeductionsProperties | calculators.py:142-150 | earthquake = min(premium, 50,000); donation ∈ [0, donation] and positive exactly above 2,000; medical ≥ 0, at most the expense, and expense − 100,000 once income ≥ 2,000,000 |
| DeductionCalculator.TotalDeductionsExcludesHomeLoan | calculators.py:156-201 | the home-loan amount is copied through and does not enter the total; basic and spouse are 0 unless elected |
| DeductionCalculator.DeductionsNonNegative | calculators.py:156-201 | with non-negative premiums, the total deduction is non-negative |
| TaxCalculator.TaxBracketIsClosedForm | calculators.py:205-224 | the first matching bracket's line equals the piecewise closed form of the table |
| TaxCalculator.CalculateIncomeTax | calculators.py:218-226 | the bracket scan computes 0 for taxable ≤ 0, and otherwise max(0, floor(taxable × rate − subtraction)) of the first matching bracket |
| TaxCalculator.BracketsMeetAtThresholds | calculators.py:205-213 | adjacent brackets give the same amount at their common threshold |
| TaxCalculator.BracketLineIsMaxLine | calculators.py:205-213 | the bracketed tax line is the maximum of the seven lines |
| TaxCalculator.IncomeTaxMonotone | calculators.py:218-226 | income tax never decreases as taxable income grows |
| TaxCalculator.IncomeTaxBounds | calculators.py:218-226 | income tax is at least 0 and at most 45% of a positive taxable income |
| TaxCalculator.BusinessTaxProperties | calculators.py:240-249 | business tax is 0 up to 2.9M, never negative, never decreasing, and 200,000 at 6.9M |
| TaxCalculator.OtherTaxesNonNegative | calculators.py:228-255 | resident, reconstruction and consumption tax are non-negative; consumption tax is at least 1M above 10M of revenue |
| TaxCalculator.EstimatedQuarterlyTax | calculators.py:257-259 | four equal instalments of a quarter each, summing exactly to the annual tax |
| TaxCalculator.PaidTaxAppend | calculators.py:287-291 | a transaction adds its amount to the paid tax exactly when it is an expense whose description contains the marker, whatever `tax_related` is |
| TaxCalculator.Reconcile | calculators.py:293-300 | tax due and refund are both ≥ 0, at most one is non-zero, and due − refund = total tax − paid |
| TaxCalculator.SettleSpec | calculators.py:271-302 | taxable = max(0, income − deductions); the income tax after the credit is ≥ 0, at most the table tax when the credit is not negative, and equals max(0, table tax − home loan); reconstruction tax is taken on the pre-credit tax; total = sum of the five taxes; due and refund settle it; the quarters sum to the income tax |
| TaxCalculator.CalculateAllTaxesEntries | calculators.py:261-323 | the totals come from the return's own income and deduction breakdowns; the credit applied is the one entered; withholding and prepaid are the marker sums; net income = total income − total expense |
| TaxCalculator.CalculateAllTaxesIncomeTax | calculators.py:271-284 | for a whole return, the income tax reported is ≥ 0, and at most the table tax on the taxable income when the home-loan credit entered is not negative |
| TaxCalculator.CalculateAllTaxesSettles | calculators.py:293-300 | for a whole return, due and refund are ≥ 0, one of them is 0, and their difference is total tax − (withholding + prepaid) |
| TaxCalculator.TotalTaxNonNegative | calculators.py:281-285 | for any return, whatever credit was entered, the total tax reported is never negative |
| Depreciation.MonthsUsed | depreciation_calculator.py:80-84 | months used lie in 1..12, and are 12 exactly when the year is not the purchase year or the purchase was in January |
| Depreciation.YearAmount | depreciation_calculator.py:86-89 | a full year's amount is price / life; with a non-negative price the amount lies between 0 and that |
| Depreciation.CalculateDepreciation | depreciation_calculator.py:72-104 | as written: months in 1..12; the amount is the year's share; current value = max(0, price − total); in the purchase year, the total is the year's amount |
| Depreciation.TotalOmitsPurchaseYear | depreciation_calculator.py:92-96 | as written, after the purchase year the total is annual × (years since purchase), which is the true sum less the purchase year's share |
| Depreciation.SumAfterPurchaseYear | depreciation_calculator.py:86-96 | the sum of yearly amounts is the purchase year's share plus the annual amount for each later year |
| Depreciation.ValueStallsAfterPurchaseYear | depreciation_calculator.py:92-97 | as written, an asset bought in January 2020 for 400,000 over 4 years is worth 300,000 at the end of both 2020 and 2021 |
| Depreciation.CorrectedDepreciation | depreciation_calculator.py:72-104 | same amount and months as the source; current value = max(0, price − corrected total) |
| Depreciation.CorrectedTotalIsSum | depreciation_calculator.py:92-96 | the corrected total is the sum of every year's amount up to the target year |
| Depreciation.CorrectedValueDeclines | depreciation_calculator.py:97 | the corrected current value never increases from one year to the next |
| Depreciation.CorrectedFullyDepreciated | depreciation_calculator.py:97-115 | at the end of the last year in service, the corrected value is 0 |
| Depreciation.ForYear | depreciation_calculator.py:116-119 | the copy keeps every field of the asset except the current value, which is ≥ 0; its current value, total depreciation and months used are those of `calculate_depreciation` as written, and its amount is the year's amount |
| Depreciation.CorrectedForYear | depreciation_calculator.py:116-119 | the same entry with the corrected figures: same asset fields, amount and months, and a total equal to the sum of the yearly amounts |
| Depreciation.ListingShowsStall | depreciation_calculator.py:92-119 | the listing for 2021 shows a 2020-01 asset of 400,000 over 4 years at 300,000 with 100,000 written off; the corrected entry would show 200,000 and 200,000 |
| Depreciation.AssetsForYear | depreciation_calculator.py:106-121 | the entries are exactly the copies, with the as-written figures, of the assets with purchase year ≤ year ≤ purchase year + life |
| Depreciation.AssetsForYearAppend | depreciation_calculator.py:106-121 | the selection distributes over concatenation, so list order is kept |
| Depreciation.TotalForYearAppend | depreciation_calculator.py:123-127 | appending an asset adds its amount to the year's total exactly when it is in service that year |
| Depreciation.TotalForYearNonNegative | depreciation_calculator.py:123-127 | with non-negative prices, the year's total is non-negative |
| Depreciation.AssetIdInjective | depreciation_calculator.py:57 | `asset_{n}` ids differ for different n |
| Depreciation.AssetUpdate.ApplyTo | depreciation_calculator.py:133 | the id is kept unless one is given, a given name or price replaces the asset's, and an empty update changes nothing |
| Depreciation.FindAsset | depreciation_calculator.py:131-134 | the index of the first asset with the id, or none when no asset has it |
| Depreciation.DeleteUndoesAdd | depreciation_calculator.py:137-139 | deleting the id of a freshly added asset with a new id restores the list |
| Depreciation.IdReusedAfterDelete | depreciation_calculator.py:57-139 | after deleting `asset_1` from two assets, the next asset added is given `asset_2` again |
| Depreciation.CustomCategoryLife | depreciation_calculator.py:146-148 | a custom category takes the given life, and no other category changes |
| Depreciation.DepreciationCalculator.constructor | depreciation_calculator.py:9-28 | the stored assets and the default useful-life table |
| Depreciation.DepreciationCalculator.AddAsset | depreciation_calculator.py:50-70 | appends exactly one asset with id `asset_{n+1}`, current value = price, and life from the argument, else the table, else 5 |
| Depreciation.DepreciationCalculator.UpdateAsset | depreciation_calculator.py:129-135 | only the first asset with the id changes; no match changes nothing |
| Depreciation.DepreciationCalculator.DeleteAsset | depreciation_calculator.py:137-140 | every asset with the id is removed, and the rest keep their order |
| Depreciation.DepreciationCalculator.AddCustomCategory | depreciation_calculator.py:146-148 | the useful-life table gains or overwrites that one entry |
| Depreciation.DepreciationCalculator.GetAssetsForYear | depreciation_calculator.py:106-121 | the loop returns the year's selection and leaves the asset list unchanged |
| Depreciation.DepreciationCalculator.GetTotalDepreciationForYear | depreciation_calculator.py:123-127 | the sum of the year's depreciation amounts |
| DataStore.RemoveFirst | data_manager.py:244-245 | `list.remove`: drops one occurrence when present, and otherwise changes nothing |
| DataStore.FirstIndex | data_manager.py:244-245 | the position of an `x` with no `x` before it |
| DataStore.RemoveFirstDropsFirst | data_manager.py:244-245 | the occurrence dropped is the first one: the entries before and after it stay, in order |
| DataStore.RecentFileFirst | data_manager.py:244-248 | the new list starts with the path, holds 1 to 10 entries, and every entry is the path or was there before |
| DataStore.RecentFileOnce | data_manager.py:244-247 | if the old list held the path at most once, the new list holds it exactly once |
| DataStore.RecentFileNoDuplicates | data_manager.py:244-248 | a list without duplicates stays without duplicates |
| DataStore.RecentFileKeepsOrder | data_manager.py:244-248 | the other entries are a prefix of the old list's other entries, in the same order |
| DataStore.RecentFileIdempotent | data_manager.py:240-251 | adding the same path twice in a row is the same as adding it once |
| DataStore.FilterKeepingLengthKeepsAll | data_manager.py:262 | when nothing was dropped, the valid list is the stored list |
| DataStore.InsertByAge | data_manager.py:76 | insertion into a newest-first list keeps it newest-first and adds exactly the one entry |
| DataStore.SortNewestFirst | data_manager.py:76 | `sort(key=mtime, reverse=True)` gives a newest-first permutation |
| DataStore.KeptAreNewest | data_manager.py:76-79 | deleting the slice after a cut keeps exactly the names before it, keeps every non-backup file, and keeps nothing older than what was deleted |
| DataStore.ListBackups | data_manager.py:70-74 | one entry per `.json` file, with its mtime, and no name twice |
| DataStore.StaleBackups | data_manager.py:70-79 | deleting the stale entries keeps `len(backups[:max_backups])` backups, every other file, and only the newest |
| DataStore.NamesOfPermutation | data_manager.py:76 | sorting does not change which files are listed |
| DataStore.DataManager.constructor | data_manager.py:11-14 | starts from the stored recent-files list and backup directory, with no settings written yet |
| DataStore.DataManager.AddRecentFile | data_manager.py:240-251 | the list becomes the move-to-front result and the settings are written once |
| DataStore.DataManager.GetRecentFiles | data_manager.py:253-266 | returns the existing paths in stored order; writes the list back once exactly when something was dropped, and otherwise changes nothing |
| DataStore.DataManager.CleanupOldBackups | data_manager.py:68-82 | only backups are deleted, the newest `max_backups` of them are kept, and no kept backup is older than a deleted one |

## Left out

- File and JSON I/O is not modelled: `save_data`, `load_data`, `create_backup`,
  `auto_save`, `restore_backup`, CSV import and export, `load_assets`/`save_assets`,
  and reading or writing the settings file. The settings become fields and a write
  counter.
- Calls to `os.path.exists`, `os.listdir` and `os.path.getmtime` become inputs: a
  set of existing paths and a map from backup file name to mtime.
- The `try/except` wrappers that print and swallow I/O errors are left out, because
  the modelled operations cannot fail.
- `datetime.now()` is not modelled. `TaxReturnData`'s `created_at`/`updated_at` are
  left out. The default target year in `calculate_depreciation` is not modelled; the
  year is always a parameter.
- Python floats are modelled as exact reals. IEEE-754 rounding is not reproduced.
- `calculate_home_loan_deduction` (calculators.py:152-154) is left out, because
  `calculate_all_taxes` never calls it.
- `get_backup_list`, `get_asset_categories`, and the `to_dict`/`from_dict` of
  `TaxReturnData` are left out. They are listing and dictionary plumbing.
- The GUI modules `main.py`, `reports.py`, `transaction_manager.py` and
  `pdf_generator.py` are not part of this model. They are widgets, charts, dialogs
  and PDF output.
- `strptime` parsing of an asset's purchase date is not modelled. The date is a
  (year, month, day) value. An asset must have a positive useful life and a month in
  1..12 (`Depreciation.Depreciable`). A useful life of 0 divides by zero in the
  source.
- Depreciation.DepreciationCalculator.AddAsset: the dictionary the source returns
  and appends is one object, so later updates through either reference are shared.
  The model returns a value, so this aliasing is not captured.
- Depreciation.DepreciationCalculator.UpdateAsset: `asset.update(kwargs)` accepts
  arbitrary keys. The model takes an `AssetUpdate` with one optional field per
  asset attribute, so unknown keys are not representable.
- DataStore.SortNewestFirst: Python's sort is stable, but `os.listdir` order is
  arbitrary. The model therefore fixes no order among backups with equal mtimes.
  Only "no kept backup is older than a deleted one" is stated.
- TaxReturns.MonthlySummary: the source keys months by the text `"%Y-%m"`. The model
  keys them by (year, month), which sorts the same way for four-digit years only.
- Models.FromIsoFormat: accepts only the two layouts `isoformat` writes
  (`YYYY-MM-DDTHH:MM:SS`, optionally followed by `.ffffff`). Python's `fromisoformat`
  also accepts date-only text, other separators, minute precision, shorter fractions
  and UTC offsets. The model rejects these as invalid dates. `to_dict` never writes them.
- Models.FromDict: inherits the narrower date parsing of `Models.FromIsoFormat`.
- DeductionCalculator.CalculateDependentDeduction: a dependent's age is stored as text
  and read with `int(...)`. The model takes the age as an optional integer, so the
  `ValueError` that non-numeric text such as `""` raises is not modelled.
- TaxReturns.TaxReturnData.AddTransaction: the required `amount > 0` is only needed
  by the non-negativity lemmas, which assume non-negative amounts. No operation
  requires it.

## Findings

| source | as written | input that shows it | evidently intended | confidence | as-written member | corrected member |
|---|---|---|---|---|---|---|
| depreciation_calculator.py:92-97 | after the purchase year, total depreciation = annual × (target − purchase − 1) + this year's amount = annual × (target − purchase), so the months depreciated in the purchase year are never counted | asset bought 2020-01-15 for 400,000 over 4 years: value 300,000 at the end of 2020 and again 300,000 at the end of 2021, although 200,000 has been charged by then | total depreciation is the purchase year's partial amount plus a full annual amount for each later year, so the value falls every year until it reaches 0 | not executed | Depreciation.CalculateDepreciation (shown by Depreciation.TotalOmitsPurchaseYear and Depreciation.ValueStallsAfterPurchaseYear) | Depreciation.CorrectedDepreciation (Depreciation.CorrectedTotalIsSum, Depreciation.CorrectedValueDeclines, Depreciation.CorrectedFullyDepreciated), and Depreciation.CorrectedForYear for a listing entry; the year listing itself (`ForYear`, `AssetsForYear`, `GetAssetsForYear`) keeps the as-written figures, as Depreciation.ListingShowsStall shows |
