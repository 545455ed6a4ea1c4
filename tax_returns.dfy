/**
 * The `TaxReturnData` aggregate: its list of transactions, the filters and
 * totals over it, the per-category and per-month summaries, and the two
 * operations that change the list. The tax engine reads transactions only
 * through the functions in this module.
 */
module TaxReturns {
  import opened Wrappers
  import opened Models
  import opened Lists
  import Grouping

  // ---------------------------------------------------------------------------
  // Filters (the `get_transactions_by_*` list comprehensions)

  function OfType(kind: TransactionType): Transaction -> bool {
    (t: Transaction) => t.transactionType == kind
  }

  function InCategory(category: string): Transaction -> bool {
    (t: Transaction) => t.category == category
  }

  function InDateRange(start: DateTime, end: DateTime): Transaction -> bool {
    (t: Transaction) => NotAfter(start, t.date) && NotAfter(t.date, end)
  }

  function HasOtherId(id: string): Transaction -> bool {
    (t: Transaction) => t.id != id
  }

  const TaxRelated: Transaction -> bool := (t: Transaction) => t.taxRelated

  function TransactionsByType(ts: seq<Transaction>, kind: TransactionType): (r: seq<Transaction>)
    ensures forall t :: t in r <==> t in ts && t.transactionType == kind
  {
    Filter(ts, OfType(kind))
  }

  function TransactionsByCategory(ts: seq<Transaction>, category: string): (r: seq<Transaction>)
    ensures forall t :: t in r <==> t in ts && t.category == category
  {
    Filter(ts, InCategory(category))
  }

  /** The transactions dated from `start` to `end`, both ends included. */
  function TransactionsByDateRange(ts: seq<Transaction>, start: DateTime, end: DateTime): (r: seq<Transaction>)
    ensures forall t :: t in r <==> t in ts && NotAfter(start, t.date) && NotAfter(t.date, end)
  {
    Filter(ts, InDateRange(start, end))
  }

  /**
   * The date-range filter keeps the original order: filtering a concatenation
   * is the concatenation of the filtered parts, and a single transaction is
   * kept exactly when its date is in range.
   */
  lemma DateRangeKeepsOrder(a: seq<Transaction>, b: seq<Transaction>, t: Transaction, start: DateTime, end: DateTime)
    ensures TransactionsByDateRange(a + b, start, end)
         == TransactionsByDateRange(a, start, end) + TransactionsByDateRange(b, start, end)
    ensures TransactionsByDateRange([t], start, end)
         == if NotAfter(start, t.date) && NotAfter(t.date, end) then [t] else []
  {
    FilterAppend(a, b, InDateRange(start, end));
    FilterSingleton(t, InDateRange(start, end));
  }

  /** `[t for t in ts if t.id != id]`, what `remove_transaction` keeps. */
  function WithoutId(ts: seq<Transaction>, id: string): (r: seq<Transaction>)
    ensures forall t :: t in r <==> t in ts && t.id != id
  {
    Filter(ts, HasOtherId(id))
  }

  /** Removing by id keeps the other transactions in their original order. */
  lemma WithoutIdKeepsOrder(a: seq<Transaction>, b: seq<Transaction>, t: Transaction, id: string)
    ensures WithoutId(a + b, id) == WithoutId(a, id) + WithoutId(b, id)
    ensures WithoutId([t], id) == if t.id != id then [t] else []
  {
    FilterAppend(a, b, HasOtherId(id));
    FilterSingleton(t, HasOtherId(id));
  }

  // ---------------------------------------------------------------------------
  // Totals (the `calculate_total_*` sums)

  /** `sum(t.amount for t in ts)`. */
  function AmountSum(ts: seq<Transaction>): real {
    if ts == [] then 0.0 else AmountSum(ts[..|ts| - 1]) + ts[|ts| - 1].amount
  }

  /** `sum(t.amount for t in ts if t.tax_related)`. */
  function TaxRelatedSum(ts: seq<Transaction>): real {
    AmountSum(Filter(ts, TaxRelated))
  }

  function TotalByCategory(ts: seq<Transaction>, category: string): real {
    TaxRelatedSum(TransactionsByCategory(ts, category))
  }

  function TotalIncome(ts: seq<Transaction>): real {
    TaxRelatedSum(TransactionsByType(ts, Income))
  }

  function TotalExpense(ts: seq<Transaction>): real {
    TaxRelatedSum(TransactionsByType(ts, Expense))
  }

  lemma {:induction false} AmountSumAppend(a: seq<Transaction>, b: seq<Transaction>)
    ensures AmountSum(a + b) == AmountSum(a) + AmountSum(b)
  {
    if b == [] {
      assert a + b == a;
    } else {
      assert (a + b)[..|a + b| - 1] == a + b[..|b| - 1];
      AmountSumAppend(a, b[..|b| - 1]);
    }
  }

  lemma {:induction false} AmountSumNonNegative(ts: seq<Transaction>)
    requires forall i :: 0 <= i < |ts| ==> ts[i].amount >= 0.0
    ensures AmountSum(ts) >= 0.0
  {
    if ts != [] {
      AmountSumNonNegative(ts[..|ts| - 1]);
    }
  }

  /** With no negative amounts, every total is at least 0. */
  lemma TotalsNonNegative(ts: seq<Transaction>, category: string)
    requires forall i :: 0 <= i < |ts| ==> ts[i].amount >= 0.0
    ensures TotalIncome(ts) >= 0.0 && TotalExpense(ts) >= 0.0 && TotalByCategory(ts, category) >= 0.0
  {
    var inc := Filter(TransactionsByType(ts, Income), TaxRelated);
    var exp := Filter(TransactionsByType(ts, Expense), TaxRelated);
    var cat := Filter(TransactionsByCategory(ts, category), TaxRelated);
    assert forall i :: 0 <= i < |inc| ==> inc[i] in ts;
    assert forall i :: 0 <= i < |exp| ==> exp[i] in ts;
    assert forall i :: 0 <= i < |cat| ==> cat[i] in ts;
    AmountSumNonNegative(inc);
    AmountSumNonNegative(exp);
    AmountSumNonNegative(cat);
  }

  // ---------------------------------------------------------------------------
  // Per-category totals (`get_income_by_category`, `get_expense_by_category`)

  /** The tax-related transactions of one kind, in list order. */
  function TaxRelatedOfType(ts: seq<Transaction>, kind: TransactionType): seq<Transaction> {
    Filter(TransactionsByType(ts, kind), TaxRelated)
  }

  /** `(category, amount)` for each transaction. */
  function CategoryPairs(ts: seq<Transaction>): (r: seq<(string, real)>)
    ensures |r| == |ts|
  {
    if ts == [] then [] else CategoryPairs(ts[..|ts| - 1]) + [(ts[|ts| - 1].category, ts[|ts| - 1].amount)]
  }

  lemma {:induction false} CategoryPairsAt(ts: seq<Transaction>)
    ensures forall i :: 0 <= i < |ts| ==> CategoryPairs(ts)[i] == (ts[i].category, ts[i].amount)
  {
    if ts != [] {
      CategoryPairsAt(ts[..|ts| - 1]);
    }
  }

  /** The dictionary both `get_*_by_category` loops fill, for transactions of one kind. */
  function CategoryTotals(ts: seq<Transaction>, kind: TransactionType): map<string, real> {
    Grouping.GroupTotals(CategoryPairs(TaxRelatedOfType(ts, kind)))
  }

  function IncomeByCategory(ts: seq<Transaction>): map<string, real> {
    CategoryTotals(ts, Income)
  }

  function ExpenseByCategory(ts: seq<Transaction>): map<string, real> {
    CategoryTotals(ts, Expense)
  }

  lemma CategoryPairsKeys(ts: seq<Transaction>)
    ensures Grouping.KeysOf(CategoryPairs(ts)) == set t | t in ts :: t.category
  {
    var r := CategoryPairs(ts);
    CategoryPairsAt(ts);
    forall c | c in Grouping.KeysOf(r) ensures c in set t | t in ts :: t.category {
      var i :| 0 <= i < |r| && r[i].0 == c;
      assert ts[i] in ts;
    }
    forall c | c in set t | t in ts :: t.category ensures c in Grouping.KeysOf(r) {
      var t :| t in ts && t.category == c;
      var i :| 0 <= i < |ts| && ts[i] == t;
      assert r[i].0 == c;
    }
  }

  lemma CategoryPairsSnoc(ts: seq<Transaction>)
    requires ts != []
    ensures CategoryPairs(ts)[..|ts| - 1] == CategoryPairs(ts[..|ts| - 1])
  {
  }

  lemma AmountSumSnoc(ts: seq<Transaction>, t: Transaction)
    ensures AmountSum(ts + [t]) == AmountSum(ts) + t.amount
  {
    assert (ts + [t])[..|ts|] == ts;
  }

  lemma {:induction false} CategoryPairsTotalFor(ts: seq<Transaction>, category: string)
    ensures Grouping.TotalFor(CategoryPairs(ts), category) == AmountSum(Filter(ts, InCategory(category)))
  {
    if ts != [] {
      var init := ts[..|ts| - 1];
      var t := ts[|ts| - 1];
      CategoryPairsTotalFor(init, category);
      assert CategoryPairs(ts) == CategoryPairs(init) + [(t.category, t.amount)];
      Grouping.TotalForSnoc(CategoryPairs(init), (t.category, t.amount), category);
      var f0 := Filter(init, InCategory(category));
      FilterSnoc(ts, InCategory(category));
      assert InCategory(category)(t) == (t.category == category);
      var p0 := CategoryPairs(init);
      assert Grouping.TotalFor(p0, category) == AmountSum(f0);
      if t.category == category {
        AmountSumSnoc(f0, t);
        assert Filter(ts, InCategory(category)) == f0 + [t];
        assert Grouping.TotalFor(CategoryPairs(ts), category) == Grouping.TotalFor(p0, category) + t.amount;
      } else {
        assert Filter(ts, InCategory(category)) == f0;
        assert Grouping.TotalFor(CategoryPairs(ts), category) == Grouping.TotalFor(p0, category);
      }
    }
  }

  lemma {:induction false} CategoryPairsTotal(ts: seq<Transaction>)
    ensures Grouping.Total(CategoryPairs(ts)) == AmountSum(ts)
  {
    if ts != [] {
      CategoryPairsTotal(ts[..|ts| - 1]);
      CategoryPairsSnoc(ts);
    }
  }

  lemma TaxRelatedOfTypeMembers(ts: seq<Transaction>, kind: TransactionType)
    ensures (set t | t in TaxRelatedOfType(ts, kind) :: t.category)
         == set t | t in ts && t.transactionType == kind && t.taxRelated :: t.category
  {
    var rel := TaxRelatedOfType(ts, kind);
    var byType := TransactionsByType(ts, kind);
    forall t | t in ts && t.transactionType == kind && t.taxRelated ensures t in rel {
      var i :| 0 <= i < |ts| && ts[i] == t;
      assert t in byType;
      var j :| 0 <= j < |byType| && byType[j] == t;
    }
    forall t | t in rel ensures t in ts && t.transactionType == kind && t.taxRelated {
      var i :| 0 <= i < |rel| && rel[i] == t;
      var j :| 0 <= j < |byType| && byType[j] == t;
    }
  }

  /**
   * The per-category dictionary has exactly the categories that occur among the
   * tax-related transactions of that kind, and each maps to the sum of their
   * amounts in that category.
   */
  lemma CategoryTotalsSpec(ts: seq<Transaction>, kind: TransactionType)
    ensures CategoryTotals(ts, kind).Keys
         == set t | t in ts && t.transactionType == kind && t.taxRelated :: t.category
    ensures forall c :: c in CategoryTotals(ts, kind) ==>
              CategoryTotals(ts, kind)[c] == TaxRelatedSum(TransactionsByCategory(TransactionsByType(ts, kind), c))
  {
    var rel := TaxRelatedOfType(ts, kind);
    Grouping.GroupTotalsSpec(CategoryPairs(rel));
    CategoryPairsKeys(rel);
    TaxRelatedOfTypeMembers(ts, kind);
    forall c | c in CategoryTotals(ts, kind)
      ensures CategoryTotals(ts, kind)[c] == TaxRelatedSum(TransactionsByCategory(TransactionsByType(ts, kind), c))
    {
      CategoryPairsTotalFor(rel, c);
      FilterCommutes(TransactionsByType(ts, kind), TaxRelated, InCategory(c));
    }
  }

  /**
   * Adding up the values of the per-category dictionary, each category once,
   * gives `calculate_total_income` (for income) or `calculate_total_expense`
   * (for expense).
   */
  lemma CategoryTotalsSumToTotal(ts: seq<Transaction>, kind: TransactionType, categories: seq<string>)
    requires Grouping.Distinct(categories)
    requires (set c | c in categories) == CategoryTotals(ts, kind).Keys
    ensures forall i :: 0 <= i < |categories| ==> categories[i] in CategoryTotals(ts, kind)
    ensures Grouping.SumValues(CategoryTotals(ts, kind), categories)
         == (if kind == Income then TotalIncome(ts) else TotalExpense(ts))
  {
    var rel := TaxRelatedOfType(ts, kind);
    Grouping.GroupTotalsSumToTotal(CategoryPairs(rel), categories);
    CategoryPairsTotal(rel);
  }

  // ---------------------------------------------------------------------------
  // Per-month summary (`get_monthly_summary`)

  /** The `"%Y-%m"` key of a date, kept as its two numbers. */
  datatype Month = Month(year: int, month: int)

  function MonthOf(d: DateTime): Month {
    Month(d.year, d.month)
  }

  /** The order of the `"%Y-%m"` keys: by year, then by month. */
  predicate MonthBefore(a: Month, b: Month) {
    a.year < b.year || (a.year == b.year && a.month < b.month)
  }

  datatype MonthTotals = MonthTotals(income: real, expense: real, net: real)

  /** One pass of the summary loop body for a tax-related transaction. */
  function RecordInMonth(summary: map<Month, MonthTotals>, t: Transaction): map<Month, MonthTotals> {
    var key := MonthOf(t.date);
    var start := if key in summary then summary[key] else MonthTotals(0.0, 0.0, 0.0);
    var added := if t.transactionType == Income then start.(income := start.income + t.amount)
                 else start.(expense := start.expense + t.amount);
    summary[key := added.(net := added.income - added.expense)]
  }

  /** The summary dictionary after the loop, before sorting. */
  function MonthlyTotals(ts: seq<Transaction>): map<Month, MonthTotals> {
    if ts == [] then map[]
    else
      var before := MonthlyTotals(ts[..|ts| - 1]);
      if ts[|ts| - 1].taxRelated then RecordInMonth(before, ts[|ts| - 1]) else before
  }

  /** `(month, amount)` for each transaction. */
  function MonthPairs(ts: seq<Transaction>): (r: seq<(Month, real)>)
    ensures |r| == |ts|
  {
    if ts == [] then [] else MonthPairs(ts[..|ts| - 1]) + [(MonthOf(ts[|ts| - 1].date), ts[|ts| - 1].amount)]
  }

  lemma {:induction false} MonthPairsAt(ts: seq<Transaction>)
    ensures forall i :: 0 <= i < |ts| ==> MonthPairs(ts)[i] == (MonthOf(ts[i].date), ts[i].amount)
  {
    if ts != [] {
      MonthPairsAt(ts[..|ts| - 1]);
    }
  }

  lemma {:induction false} MonthPairsTotal(ts: seq<Transaction>)
    ensures Grouping.Total(MonthPairs(ts)) == AmountSum(ts)
  {
    if ts != [] {
      MonthPairsTotal(ts[..|ts| - 1]);
      assert MonthPairs(ts)[..|ts| - 1] == MonthPairs(ts[..|ts| - 1]);
    }
  }

  lemma FilterSnoc(ts: seq<Transaction>, p: Transaction -> bool)
    requires ts != []
    ensures Filter(ts, p) == Filter(ts[..|ts| - 1], p) + (if p(ts[|ts| - 1]) then [ts[|ts| - 1]] else [])
  {
  }

  lemma TaxRelatedOfTypeSnoc(ts: seq<Transaction>, kind: TransactionType)
    requires ts != []
    ensures TaxRelatedOfType(ts, kind)
         == TaxRelatedOfType(ts[..|ts| - 1], kind)
            + (if ts[|ts| - 1].transactionType == kind && ts[|ts| - 1].taxRelated then [ts[|ts| - 1]] else [])
  {
    var t := ts[|ts| - 1];
    FilterSnoc(ts, OfType(kind));
    FilterAppend(Filter(ts[..|ts| - 1], OfType(kind)), if t.transactionType == kind then [t] else [], TaxRelated);
    FilterSingleton(t, TaxRelated);
  }

  /** The month-keyed sum of the amounts of the tax-related transactions of one kind. */
  function MonthAmount(ts: seq<Transaction>, kind: TransactionType, k: Month): real {
    Grouping.TotalFor(MonthPairs(TaxRelatedOfType(ts, kind)), k)
  }

  lemma MonthAmountSnoc(ts: seq<Transaction>, kind: TransactionType, k: Month)
    requires ts != []
    ensures var t := ts[|ts| - 1];
      MonthAmount(ts, kind, k) == MonthAmount(ts[..|ts| - 1], kind, k)
        + (if t.taxRelated && t.transactionType == kind && MonthOf(t.date) == k then t.amount else 0.0)
  {
    var t := ts[|ts| - 1];
    TaxRelatedOfTypeSnoc(ts, kind);
    var rel0 := TaxRelatedOfType(ts[..|ts| - 1], kind);
    if t.taxRelated && t.transactionType == kind {
      assert MonthPairs(rel0 + [t]) == MonthPairs(rel0) + [(MonthOf(t.date), t.amount)];
      Grouping.TotalForSnoc(MonthPairs(rel0), (MonthOf(t.date), t.amount), k);
    } else {
      assert rel0 + [] == rel0;
    }
  }

  lemma {:induction false} MonthlyTotalsKeys(ts: seq<Transaction>)
    ensures MonthlyTotals(ts).Keys == set t | t in ts && t.taxRelated :: MonthOf(t.date)
  {
    if ts != [] {
      var init := ts[..|ts| - 1];
      MonthlyTotalsKeys(init);
      assert ts == init + [ts[|ts| - 1]];
    }
  }

  /** What the summary dictionary holds for month `k`, zero where it has no entry. */
  function EntryOrZero(m: map<Month, MonthTotals>, k: Month): MonthTotals {
    if k in m then m[k] else MonthTotals(0.0, 0.0, 0.0)
  }

  lemma {:induction false} MonthlyTotalsValues(ts: seq<Transaction>, k: Month)
    ensures EntryOrZero(MonthlyTotals(ts), k).income == MonthAmount(ts, Income, k)
    ensures EntryOrZero(MonthlyTotals(ts), k).expense == MonthAmount(ts, Expense, k)
    ensures EntryOrZero(MonthlyTotals(ts), k).net
         == EntryOrZero(MonthlyTotals(ts), k).income - EntryOrZero(MonthlyTotals(ts), k).expense
  {
    if ts != [] {
      MonthlyTotalsValues(ts[..|ts| - 1], k);
      MonthAmountSnoc(ts, Income, k);
      MonthAmountSnoc(ts, Expense, k);
    }
  }

  /**
   * The summary dictionary has one entry per month in which a tax-related
   * transaction falls; its income and expense are the sums of that month's
   * tax-related income and non-income amounts, and its net is their difference.
   */
  lemma MonthlyTotalsSpec(ts: seq<Transaction>)
    ensures MonthlyTotals(ts).Keys == set t | t in ts && t.taxRelated :: MonthOf(t.date)
    ensures forall k :: k in MonthlyTotals(ts) ==>
              && MonthlyTotals(ts)[k].income == MonthAmount(ts, Income, k)
              && MonthlyTotals(ts)[k].expense == MonthAmount(ts, Expense, k)
              && MonthlyTotals(ts)[k].net == MonthlyTotals(ts)[k].income - MonthlyTotals(ts)[k].expense
  {
    MonthlyTotalsKeys(ts);
    forall k | k in MonthlyTotals(ts)
      ensures MonthlyTotals(ts)[k].income == MonthAmount(ts, Income, k)
      ensures MonthlyTotals(ts)[k].expense == MonthAmount(ts, Expense, k)
      ensures MonthlyTotals(ts)[k].net == MonthlyTotals(ts)[k].income - MonthlyTotals(ts)[k].expense
    {
      MonthlyTotalsValues(ts, k);
    }
  }

  /** `MonthBefore` is a strict total order on months. */
  lemma MonthOrderTotal(a: Month, b: Month)
    ensures a == b || MonthBefore(a, b) || MonthBefore(b, a)
    ensures !(MonthBefore(a, b) && MonthBefore(b, a))
  {
  }

  lemma {:induction false} EarliestExists(ks: set<Month>)
    requires ks != {}
    ensures exists r :: r in ks && forall k :: k in ks ==> !MonthBefore(k, r)
  {
    var k :| k in ks;
    var rest := ks - {k};
    if rest == {} {
      assert ks == {k};
      assert forall k' :: k' in ks ==> !MonthBefore(k', k);
    } else {
      EarliestExists(rest);
      var r :| r in rest && forall k' :: k' in rest ==> !MonthBefore(k', r);
      if MonthBefore(k, r) {
        forall k' | k' in ks ensures !MonthBefore(k', k) {
          if k' != k {
            NotBeforeEither(k', k, r);
          }
        }
      } else {
        assert forall k' :: k' in ks ==> !MonthBefore(k', r);
      }
    }
  }

  /** If `k` comes before `r` and `k'` does not, `k'` does not come before `k` either. */
  lemma NotBeforeEither(k': Month, k: Month, r: Month)
    requires MonthBefore(k, r) && !MonthBefore(k', r)
    ensures !MonthBefore(k', k)
  {
  }

  /** The month that sorts first among a non-empty set of keys. */
  function EarliestMonth(ks: set<Month>): (r: Month)
    requires ks != {}
    ensures r in ks
    ensures forall k :: k in ks && k != r ==> MonthBefore(r, k)
  {
    EarliestExists(ks);
    var r :| r in ks && forall k :: k in ks ==> !MonthBefore(k, r);
    r
  }

  /**
   * `dict(sorted(summary.items()))`: the entries of the dictionary, in
   * increasing month order (each key once, see `SortedByMonthCovers`).
   */
  function SortedByMonth(m: map<Month, MonthTotals>): (r: seq<(Month, MonthTotals)>)
    ensures |r| == |m.Keys|
    ensures forall i :: 0 <= i < |r| ==> r[i].0 in m && m[r[i].0] == r[i].1
    ensures forall i, j :: 0 <= i < j < |r| ==> MonthBefore(r[i].0, r[j].0)
    decreases |m.Keys|
  {
    if m.Keys == {} then []
    else
      var k := EarliestMonth(m.Keys);
      var rest := m - {k};
      assert rest.Keys == m.Keys - {k};
      [(k, m[k])] + SortedByMonth(rest)
  }

  lemma {:induction false} SortedByMonthCovers(m: map<Month, MonthTotals>, k: Month)
    requires k in m
    ensures exists i :: 0 <= i < |SortedByMonth(m)| && SortedByMonth(m)[i].0 == k
    decreases |m.Keys|
  {
    var e := EarliestMonth(m.Keys);
    var rest := m - {e};
    assert rest.Keys == m.Keys - {e};
    assert SortedByMonth(m) == [(e, m[e])] + SortedByMonth(rest);
    if k == e {
      assert SortedByMonth(m)[0].0 == k;
    } else {
      SortedByMonthCovers(rest, k);
      var i :| 0 <= i < |SortedByMonth(rest)| && SortedByMonth(rest)[i].0 == k;
      assert SortedByMonth(m)[i + 1].0 == k;
    }
  }

  /** The result of `get_monthly_summary`. */
  function MonthlySummary(ts: seq<Transaction>): seq<(Month, MonthTotals)> {
    SortedByMonth(MonthlyTotals(ts))
  }

  /**
   * Every month in which a tax-related transaction falls has a row in the
   * monthly summary.
   */
  lemma MonthlySummaryCovers(ts: seq<Transaction>, t: Transaction)
    requires t in ts && t.taxRelated
    ensures exists i :: 0 <= i < |MonthlySummary(ts)| && MonthlySummary(ts)[i].0 == MonthOf(t.date)
  {
    MonthlyTotalsKeys(ts);
    SortedByMonthCovers(MonthlyTotals(ts), MonthOf(t.date));
    assert MonthlySummary(ts) == SortedByMonth(MonthlyTotals(ts));
  }

  /**
   * Each row of the monthly summary is a month in which some tax-related
   * transaction falls, and holds that month's tax-related income, its
   * tax-related expense and their difference.
   */
  lemma MonthlySummaryRow(ts: seq<Transaction>, i: int)
    requires 0 <= i < |MonthlySummary(ts)|
    ensures exists t :: t in ts && t.taxRelated && MonthOf(t.date) == MonthlySummary(ts)[i].0
    ensures MonthlySummary(ts)[i].1.income == MonthAmount(ts, Income, MonthlySummary(ts)[i].0)
    ensures MonthlySummary(ts)[i].1.expense == MonthAmount(ts, Expense, MonthlySummary(ts)[i].0)
    ensures MonthlySummary(ts)[i].1.net == MonthlySummary(ts)[i].1.income - MonthlySummary(ts)[i].1.expense
  {
    var k := MonthlySummary(ts)[i].0;
    MonthlyTotalsKeys(ts);
    assert k in MonthlyTotals(ts).Keys;
    MonthlyTotalsValues(ts, k);
  }

  /** The sum of one column (income or expense) of the summary rows. */
  function ColumnSum(rows: seq<(Month, MonthTotals)>, kind: TransactionType): real {
    if rows == [] then 0.0
    else (if kind == Income then rows[0].1.income else rows[0].1.expense) + ColumnSum(rows[1..], kind)
  }

  function RowKeys(rows: seq<(Month, MonthTotals)>): (ks: seq<Month>)
    ensures |ks| == |rows|
    ensures forall i :: 0 <= i < |rows| ==> ks[i] == rows[i].0
  {
    if rows == [] then [] else [rows[0].0] + RowKeys(rows[1..])
  }

  lemma {:induction false} ColumnSumIsSumOver(rows: seq<(Month, MonthTotals)>, kind: TransactionType, xs: seq<(Month, real)>)
    requires forall i :: 0 <= i < |rows| ==>
               (if kind == Income then rows[i].1.income else rows[i].1.expense) == Grouping.TotalFor(xs, rows[i].0)
    ensures ColumnSum(rows, kind) == Grouping.SumOver(RowKeys(rows), xs)
  {
    if rows != [] {
      assert RowKeys(rows)[1..] == RowKeys(rows[1..]);
      forall i | 0 <= i < |rows[1..]|
        ensures (if kind == Income then rows[1..][i].1.income else rows[1..][i].1.expense)
             == Grouping.TotalFor(xs, rows[1..][i].0)
      {
        assert rows[1..][i] == rows[i + 1];
      }
      ColumnSumIsSumOver(rows[1..], kind, xs);
    }
  }

  lemma RowKeysDistinct(rows: seq<(Month, MonthTotals)>)
    requires forall i, j :: 0 <= i < j < |rows| ==> MonthBefore(rows[i].0, rows[j].0)
    ensures Grouping.Distinct(RowKeys(rows))
  {
  }

  /** Every month of a tax-related transaction of `kind` is a key of the summary rows. */
  lemma MonthPairsCovered(ts: seq<Transaction>, kind: TransactionType)
    ensures Grouping.KeysOf(MonthPairs(TaxRelatedOfType(ts, kind))) <= set k | k in RowKeys(MonthlySummary(ts))
  {
    var rel := TaxRelatedOfType(ts, kind);
    var xs := MonthPairs(rel);
    var byType := TransactionsByType(ts, kind);
    var ks := RowKeys(MonthlySummary(ts));
    MonthPairsAt(rel);
    forall k | k in Grouping.KeysOf(xs) ensures k in set k | k in ks {
      var i :| 0 <= i < |xs| && xs[i].0 == k;
      var t := rel[i];
      assert t in byType && t.taxRelated;
      var j :| 0 <= j < |byType| && byType[j] == t;
      MonthlySummaryCovers(ts, t);
      var r :| 0 <= r < |MonthlySummary(ts)| && MonthlySummary(ts)[r].0 == k;
      assert ks[r] == k;
    }
  }

  /**
   * Adding up the income column of the monthly summary gives
   * `calculate_total_income`, and the expense column gives
   * `calculate_total_expense`: every tax-related transaction lands in exactly
   * one month.
   */
  lemma MonthlyColumnsSumToTotals(ts: seq<Transaction>, kind: TransactionType)
    ensures ColumnSum(MonthlySummary(ts), kind)
         == (if kind == Income then TotalIncome(ts) else TotalExpense(ts))
  {
    var rows := MonthlySummary(ts);
    var rel := TaxRelatedOfType(ts, kind);
    var xs := MonthPairs(rel);
    forall i | 0 <= i < |rows|
      ensures (if kind == Income then rows[i].1.income else rows[i].1.expense) == Grouping.TotalFor(xs, rows[i].0)
    {
      MonthlySummaryRow(ts, i);
    }
    ColumnSumIsSumOver(rows, kind, xs);
    RowKeysDistinct(rows);
    MonthPairsCovered(ts, kind);
    Grouping.SumOverKeys(RowKeys(rows), xs);
    MonthPairsTotal(rel);
  }

  // ---------------------------------------------------------------------------
  // What `tax_related` switches off

  lemma TaxRelatedOfTypeSkips(ts: seq<Transaction>, t: Transaction, kind: TransactionType)
    requires !t.taxRelated
    ensures TaxRelatedOfType(ts + [t], kind) == TaxRelatedOfType(ts, kind)
  {
    assert (ts + [t])[..|ts|] == ts;
    TaxRelatedOfTypeSnoc(ts + [t], kind);
    assert TaxRelatedOfType(ts, kind) + [] == TaxRelatedOfType(ts, kind);
  }

  lemma TotalByCategorySkips(ts: seq<Transaction>, t: Transaction, category: string)
    requires !t.taxRelated
    ensures TotalByCategory(ts + [t], category) == TotalByCategory(ts, category)
  {
    var ts' := ts + [t];
    assert ts'[..|ts|] == ts;
    FilterSnoc(ts', InCategory(category));
    var inCat := TransactionsByCategory(ts, category);
    FilterAppend(inCat, if t.category == category then [t] else [], TaxRelated);
    FilterSingleton(t, TaxRelated);
    assert Filter(inCat, TaxRelated) + [] == Filter(inCat, TaxRelated);
  }

  /**
   * A transaction that is not tax-related changes none of the totals: not the
   * per-category and per-type sums, not the per-category dictionaries and not
   * the monthly summary.
   */
  lemma NonTaxRelatedIgnored(ts: seq<Transaction>, t: Transaction, category: string)
    requires !t.taxRelated
    ensures TotalByCategory(ts + [t], category) == TotalByCategory(ts, category)
    ensures TotalIncome(ts + [t]) == TotalIncome(ts)
    ensures TotalExpense(ts + [t]) == TotalExpense(ts)
    ensures IncomeByCategory(ts + [t]) == IncomeByCategory(ts)
    ensures ExpenseByCategory(ts + [t]) == ExpenseByCategory(ts)
    ensures MonthlySummary(ts + [t]) == MonthlySummary(ts)
  {
    TaxRelatedOfTypeSkips(ts, t, Income);
    TaxRelatedOfTypeSkips(ts, t, Expense);
    TotalByCategorySkips(ts, t, category);
    assert (ts + [t])[..|ts|] == ts;
    assert MonthlyTotals(ts + [t]) == MonthlyTotals(ts);
  }

  /**
   * Removing the id of a transaction just added, when no earlier transaction
   * carried that id, gives back the list as it was.
   */
  lemma RemoveUndoesAdd(ts: seq<Transaction>, t: Transaction)
    requires forall i :: 0 <= i < |ts| ==> ts[i].id != t.id
    ensures WithoutId(ts + [t], t.id) == ts
  {
    var ts' := ts + [t];
    assert ts'[..|ts|] == ts;
    FilterSnoc(ts', HasOtherId(t.id));
    FilterAllPass(ts, HasOtherId(t.id));
  }

  // ---------------------------------------------------------------------------
  // The aggregate object

  /**
   * `if k not in d: d[k] = 0` followed by `d[k] += amount` is one `Accumulate`
   * step, whether or not `k` was already a key.
   */
  lemma AccumulateInTwoSteps<K>(d: map<K, real>, d1: map<K, real>, k: K, amount: real)
    requires d1 == if k in d then d else d[k := 0.0]
    ensures k in d1
    ensures d1[k := d1[k] + amount] == Grouping.Accumulate(d, (k, amount))
  {
  }

  /** `if key not in d: d[key] = 0` then `d[key] += amount`, on a copy of `d`. */
  method AddAmount(d: map<string, real>, key: string, amount: real) returns (r: map<string, real>)
    ensures r == Grouping.Accumulate(d, (key, amount))
  {
    r := d;
    if key !in r {
      r := r[key := 0.0];
    }
    AccumulateInTwoSteps(d, r, key, amount);
    r := r[key := r[key] + amount];
  }

  /** The `(category, amount)` pairs the per-category loop adds, in order. */
  function TaxRelatedCategoryPairs(s: seq<Transaction>): seq<(string, real)> {
    if s == [] then []
    else
      var t := s[|s| - 1];
      TaxRelatedCategoryPairs(s[..|s| - 1]) + if t.taxRelated then [(t.category, t.amount)] else []
  }

  /** One more transaction adds its amount to its category's total when it is tax-related. */
  lemma ByCategoryStep(s: seq<Transaction>, i: nat)
    requires i < |s|
    ensures Grouping.GroupTotals(TaxRelatedCategoryPairs(s[..i + 1]))
         == if s[i].taxRelated
            then Grouping.Accumulate(Grouping.GroupTotals(TaxRelatedCategoryPairs(s[..i])), (s[i].category, s[i].amount))
            else Grouping.GroupTotals(TaxRelatedCategoryPairs(s[..i]))
  {
    var pairs := TaxRelatedCategoryPairs(s[..i]);
    assert s[..i + 1][..i] == s[..i];
    if s[i].taxRelated {
      Grouping.GroupTotalsSnoc(pairs, (s[i].category, s[i].amount));
    } else {
      assert pairs + [] == pairs;
    }
  }

  lemma {:induction false} TaxRelatedCategoryPairsFiltered(s: seq<Transaction>)
    ensures TaxRelatedCategoryPairs(s) == CategoryPairs(Filter(s, TaxRelated))
  {
    if s != [] {
      var f := Filter(s[..|s| - 1], TaxRelated);
      TaxRelatedCategoryPairsFiltered(s[..|s| - 1]);
      FilterSnoc(s, TaxRelated);
      if s[|s| - 1].taxRelated {
        assert CategoryPairs(f + [s[|s| - 1]])[..|f|] == CategoryPairs(f);
      } else {
        assert f + [] == f;
      }
    }
  }

  /** The `TaxReturnData` object: settings records and the transaction list it mutates. */
  class TaxReturnData {
    var personalInfo: PersonalInfo
    var taxSettings: TaxSettings
    var deductions: Deductions
    var transactions: seq<Transaction>

    /**
     * The dataclass defaults; `taxYear` stands for `datetime.now().year`, which
     * the model takes as a parameter.
     */
    constructor (taxYear: int)
      ensures personalInfo == PersonalInfo(0.0, [])
      ensures taxSettings == TaxSettings(taxYear, BlueReturn)
      ensures deductions == Deductions(true, false, 0.0, 0.0, 0.0, 0.0, 0.0, 0.0)
      ensures transactions == []
    {
      personalInfo := PersonalInfo(0.0, []);
      taxSettings := TaxSettings(taxYear, BlueReturn);
      deductions := Deductions(true, false, 0.0, 0.0, 0.0, 0.0, 0.0, 0.0);
      transactions := [];
    }

    /** The object's current contents, as the value the tax engine reads. */
    function Snapshot(): (r: TaxReturn)
      reads this
      ensures r.transactions == transactions && r.personalInfo == personalInfo
      ensures r.taxSettings == taxSettings && r.deductions == deductions
    {
      TaxReturn(personalInfo, taxSettings, transactions, deductions)
    }

    method AddTransaction(t: Transaction)
      modifies this`transactions
      ensures transactions == old(transactions) + [t]
    {
      transactions := transactions + [t];
    }

    /** Every transaction with this id goes; the others stay, in order. */
    method RemoveTransaction(id: string)
      modifies this`transactions
      ensures transactions == WithoutId(old(transactions), id)
    {
      transactions := WithoutId(transactions, id);
    }

    /** The loop shared by `get_income_by_category` and `get_expense_by_category`. */
    method ByCategory(kind: TransactionType) returns (r: map<string, real>)
      ensures r == CategoryTotals(transactions, kind)
    {
      var ofKind := TransactionsByType(transactions, kind);
      r := map[];
      var i := 0;
      while i < |ofKind|
        invariant 0 <= i <= |ofKind|
        invariant r == Grouping.GroupTotals(TaxRelatedCategoryPairs(ofKind[..i]))
      {
        var t := ofKind[i];
        ByCategoryStep(ofKind, i);
        if t.taxRelated {
          r := AddAmount(r, t.category, t.amount);
        }
        i := i + 1;
      }
      assert ofKind[..i] == ofKind;
      TaxRelatedCategoryPairsFiltered(ofKind);
    }

    method GetIncomeByCategory() returns (r: map<string, real>)
      ensures r == IncomeByCategory(transactions)
    {
      r := ByCategory(Income);
    }

    method GetExpenseByCategory() returns (r: map<string, real>)
      ensures r == ExpenseByCategory(transactions)
    {
      r := ByCategory(Expense);
    }

    method GetMonthlySummary() returns (rows: seq<(Month, MonthTotals)>)
      ensures rows == MonthlySummary(transactions)
    {
      var summary: map<Month, MonthTotals> := map[];
      for i := 0 to |transactions|
        invariant summary == MonthlyTotals(transactions[..i])
      {
        var t := transactions[i];
        assert transactions[..i + 1][..i] == transactions[..i];
        if !t.taxRelated {
          continue;
        }
        var key := MonthOf(t.date);
        if key !in summary {
          summary := summary[key := MonthTotals(0.0, 0.0, 0.0)];
        }
        if t.transactionType == Income {
          summary := summary[key := summary[key].(income := summary[key].income + t.amount)];
        } else {
          summary := summary[key := summary[key].(expense := summary[key].expense + t.amount)];
        }
        summary := summary[key := summary[key].(net := summary[key].income - summary[key].expense)];
      }
      assert transactions[..|transactions|] == transactions;
      rows := SortedByMonth(summary);
    }
  }
}
