/**
 * `IncomeCalculator`: the salary-income deduction curve, business and rental
 * netting, and the per-category income breakdown the tax engine starts from.
 */
module IncomeCalculator {
  import opened Wrappers
  import opened Models
  import opened Brackets
  import TaxReturns

  // ---------------------------------------------------------------------------
  // Salary income deduction

  /** `salary_deduction_rates`, as the constructor sets it. */
  const SalaryDeductionRates: seq<Band> := [
    Band(AtMost(1625000.0), 0.55, 0.0),
    Band(AtMost(1800000.0), 0.4, 427500.0),
    Band(AtMost(3600000.0), 0.3, 636000.0),
    Band(AtMost(6600000.0), 0.2, 1536000.0),
    Band(AtMost(8500000.0), 0.1, 2196000.0),
    Band(Unbounded, 0.0, 2955000.0)
  ]

  /**
   * The salary deduction as a function of salary income, band by band: all of
   * it up to 650,000, 55% up to 1,625,000, then the table's lines, and a flat
   * 2,955,000 above 8,500,000. Nothing is floored.
   */
  function SalaryDeduction(income: real): real {
    if income <= 650000.0 then income
    else if income <= 1625000.0 then income * 0.55
    else if income <= 1800000.0 then income * 0.4 + 427500.0
    else if income <= 3600000.0 then income * 0.3 + 636000.0
    else if income <= 6600000.0 then income * 0.2 + 1536000.0
    else if income <= 8500000.0 then income * 0.1 + 2196000.0
    else 2955000.0
  }

  /** The row the table scan stops at gives the band's value. */
  lemma SalaryBandIsClosedForm(income: real, i: int)
    requires income > 1625000.0
    requires FirstMatch(SalaryDeductionRates, income, i)
    ensures income * SalaryDeductionRates[i].rate + SalaryDeductionRates[i].constant == SalaryDeduction(income)
  {
    var t := SalaryDeductionRates;
    if i >= 2 { assert !Within(income, t[1].threshold); }
    if i >= 3 { assert !Within(income, t[2].threshold); }
    if i >= 4 { assert !Within(income, t[3].threshold); }
    if i >= 5 { assert !Within(income, t[4].threshold); }
  }

  /** `calculate_salary_deduction`: two early returns, then the first-match table scan. */
  method CalculateSalaryDeduction(income: real) returns (r: real)
    ensures r == SalaryDeduction(income)
  {
    if income <= 650000.0 {
      return income;
    } else if income <= 1625000.0 {
      return income * 0.55;
    }
    var i := ScanTable(SalaryDeductionRates, income);
    SalaryBandIsClosedForm(income, i);
    r := income * SalaryDeductionRates[i].rate + SalaryDeductionRates[i].constant;
  }

  /** For a non-negative salary the deduction is non-negative and never exceeds the salary. */
  lemma SalaryDeductionBounds(income: real)
    requires income >= 0.0
    ensures 0.0 <= SalaryDeduction(income) <= income
  {
  }

  /** `max(0, amount - salary_deduction)`. */
  function NetSalary(income: real): real {
    Max(0.0, income - SalaryDeduction(income))
  }

  /**
   * Net salary is never negative, is exactly salary minus deduction for a
   * non-negative salary, and is zero up to 650,000.
   */
  lemma NetSalaryProperties(income: real)
    ensures NetSalary(income) >= 0.0
    ensures income >= 0.0 ==> NetSalary(income) == income - SalaryDeduction(income)
    ensures income <= 650000.0 ==> NetSalary(income) == 0.0
  {
    if income >= 0.0 {
      SalaryDeductionBounds(income);
    }
  }

  /**
   * With the constants as written, one more yen of salary past 1,625,000 lowers
   * the net salary: the 55% band ends at 893,750 of deduction and the next
   * line starts at 1,077,500.
   */
  lemma NetSalaryDropsAfter1625000()
    ensures NetSalary(1625000.0) == 731250.0
    ensures NetSalary(1625001.0) == 547500.6
    ensures NetSalary(1625001.0) < NetSalary(1625000.0)
  {
  }

  // ---------------------------------------------------------------------------
  // Business and rental netting

  /** `max(0, revenue - expenses - blue_return_deduction)`. */
  function BusinessIncome(revenue: real, expenses: real, blueReturnDeduction: real): (r: real)
    ensures r >= 0.0 && r >= revenue - expenses - blueReturnDeduction
    ensures r == 0.0 || r == revenue - expenses - blueReturnDeduction
  {
    Max(0.0, revenue - expenses - blueReturnDeduction)
  }

  /** `max(0, revenue - expenses)`. */
  function RentalIncome(revenue: real, expenses: real): (r: real)
    ensures r >= 0.0 && r >= revenue - expenses
    ensures r == 0.0 || r == revenue - expenses
  {
    Max(0.0, revenue - expenses)
  }

  /** `expense_by_category.get(c.value, 0)`. */
  function ExpenseOf(expenses: map<string, real>, c: ExpenseCategory): real {
    if c.Label() in expenses then expenses[c.Label()] else 0.0
  }

  /** The categories the business-expense loop adds: all but Medical and Donation. */
  predicate IsBusinessExpense(c: ExpenseCategory) {
    c != Medical && c != Donation
  }

  /** The sum the business-expense loop adds for the categories `cs`, in order. */
  function BusinessExpenseSum(expenses: map<string, real>, cs: seq<ExpenseCategory>): real {
    if cs == [] then 0.0
    else
      var c := cs[|cs| - 1];
      BusinessExpenseSum(expenses, cs[..|cs| - 1]) + if IsBusinessExpense(c) then ExpenseOf(expenses, c) else 0.0
  }

  /**
   * The business expenses of `calculate_total_income`: Outsourcing first, then
   * every category except Medical and Donation (Outsourcing included again).
   */
  function BusinessExpenses(expenses: map<string, real>): real {
    ExpenseOf(expenses, Outsourcing) + BusinessExpenseSum(expenses, AllExpenseCategories)
  }

  /** The loop over `ExpenseCategory` that totals the business expenses. */
  method CalculateBusinessExpenses(expenses: map<string, real>) returns (total: real)
    ensures total == BusinessExpenses(expenses)
  {
    total := ExpenseOf(expenses, Outsourcing);
    for i := 0 to |AllExpenseCategories|
      invariant total == ExpenseOf(expenses, Outsourcing) + BusinessExpenseSum(expenses, AllExpenseCategories[..i])
    {
      var c := AllExpenseCategories[i];
      assert AllExpenseCategories[..i + 1][..i] == AllExpenseCategories[..i];
      if c != Medical && c != Donation {
        total := total + ExpenseOf(expenses, c);
      }
    }
    assert AllExpenseCategories[..|AllExpenseCategories|] == AllExpenseCategories;
  }

  lemma BusinessExpenseSumStep(e: map<string, real>, cs: seq<ExpenseCategory>, k: int)
    requires 0 <= k < |cs|
    ensures BusinessExpenseSum(e, cs[..k + 1])
         == BusinessExpenseSum(e, cs[..k]) + if IsBusinessExpense(cs[k]) then ExpenseOf(e, cs[k]) else 0.0
  {
    assert cs[..k + 1][..k] == cs[..k];
  }

  /**
   * Written out category by category: Outsourcing is counted twice, Medical
   * and Donation not at all, every other expense category once.
   */
  lemma BusinessExpensesCountOutsourcingTwice(e: map<string, real>)
    ensures BusinessExpenses(e)
         == 2.0 * ExpenseOf(e, Outsourcing)
            + ExpenseOf(e, OfficeRent) + ExpenseOf(e, Utilities) + ExpenseOf(e, Communication)
            + ExpenseOf(e, Travel) + ExpenseOf(e, Entertainment) + ExpenseOf(e, Supplies)
            + ExpenseOf(e, Advertising) + ExpenseOf(e, Insurance) + ExpenseOf(e, Depreciation)
            + ExpenseOf(e, Training) + ExpenseOf(e, OtherExpense)
  {
    var all := AllExpenseCategories;
    assert all[..0] == [];
    BusinessExpenseSumStep(e, all, 0);
    BusinessExpenseSumStep(e, all, 1);
    BusinessExpenseSumStep(e, all, 2);
    BusinessExpenseSumStep(e, all, 3);
    BusinessExpenseSumStep(e, all, 4);
    BusinessExpenseSumStep(e, all, 5);
    BusinessExpenseSumStep(e, all, 6);
    BusinessExpenseSumStep(e, all, 7);
    BusinessExpenseSumStep(e, all, 8);
    BusinessExpenseSumStep(e, all, 9);
    BusinessExpenseSumStep(e, all, 10);
    BusinessExpenseSumStep(e, all, 11);
    BusinessExpenseSumStep(e, all, 12);
    BusinessExpenseSumStep(e, all, 13);
    assert all[..14] == all;
  }

  /** `OfficeRent + Utilities + Depreciation`, the rental expenses. */
  function RentalExpenses(expenses: map<string, real>): real {
    ExpenseOf(expenses, OfficeRent) + ExpenseOf(expenses, Utilities) + ExpenseOf(expenses, Depreciation)
  }

  /** The 650,000 blue-return special deduction, for the blue filing type only. */
  function BlueReturnDeduction(filingType: string): real {
    if filingType == BlueReturn then 650000.0 else 0.0
  }

  // ---------------------------------------------------------------------------
  // The income breakdown (`calculate_total_income`)

  datatype IncomeBreakdown = IncomeBreakdown(
    salaryIncome: real,
    businessIncome: real,
    rentalIncome: real,
    dividendIncome: real,
    interestIncome: real,
    capitalGain: real,
    pensionIncome: real,
    otherIncome: real,
    totalIncome: real)

  const ZeroBreakdown: IncomeBreakdown := IncomeBreakdown(0.0, 0.0, 0.0, 0.0, 0.0, 0.0, 0.0, 0.0, 0.0)

  /** The income a category's total turns into, branch by branch. */
  function CategoryIncome(c: IncomeCategory, amount: real, expenses: map<string, real>, filingType: string): real {
    match c
    case Salary => NetSalary(amount)
    case Business => BusinessIncome(amount, BusinessExpenses(expenses), BlueReturnDeduction(filingType))
    case Rental => RentalIncome(amount, RentalExpenses(expenses))
    case _ => amount
  }

  /** The value the loop stores for category `c` once it has visited the keys in `seen`. */
  function FieldValue(c: IncomeCategory, incomes: map<string, real>, expenses: map<string, real>,
                      filingType: string, seen: set<string>): real {
    if c.Label() in seen && c.Label() in incomes then CategoryIncome(c, incomes[c.Label()], expenses, filingType)
    else 0.0
  }

  /** The result dictionary after the loop has visited the keys in `seen`; `total_income` still 0. */
  function Filled(incomes: map<string, real>, expenses: map<string, real>, filingType: string,
                  seen: set<string>): IncomeBreakdown {
    IncomeBreakdown(
      FieldValue(Salary, incomes, expenses, filingType, seen),
      FieldValue(Business, incomes, expenses, filingType, seen),
      FieldValue(Rental, incomes, expenses, filingType, seen),
      FieldValue(Dividend, incomes, expenses, filingType, seen),
      FieldValue(Interest, incomes, expenses, filingType, seen),
      FieldValue(CapitalGain, incomes, expenses, filingType, seen),
      FieldValue(Pension, incomes, expenses, filingType, seen),
      FieldValue(OtherIncome, incomes, expenses, filingType, seen),
      0.0)
  }

  /** The eight category fields added up. */
  function FieldsSum(b: IncomeBreakdown): real {
    b.salaryIncome + b.businessIncome + b.rentalIncome + b.dividendIncome
    + b.interestIncome + b.capitalGain + b.pensionIncome + b.otherIncome
  }

  /** What `calculate_total_income` returns for these per-category dictionaries. */
  function IncomeBreakdownOf(incomes: map<string, real>, expenses: map<string, real>, filingType: string): IncomeBreakdown {
    var b := Filled(incomes, expenses, filingType, incomes.Keys);
    b.(totalIncome := FieldsSum(b))
  }

  /** The breakdown of a whole tax return. */
  function IncomeBreakdownFor(data: TaxReturn): IncomeBreakdown {
    IncomeBreakdownOf(TaxReturns.IncomeByCategory(data.transactions),
                      TaxReturns.ExpenseByCategory(data.transactions),
                      data.taxSettings.filingType)
  }

  /** The breakdown with the field of category `c` set to `v`. */
  function WithField(b: IncomeBreakdown, c: IncomeCategory, v: real): IncomeBreakdown {
    match c
    case Salary => b.(salaryIncome := v)
    case Business => b.(businessIncome := v)
    case Rental => b.(rentalIncome := v)
    case Dividend => b.(dividendIncome := v)
    case Interest => b.(interestIncome := v)
    case CapitalGain => b.(capitalGain := v)
    case Pension => b.(pensionIncome := v)
    case OtherIncome => b.(otherIncome := v)
  }

  /** Visiting the key of category `c` sets that category's field, and nothing else. */
  lemma FilledStep(incomes: map<string, real>, expenses: map<string, real>, filingType: string,
                   seen: set<string>, c: IncomeCategory)
    requires c.Label() in incomes && c.Label() !in seen
    ensures Filled(incomes, expenses, filingType, seen + {c.Label()})
         == WithField(Filled(incomes, expenses, filingType, seen), c,
                      CategoryIncome(c, incomes[c.Label()], expenses, filingType))
  {
    forall d: IncomeCategory | d != c
      ensures FieldValue(d, incomes, expenses, filingType, seen + {c.Label()})
           == FieldValue(d, incomes, expenses, filingType, seen)
    {
      assert d.Label() != c.Label() by {
        if d.Label() == c.Label() {
          IncomeLabelsDistinct(d, c);
        }
      }
    }
  }

  /** Visiting a key that names no category changes nothing. */
  lemma FilledSkip(incomes: map<string, real>, expenses: map<string, real>, filingType: string,
                   seen: set<string>, key: string)
    requires ParseIncomeCategory(key) == None
    ensures Filled(incomes, expenses, filingType, seen + {key}) == Filled(incomes, expenses, filingType, seen)
  {
    forall d: IncomeCategory
      ensures FieldValue(d, incomes, expenses, filingType, seen + {key})
           == FieldValue(d, incomes, expenses, filingType, seen)
    {
      assert d.Label() != key;
    }
  }

  /**
   * One pass of the loop in `calculate_total_income`: the branch for the
   * category named `category` sets that category's field; a name outside the
   * enumeration leaves the result as it is.
   */
  method FillField(r: IncomeBreakdown, category: string, amount: real, expenses: map<string, real>,
                   filingType: string) returns (r': IncomeBreakdown)
    ensures r' == match ParseIncomeCategory(category)
                  case Some(c) => WithField(r, c, CategoryIncome(c, amount, expenses, filingType))
                  case None => r
  {
    if category == Salary.Label() {
      var deduction := CalculateSalaryDeduction(amount);
      r' := r.(salaryIncome := Max(0.0, amount - deduction));
    } else if category == Business.Label() {
      var businessExpenses := CalculateBusinessExpenses(expenses);
      var blueDeduction := if filingType == BlueReturn then 650000.0 else 0.0;
      r' := r.(businessIncome := BusinessIncome(amount, businessExpenses, blueDeduction));
    } else if category == Rental.Label() {
      var rentalExpenses := ExpenseOf(expenses, OfficeRent) + ExpenseOf(expenses, Utilities)
                            + ExpenseOf(expenses, Depreciation);
      r' := r.(rentalIncome := RentalIncome(amount, rentalExpenses));
    } else if category == Dividend.Label() {
      r' := r.(dividendIncome := amount);
    } else if category == Interest.Label() {
      r' := r.(interestIncome := amount);
    } else if category == CapitalGain.Label() {
      r' := r.(capitalGain := amount);
    } else if category == Pension.Label() {
      r' := r.(pensionIncome := amount);
    } else if category == OtherIncome.Label() {
      r' := r.(otherIncome := amount);
    } else {
      r' := r;
    }
  }

  /**
   * `calculate_total_income`: one pass over the income dictionary filling the
   * result's fields, then the total of the eight fields.
   */
  method CalculateTotalIncome(data: TaxReturns.TaxReturnData) returns (r: IncomeBreakdown)
    ensures r == IncomeBreakdownFor(data.Snapshot())
  {
    var incomes := data.GetIncomeByCategory();
    var expenses := data.GetExpenseByCategory();
    var filingType := data.taxSettings.filingType;
    r := ZeroBreakdown;
    var todo := incomes.Keys;
    while todo != {}
      invariant todo <= incomes.Keys
      invariant r == Filled(incomes, expenses, filingType, incomes.Keys - todo)
      decreases |todo|
    {
      var category :| category in todo;
      ghost var seen := incomes.Keys - todo;
      r := FillField(r, category, incomes[category], expenses, filingType);
      match ParseIncomeCategory(category) {
        case Some(c) => FilledStep(incomes, expenses, filingType, seen, c);
        case None => FilledSkip(incomes, expenses, filingType, seen, category);
      }
      assert seen + {category} == incomes.Keys - (todo - {category});
      todo := todo - {category};
    }
    assert incomes.Keys - todo == incomes.Keys;
    r := r.(totalIncome := r.salaryIncome + r.businessIncome + r.rentalIncome + r.dividendIncome
                           + r.interestIncome + r.capitalGain + r.pensionIncome + r.otherIncome);
  }

  lemma UnknownKeyKeepsField(c: IncomeCategory, incomes: map<string, real>, expenses: map<string, real>,
                             filingType: string, key: string, amount: real)
    requires ParseIncomeCategory(key) == None
    ensures FieldValue(c, incomes[key := amount], expenses, filingType, incomes[key := amount].Keys)
         == FieldValue(c, incomes, expenses, filingType, incomes.Keys)
  {
    assert c.Label() != key;
  }

  /** A category string outside the income enumeration changes nothing in the breakdown. */
  lemma UnknownCategoryIgnored(incomes: map<string, real>, expenses: map<string, real>, filingType: string,
                               key: string, amount: real)
    requires ParseIncomeCategory(key) == None
    ensures IncomeBreakdownOf(incomes[key := amount], expenses, filingType)
         == IncomeBreakdownOf(incomes, expenses, filingType)
  {
    UnknownKeyKeepsField(Salary, incomes, expenses, filingType, key, amount);
    UnknownKeyKeepsField(Business, incomes, expenses, filingType, key, amount);
    UnknownKeyKeepsField(Rental, incomes, expenses, filingType, key, amount);
    UnknownKeyKeepsField(Dividend, incomes, expenses, filingType, key, amount);
    UnknownKeyKeepsField(Interest, incomes, expenses, filingType, key, amount);
    UnknownKeyKeepsField(CapitalGain, incomes, expenses, filingType, key, amount);
    UnknownKeyKeepsField(Pension, incomes, expenses, filingType, key, amount);
    UnknownKeyKeepsField(OtherIncome, incomes, expenses, filingType, key, amount);
  }

  /**
   * Each category present lands in its own field, through its own rule;
   * dividend, interest, capital gain, pension and other income pass through
   * unchanged, and an absent category contributes 0.
   */
  lemma BreakdownFields(incomes: map<string, real>, expenses: map<string, real>, filingType: string, c: IncomeCategory)
    ensures var r := IncomeBreakdownOf(incomes, expenses, filingType);
      var v := if c.Label() in incomes then CategoryIncome(c, incomes[c.Label()], expenses, filingType) else 0.0;
      match c
      case Salary => r.salaryIncome == v
      case Business => r.businessIncome == v
      case Rental => r.rentalIncome == v
      case Dividend => r.dividendIncome == v
      case Interest => r.interestIncome == v
      case CapitalGain => r.capitalGain == v
      case Pension => r.pensionIncome == v
      case OtherIncome => r.otherIncome == v
    ensures c !in {Salary, Business, Rental} && c.Label() in incomes ==>
              CategoryIncome(c, incomes[c.Label()], expenses, filingType) == incomes[c.Label()]
  {
  }

  lemma FieldValueNonNegative(c: IncomeCategory, incomes: map<string, real>, expenses: map<string, real>,
                              filingType: string)
    requires forall k :: k in incomes ==> incomes[k] >= 0.0
    ensures FieldValue(c, incomes, expenses, filingType, incomes.Keys) >= 0.0
  {
    if c.Label() in incomes {
      NetSalaryProperties(incomes[c.Label()]);
    }
  }

  /** With non-negative category totals every field, and so the total income, is non-negative. */
  lemma TotalIncomeNonNegative(incomes: map<string, real>, expenses: map<string, real>, filingType: string)
    requires forall k :: k in incomes ==> incomes[k] >= 0.0
    ensures var r := IncomeBreakdownOf(incomes, expenses, filingType);
      && r.salaryIncome >= 0.0 && r.businessIncome >= 0.0 && r.rentalIncome >= 0.0
      && r.dividendIncome >= 0.0 && r.interestIncome >= 0.0 && r.capitalGain >= 0.0
      && r.pensionIncome >= 0.0 && r.otherIncome >= 0.0
      && r.totalIncome >= 0.0
  {
    FieldValueNonNegative(Salary, incomes, expenses, filingType);
    FieldValueNonNegative(Business, incomes, expenses, filingType);
    FieldValueNonNegative(Rental, incomes, expenses, filingType);
    FieldValueNonNegative(Dividend, incomes, expenses, filingType);
    FieldValueNonNegative(Interest, incomes, expenses, filingType);
    FieldValueNonNegative(CapitalGain, incomes, expenses, filingType);
    FieldValueNonNegative(Pension, incomes, expenses, filingType);
    FieldValueNonNegative(OtherIncome, incomes, expenses, filingType);
  }
}
