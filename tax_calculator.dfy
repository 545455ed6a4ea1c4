/**
 * `TaxCalculator`: the progressive national income tax (the quick-calculation
 * table of Article 89 of the Income Tax Act), the reconstruction, resident,
 * business and consumption taxes, and `calculate_all_taxes`, which strings the
 * income and deduction breakdowns and these taxes together and reconciles them
 * with the tax already paid.
 */
module TaxCalculator {
  import opened Wrappers
  import opened Models
  import opened Brackets
  import opened Text
  import opened Lists
  import TaxReturns
  import IncomeCalculator
  import DeductionCalculator

  // ---------------------------------------------------------------------------
  // Income tax

  /** `income_tax_brackets`: (threshold, rate, subtracted amount). */
  const IncomeTaxBrackets: seq<Band> := [
    Band(AtMost(1950000.0), 0.05, 0.0),
    Band(AtMost(3300000.0), 0.10, 97500.0),
    Band(AtMost(6950000.0), 0.20, 427500.0),
    Band(AtMost(9000000.0), 0.23, 636000.0),
    Band(AtMost(18000000.0), 0.33, 1536000.0),
    Band(AtMost(40000000.0), 0.40, 2796000.0),
    Band(Unbounded, 0.45, 4796000.0)
  ]

  /** The line `taxable * rate - subtracted` of table row `k`. */
  function Line(k: int, taxable: real): real
    requires 0 <= k < |IncomeTaxBrackets|
  {
    taxable * IncomeTaxBrackets[k].rate - IncomeTaxBrackets[k].constant
  }

  /** The line of the bracket `taxable` falls in. */
  function BracketLine(taxable: real): real {
    if taxable <= 1950000.0 then taxable * 0.05
    else if taxable <= 3300000.0 then taxable * 0.10 - 97500.0
    else if taxable <= 6950000.0 then taxable * 0.20 - 427500.0
    else if taxable <= 9000000.0 then taxable * 0.23 - 636000.0
    else if taxable <= 18000000.0 then taxable * 0.33 - 1536000.0
    else if taxable <= 40000000.0 then taxable * 0.40 - 2796000.0
    else taxable * 0.45 - 4796000.0
  }

  /** The income tax on a taxable income: 0 up to 0, else the bracket's line, floored, at least 0. */
  function IncomeTax(taxable: real): real {
    if taxable <= 0.0 then 0.0 else Max(0.0, Floor(BracketLine(taxable)))
  }

  /** The row the table scan stops at gives the bracket's line. */
  lemma TaxBracketIsClosedForm(taxable: real, i: int)
    requires FirstMatch(IncomeTaxBrackets, taxable, i)
    ensures Line(i, taxable) == BracketLine(taxable)
  {
    var t := IncomeTaxBrackets;
    if i >= 1 { assert !Within(taxable, t[0].threshold); }
    if i >= 2 { assert !Within(taxable, t[1].threshold); }
    if i >= 3 { assert !Within(taxable, t[2].threshold); }
    if i >= 4 { assert !Within(taxable, t[3].threshold); }
    if i >= 5 { assert !Within(taxable, t[4].threshold); }
    if i >= 6 { assert !Within(taxable, t[5].threshold); }
  }

  /** `calculate_income_tax`: the early return, then the first-match scan of the brackets. */
  method CalculateIncomeTax(taxable: real) returns (r: real)
    ensures r == IncomeTax(taxable)
  {
    if taxable <= 0.0 {
      return 0.0;
    }
    var i := ScanTable(IncomeTaxBrackets, taxable);
    TaxBracketIsClosedForm(taxable, i);
    r := Max(0.0, Floor(taxable * IncomeTaxBrackets[i].rate - IncomeTaxBrackets[i].constant));
  }

  /** Adjacent brackets give the same tax at the threshold between them. */
  lemma BracketsMeetAtThresholds(k: int)
    requires 0 <= k < |IncomeTaxBrackets| - 1
    ensures Line(k, IncomeTaxBrackets[k].threshold.limit) == Line(k + 1, IncomeTaxBrackets[k].threshold.limit)
  {
  }

  /** The largest of the seven lines. */
  function MaxLine(x: real): real {
    Max(Line(0, x), Max(Line(1, x), Max(Line(2, x), Max(Line(3, x), Max(Line(4, x), Max(Line(5, x), Line(6, x)))))))
  }

  /**
   * Because the rates rise and the lines meet at the thresholds, the bracket's
   * line is the largest of all seven lines, whatever the income.
   */
  lemma BracketLineIsMaxLine(x: real)
    ensures BracketLine(x) == MaxLine(x)
  {
  }

  /** Income tax never decreases as taxable income grows. */
  lemma IncomeTaxMonotone(x: real, y: real)
    requires x <= y
    ensures IncomeTax(x) <= IncomeTax(y)
  {
    BracketLineIsMaxLine(x);
    BracketLineIsMaxLine(y);
    assert MaxLine(x) <= MaxLine(y);
    FloorMonotone(BracketLine(x), BracketLine(y));
  }

  /** Income tax is never negative and never more than 45% of taxable income. */
  lemma IncomeTaxBounds(x: real)
    ensures 0.0 <= IncomeTax(x)
    ensures x > 0.0 ==> IncomeTax(x) <= 0.45 * x
  {
    if x > 0.0 {
      BracketLineIsMaxLine(x);
      assert BracketLine(x) <= 0.45 * x;
    }
  }

  // ---------------------------------------------------------------------------
  // The other taxes

  /** 2.1% of the income tax, floored. */
  function ReconstructionTax(incomeTax: real): real {
    Floor(incomeTax * 0.021)
  }

  /** 10% of taxable income plus the 5,000 per-capita levy, floored; 0 when nothing is taxable. */
  function ResidentTax(taxable: real): real {
    if taxable <= 0.0 then 0.0 else Floor(taxable * 0.10 + 5000.0)
  }

  /** 5% of business income above 2,900,000 up to 4,000,000 of excess, 4.8% beyond, floored. */
  function BusinessTax(businessIncome: real): real {
    if businessIncome <= 2900000.0 then 0.0
    else
      var excess := businessIncome - 2900000.0;
      if excess <= 4000000.0 then Floor(excess * 0.05)
      else Floor(4000000.0 * 0.05 + (excess - 4000000.0) * 0.048)
  }

  /** 10% of gross business revenue, floored, once it exceeds 10,000,000; else 0. */
  function ConsumptionTax(businessRevenue: real): real {
    if businessRevenue <= 10000000.0 then 0.0 else Floor(businessRevenue * 0.10)
  }

  /**
   * Business tax is 0 up to 2,900,000, never negative, never decreasing, and
   * the two rates meet where the excess reaches 4,000,000.
   */
  lemma BusinessTaxProperties(x: real, y: real)
    ensures x <= 2900000.0 ==> BusinessTax(x) == 0.0
    ensures BusinessTax(x) >= 0.0
    ensures x <= y ==> BusinessTax(x) <= BusinessTax(y)
    ensures BusinessTax(6900000.0) == 200000.0
  {
    if x > 2900000.0 {
      FloorMonotone(0.0, if x - 2900000.0 <= 4000000.0 then (x - 2900000.0) * 0.05
                         else 4000000.0 * 0.05 + (x - 2900000.0 - 4000000.0) * 0.048);
      FloorOfWhole(0);
    }
    if x <= y && x > 2900000.0 {
      var ex, ey := x - 2900000.0, y - 2900000.0;
      var vx := if ex <= 4000000.0 then ex * 0.05 else 4000000.0 * 0.05 + (ex - 4000000.0) * 0.048;
      var vy := if ey <= 4000000.0 then ey * 0.05 else 4000000.0 * 0.05 + (ey - 4000000.0) * 0.048;
      assert vx <= vy;
      FloorMonotone(vx, vy);
    }
    FloorOfWhole(200000);
  }

  /**
   * Resident, reconstruction and consumption taxes are never negative for
   * non-negative inputs; consumption tax jumps from 0 straight to 10% of
   * revenue past 10,000,000.
   */
  lemma OtherTaxesNonNegative(taxable: real, incomeTax: real, revenue: real)
    requires incomeTax >= 0.0 && revenue >= 0.0
    ensures ResidentTax(taxable) >= 0.0
    ensures ReconstructionTax(incomeTax) >= 0.0
    ensures ConsumptionTax(revenue) >= 0.0
    ensures revenue > 10000000.0 ==> ConsumptionTax(revenue) >= 1000000.0
  {
    FloorOfWhole(0);
    FloorOfWhole(1000000);
    FloorMonotone(0.0, incomeTax * 0.021);
    if taxable > 0.0 {
      FloorMonotone(0.0, taxable * 0.10 + 5000.0);
    }
    if revenue > 10000000.0 {
      FloorMonotone(1000000.0, revenue * 0.10);
    }
  }

  /** `[annual_tax / 4] * 4`. */
  function EstimatedQuarterlyTax(annualTax: real): (r: seq<real>)
    ensures |r| == 4
    ensures forall i :: 0 <= i < 4 ==> r[i] == annualTax / 4.0
    ensures r[0] + r[1] + r[2] + r[3] == annualTax
  {
    [annualTax / 4.0, annualTax / 4.0, annualTax / 4.0, annualTax / 4.0]
  }

  // ---------------------------------------------------------------------------
  // Tax already paid

  /** An expense transaction whose description mentions `marker`. */
  function ExpenseMentioning(marker: string): Transaction -> bool {
    (t: Transaction) => Contains(t.description, marker) && t.transactionType == Expense
  }

  const WithholdingMarker: string := "源泉"
  const PrepaidMarker: string := "予定納税"

  /** The amounts of all expense transactions whose description mentions `marker`, tax-related or not. */
  function PaidTax(ts: seq<Transaction>, marker: string): real {
    TaxReturns.AmountSum(Filter(ts, ExpenseMentioning(marker)))
  }

  /**
   * An expense transaction that mentions the marker adds its amount to the
   * tax paid even when it is not tax-related; any other transaction adds
   * nothing.
   */
  lemma PaidTaxAppend(ts: seq<Transaction>, t: Transaction, marker: string)
    ensures PaidTax(ts + [t], marker)
         == PaidTax(ts, marker) + if Contains(t.description, marker) && t.transactionType == Expense then t.amount else 0.0
  {
    var ts' := ts + [t];
    assert ts'[..|ts|] == ts;
    var f := Filter(ts, ExpenseMentioning(marker));
    if Contains(t.description, marker) && t.transactionType == Expense {
      TaxReturns.AmountSumAppend(f, [t]);
      assert TaxReturns.AmountSum([t]) == t.amount by { assert [t][..0] == []; }
    } else {
      assert f + [] == f;
    }
  }

  /** Tax due or refund: the difference between the tax owed and the tax paid, on one side only. */
  function Reconcile(finalTotalTax: real, paidTax: real): (r: (real, real))
    ensures r.0 >= 0.0 && r.1 >= 0.0
    ensures r.0 == 0.0 || r.1 == 0.0
    ensures r.0 - r.1 == finalTotalTax - paidTax
  {
    if finalTotalTax > paidTax then (finalTotalTax - paidTax, 0.0)
    else (0.0, paidTax - finalTotalTax)
  }

  // ---------------------------------------------------------------------------
  // `calculate_all_taxes`

  datatype TaxCalculation = TaxCalculation(
    totalIncome: real,
    totalExpense: real,
    netIncome: real,
    totalDeductions: real,
    taxableIncome: real,
    incomeTax: real,
    reconstructionTax: real,
    residentTax: real,
    businessTax: real,
    consumptionTax: real,
    totalTax: real,
    withholdingTax: real,
    prepaidTax: real,
    taxDue: real,
    refundAmount: real,
    homeLoanDeductionApplied: real,
    estimatedQuarterlyTax: seq<real>,
    incomeBreakdown: IncomeCalculator.IncomeBreakdown,
    deductionBreakdown: DeductionCalculator.DeductionBreakdown)

  /** `tax_data.get_income_by_category().get(IncomeCategory.BUSINESS.value, 0)`. */
  function BusinessRevenue(data: TaxReturn): real {
    var incomes := TaxReturns.IncomeByCategory(data.transactions);
    if Business.Label() in incomes then incomes[Business.Label()] else 0.0
  }

  /**
   * The computation once the income and deduction breakdowns, the business
   * revenue, the tax paid and the total expense are known.
   */
  function Settle(income: IncomeCalculator.IncomeBreakdown, deductions: DeductionCalculator.DeductionBreakdown,
                  businessRevenue: real, withholding: real, prepaid: real, totalExpense: real): TaxCalculation
  {
    var totalIncome := income.totalIncome;
    var taxable := Max(0.0, totalIncome - deductions.totalDeductions);
    var incomeTax := IncomeTax(taxable);
    var reconstruction := ReconstructionTax(incomeTax);
    var resident := ResidentTax(taxable);
    var business := BusinessTax(income.businessIncome);
    var consumption := ConsumptionTax(businessRevenue);
    var homeLoan := deductions.homeLoanDeduction;
    var finalIncomeTax := Max(0.0, incomeTax - homeLoan);
    var finalTotalTax := finalIncomeTax + reconstruction + resident + business + consumption;
    var settled := Reconcile(finalTotalTax, withholding + prepaid);
    TaxCalculation(
      totalIncome, totalExpense, totalIncome - totalExpense, deductions.totalDeductions, taxable,
      finalIncomeTax, reconstruction, resident, business, consumption, finalTotalTax,
      withholding, prepaid, settled.0, settled.1, homeLoan,
      EstimatedQuarterlyTax(finalIncomeTax), income, deductions)
  }

  /** The whole computation, from one snapshot of a tax return. */
  function CalculateAllTaxes(data: TaxReturn): TaxCalculation {
    var income := IncomeCalculator.IncomeBreakdownFor(data);
    Settle(income,
           DeductionCalculator.DeductionBreakdownFor(data, income.totalIncome),
           BusinessRevenue(data),
           PaidTax(data.transactions, WithholdingMarker),
           PaidTax(data.transactions, PrepaidMarker),
           TaxReturns.TotalExpense(data.transactions))
  }

  /**
   * What the result promises: taxable income is total income less deductions,
   * never negative; the home-loan credit lowers only the income tax, never
   * below 0 (and, when the credit entered is not negative, never above the
   * table's tax); reconstruction tax is computed on the income tax before the
   * credit; the total is the sum of the five taxes; due and refund settle the
   * difference with the tax paid on one side only; and the four quarterly
   * instalments add up to the income tax.
   */
  lemma SettleSpec(income: IncomeCalculator.IncomeBreakdown, deductions: DeductionCalculator.DeductionBreakdown,
                   businessRevenue: real, withholding: real, prepaid: real, totalExpense: real)
    ensures var r := Settle(income, deductions, businessRevenue, withholding, prepaid, totalExpense);
      && r.taxableIncome == Max(0.0, income.totalIncome - deductions.totalDeductions)
      && r.taxableIncome >= 0.0
      && 0.0 <= r.incomeTax
      && (deductions.homeLoanDeduction >= 0.0 ==> r.incomeTax <= IncomeTax(r.taxableIncome))
      && r.incomeTax == Max(0.0, IncomeTax(r.taxableIncome) - deductions.homeLoanDeduction)
      && r.reconstructionTax == ReconstructionTax(IncomeTax(r.taxableIncome))
      && r.totalTax == r.incomeTax + r.reconstructionTax + r.residentTax + r.businessTax + r.consumptionTax
      && r.taxDue >= 0.0 && r.refundAmount >= 0.0
      && (r.taxDue == 0.0 || r.refundAmount == 0.0)
      && r.taxDue - r.refundAmount == r.totalTax - (withholding + prepaid)
      && r.estimatedQuarterlyTax[0] + r.estimatedQuarterlyTax[1] + r.estimatedQuarterlyTax[2]
         + r.estimatedQuarterlyTax[3] == r.incomeTax
  {
    IncomeTaxBounds(Max(0.0, income.totalIncome - deductions.totalDeductions));
  }

  /**
   * For a whole tax return: the totals are those of its own income and
   * deduction breakdowns, the home-loan credit applied is the one entered, the
   * tax paid is the withholding plus the prepaid tax found among its
   * transactions, and net income is total income less total expense.
   */
  lemma CalculateAllTaxesEntries(data: TaxReturn)
    ensures var r := CalculateAllTaxes(data);
      && r.totalIncome == IncomeCalculator.IncomeBreakdownFor(data).totalIncome
      && r.totalDeductions == DeductionCalculator.DeductionBreakdownFor(data, r.totalIncome).totalDeductions
      && r.homeLoanDeductionApplied == data.deductions.homeLoanDeduction
      && r.withholdingTax == PaidTax(data.transactions, WithholdingMarker)
      && r.prepaidTax == PaidTax(data.transactions, PrepaidMarker)
      && r.netIncome == r.totalIncome - TaxReturns.TotalExpense(data.transactions)
  {
  }

  /**
   * For a whole tax return, the income tax after the credit is never negative,
   * and with a non-negative home-loan credit it is at most the table's tax on
   * the taxable income (a negative credit, which the entry form lets through,
   * raises it).
   */
  lemma CalculateAllTaxesIncomeTax(data: TaxReturn)
    ensures var r := CalculateAllTaxes(data);
      && 0.0 <= r.incomeTax
      && (data.deductions.homeLoanDeduction >= 0.0 ==> r.incomeTax <= IncomeTax(r.taxableIncome))
  {
    var income := IncomeCalculator.IncomeBreakdownFor(data);
    var deductions := DeductionCalculator.DeductionBreakdownFor(data, income.totalIncome);
    var w, p := PaidTax(data.transactions, WithholdingMarker), PaidTax(data.transactions, PrepaidMarker);
    var e := TaxReturns.TotalExpense(data.transactions);
    CalculateAllTaxesEntries(data);
    SettleSpec(income, deductions, BusinessRevenue(data), w, p, e);
  }

  /**
   * Due and refund settle the total tax against the withholding and prepaid
   * tax: neither is negative, at most one is non-zero, and their difference is
   * what remains to be paid.
   */
  lemma CalculateAllTaxesSettles(data: TaxReturn)
    ensures var r := CalculateAllTaxes(data);
      && r.taxDue >= 0.0 && r.refundAmount >= 0.0
      && (r.taxDue == 0.0 || r.refundAmount == 0.0)
      && r.taxDue - r.refundAmount == r.totalTax - (r.withholdingTax + r.prepaidTax)
  {
  }

  /** The total tax is never negative: each of the five taxes is clamped at 0. */
  lemma TotalTaxNonNegative(data: TaxReturn)
    ensures CalculateAllTaxes(data).totalTax >= 0.0
  {
    var r := CalculateAllTaxes(data);
    IncomeTaxBounds(r.taxableIncome);
    OtherTaxesNonNegative(r.taxableIncome, IncomeTax(r.taxableIncome), Max(0.0, BusinessRevenue(data)));
    BusinessTaxProperties(r.incomeBreakdown.businessIncome, r.incomeBreakdown.businessIncome);
    if BusinessRevenue(data) < 0.0 {
      assert ConsumptionTax(BusinessRevenue(data)) == 0.0;
    }
  }
}
