/**
 * `DeductionCalculator`: the income deductions (basic, spouse, dependents,
 * insurance, donation, medical) and their total.
 */
module DeductionCalculator {
  import opened Wrappers
  import opened Models

  const BasicDeductionAmount: real := 480000.0
  const SpouseDeductionAmount: real := 380000.0
  const DependentDeductionAmount: real := 380000.0

  // ---------------------------------------------------------------------------
  // Basic and spouse deductions

  /** The basic deduction, phased out as total income passes 24M, 24.5M and 25M. */
  function BasicDeduction(totalIncome: real): real {
    if totalIncome <= 24000000.0 then BasicDeductionAmount
    else if totalIncome <= 24500000.0 then 320000.0
    else if totalIncome <= 25000000.0 then 160000.0
    else 0.0
  }

  /**
   * Each of the four amounts is taken on exactly its income range, upper
   * bounds included, and the deduction never grows with income.
   */
  lemma BasicDeductionSchedule(x: real, y: real)
    ensures BasicDeduction(x) == 480000.0 <==> x <= 24000000.0
    ensures BasicDeduction(x) == 320000.0 <==> 24000000.0 < x <= 24500000.0
    ensures BasicDeduction(x) == 160000.0 <==> 24500000.0 < x <= 25000000.0
    ensures BasicDeduction(x) == 0.0 <==> 25000000.0 < x
    ensures x <= y ==> BasicDeduction(y) <= BasicDeduction(x)
  {
  }

  /**
   * The spouse deduction as written: nothing when the spouse earns over 480,000
   * or the filer over 10M, otherwise a base amount stepped down at 9M and
   * 9.5M. The reduction in the last branch cannot be reached, because the
   * first test already returned 0 for every spouse income over 480,000.
   */
  function SpouseDeduction(spouseIncome: real, totalIncome: real): real {
    if spouseIncome > 480000.0 || totalIncome > 10000000.0 then 0.0
    else
      var base :=
        if totalIncome <= 9000000.0 then SpouseDeductionAmount
        else if totalIncome <= 9500000.0 then 260000.0
        else 130000.0;
      if spouseIncome <= 480000.0 then base
      else Max(0.0, base - (spouseIncome - 480000.0))
  }

  /**
   * The spouse deduction is one of 0, 130,000, 260,000 and 380,000; it is
   * positive exactly when the spouse earns at most 480,000 and the filer at
   * most 10M, and it never grows with the filer's income.
   */
  lemma SpouseDeductionValues(spouseIncome: real, x: real, y: real)
    ensures SpouseDeduction(spouseIncome, x) in {0.0, 130000.0, 260000.0, 380000.0}
    ensures SpouseDeduction(spouseIncome, x) > 0.0 <==> spouseIncome <= 480000.0 && x <= 10000000.0
    ensures x <= y ==> SpouseDeduction(spouseIncome, y) <= SpouseDeduction(spouseIncome, x)
  {
  }

  // ---------------------------------------------------------------------------
  // Dependents

  /** `int(dependent.get('age', 0))`, then the age band's amount. */
  function DependentAmount(d: Dependent): real {
    var age := d.age.GetOr(0);
    if age >= 70 then 580000.0
    else if age >= 19 && age <= 22 then 630000.0
    else DependentDeductionAmount
  }

  /** The sum of the per-dependent amounts. */
  function DependentsTotal(ds: seq<Dependent>): real {
    if ds == [] then 0.0 else DependentsTotal(ds[..|ds| - 1]) + DependentAmount(ds[|ds| - 1])
  }

  /** `calculate_dependent_deduction`: the accumulation loop over the dependents. */
  method CalculateDependentDeduction(ds: seq<Dependent>) returns (total: real)
    ensures total == DependentsTotal(ds)
  {
    total := 0.0;
    for i := 0 to |ds|
      invariant total == DependentsTotal(ds[..i])
    {
      var age := ds[i].age.GetOr(0);
      assert ds[..i + 1][..i] == ds[..i];
      if age >= 70 {
        total := total + 580000.0;
      } else if age >= 19 && age <= 22 {
        total := total + 630000.0;
      } else {
        total := total + DependentDeductionAmount;
      }
    }
    assert ds[..|ds|] == ds;
  }

  /** Every dependent is worth between 380,000 and 630,000. */
  lemma {:induction false} DependentsTotalBounds(ds: seq<Dependent>)
    ensures 380000.0 * |ds| as real <= DependentsTotal(ds) <= 630000.0 * |ds| as real
  {
    if ds != [] {
      DependentsTotalBounds(ds[..|ds| - 1]);
    }
  }

  /** The deduction for two lists of dependents is the sum of their deductions. */
  lemma {:induction false} DependentsTotalAppend(a: seq<Dependent>, b: seq<Dependent>)
    ensures DependentsTotal(a + b) == DependentsTotal(a) + DependentsTotal(b)
  {
    if b == [] {
      assert a + b == a;
    } else {
      assert (a + b)[..|a + b| - 1] == a + b[..|b| - 1];
      DependentsTotalAppend(a, b[..|b| - 1]);
    }
  }

  // ---------------------------------------------------------------------------
  // Insurance, donation and medical deductions

  function LifeInsuranceDeduction(premium: real): real {
    if premium <= 20000.0 then premium
    else if premium <= 40000.0 then premium * 0.5 + 10000.0
    else if premium <= 80000.0 then premium * 0.25 + 20000.0
    else 40000.0
  }

  /**
   * The life-insurance deduction never exceeds the premium or 40,000, never
   * decreases as the premium grows, and its pieces meet at 20,000, 40,000 and
   * 80,000.
   */
  lemma LifeInsuranceProperties(p: real, q: real)
    ensures p >= 0.0 ==> 0.0 <= LifeInsuranceDeduction(p) <= Min(p, 40000.0)
    ensures p <= q ==> LifeInsuranceDeduction(p) <= LifeInsuranceDeduction(q)
    ensures LifeInsuranceDeduction(20000.0) == 20000.0 * 0.5 + 10000.0
    ensures LifeInsuranceDeduction(40000.0) == 40000.0 * 0.25 + 20000.0
    ensures LifeInsuranceDeduction(80000.0) == 40000.0
  {
  }

  function EarthquakeInsuranceDeduction(premium: real): real {
    Min(premium, 50000.0)
  }

  /** `max(0, donation - 2000)`; total income is passed but not used. */
  function DonationDeduction(donation: real, totalIncome: real): real {
    Max(0.0, donation - 2000.0)
  }

  /** The part of medical expenses above 5% of total income, the threshold capped at 100,000. */
  function MedicalDeduction(medicalExpense: real, totalIncome: real): real {
    Max(0.0, medicalExpense - Min(totalIncome * 0.05, 100000.0))
  }

  /**
   * The earthquake deduction is the premium capped at 50,000; the donation and
   * medical deductions are never negative, never exceed what was spent, and
   * the medical threshold is 100,000 from 2M of income up.
   */
  lemma SmallDeductionsProperties(premium: real, donation: real, expense: real, totalIncome: real)
    ensures EarthquakeInsuranceDeduction(premium) <= 50000.0
    ensures EarthquakeInsuranceDeduction(premium) == premium <==> premium <= 50000.0
    ensures 0.0 <= DonationDeduction(donation, totalIncome) <= Max(0.0, donation)
    ensures DonationDeduction(donation, totalIncome) > 0.0 <==> donation > 2000.0
    ensures 0.0 <= MedicalDeduction(expense, totalIncome)
    ensures totalIncome >= 0.0 ==> MedicalDeduction(expense, totalIncome) <= Max(0.0, expense)
    ensures totalIncome >= 2000000.0 ==> MedicalDeduction(expense, totalIncome) == Max(0.0, expense - 100000.0)
  {
  }

  // ---------------------------------------------------------------------------
  // The deduction breakdown (`calculate_total_deductions`)

  datatype DeductionBreakdown = DeductionBreakdown(
    basicDeduction: real,
    spouseDeduction: real,
    dependentDeduction: real,
    socialInsuranceDeduction: real,
    lifeInsuranceDeduction: real,
    earthquakeInsuranceDeduction: real,
    donationDeduction: real,
    medicalDeduction: real,
    homeLoanDeduction: real,
    totalDeductions: real)

  /** The result dictionary of `calculate_total_deductions`. */
  function DeductionBreakdownFor(data: TaxReturn, totalIncome: real): DeductionBreakdown {
    var d := data.deductions;
    var b := DeductionBreakdown(
      if d.basicDeduction then BasicDeduction(totalIncome) else 0.0,
      if d.spouseDeduction then SpouseDeduction(data.personalInfo.spouseIncome, totalIncome) else 0.0,
      DependentsTotal(data.personalInfo.dependents),
      d.socialInsurancePremium,
      LifeInsuranceDeduction(d.lifeInsurancePremium),
      EarthquakeInsuranceDeduction(d.earthquakeInsurancePremium),
      DonationDeduction(d.donation, totalIncome),
      MedicalDeduction(d.medicalExpense, totalIncome),
      d.homeLoanDeduction,
      0.0);
    b.(totalDeductions := b.basicDeduction + b.spouseDeduction + b.dependentDeduction
                          + b.socialInsuranceDeduction + b.lifeInsuranceDeduction
                          + b.earthquakeInsuranceDeduction + b.donationDeduction + b.medicalDeduction)
  }

  /**
   * The home-loan amount is carried through to the breakdown but is not part
   * of the total: changing it changes no other entry. An unelected basic or
   * spouse deduction is 0.
   */
  lemma TotalDeductionsExcludesHomeLoan(data: TaxReturn, totalIncome: real, homeLoan: real)
    ensures var other := data.(deductions := data.deductions.(homeLoanDeduction := homeLoan));
      DeductionBreakdownFor(other, totalIncome)
        == DeductionBreakdownFor(data, totalIncome).(homeLoanDeduction := homeLoan)
    ensures !data.deductions.basicDeduction ==> DeductionBreakdownFor(data, totalIncome).basicDeduction == 0.0
    ensures !data.deductions.spouseDeduction ==> DeductionBreakdownFor(data, totalIncome).spouseDeduction == 0.0
  {
  }

  /** With non-negative premiums every entry, and so the total, is non-negative. */
  lemma DeductionsNonNegative(data: TaxReturn, totalIncome: real)
    requires data.deductions.socialInsurancePremium >= 0.0
    requires data.deductions.lifeInsurancePremium >= 0.0
    requires data.deductions.earthquakeInsurancePremium >= 0.0
    ensures DeductionBreakdownFor(data, totalIncome).totalDeductions >= 0.0
  {
    DependentsTotalBounds(data.personalInfo.dependents);
    LifeInsuranceProperties(data.deductions.lifeInsurancePremium, 0.0);
    SpouseDeductionValues(data.personalInfo.spouseIncome, totalIncome, totalIncome);
  }
}
