/**
 * The records of the tax-return application: transaction kinds and the closed
 * income and expense category vocabularies (with the Japanese labels stored in
 * transactions), date-times with their ISO-8601 text form, transactions and
 * their dictionary form, and the settings records the tax engine reads.
 */
module Models {
  import opened Wrappers
  import opened Text

  // ---------------------------------------------------------------------------
  // Enumerations and their stored labels

  datatype TransactionType = Income | Expense {
    /** The enum's `.value`. */
    function Value(): string {
      match this
      case Income => "収入"
      case Expense => "支出"
    }
  }

  /** `TransactionType(s)`: the member whose value is `s`, or the ValueError case. */
  function ParseTransactionType(s: string): (r: Option<TransactionType>)
    ensures forall t: TransactionType :: r == Some(t) <==> t.Value() == s
  {
    if s == Income.Value() then Some(Income)
    else if s == Expense.Value() then Some(Expense)
    else None
  }

  datatype IncomeCategory =
    | Salary | Business | Rental | Dividend | Interest | CapitalGain | Pension | OtherIncome
  {
    function Label(): string {
      match this
      case Salary => "給与所得"
      case Business => "事業所得"
      case Rental => "不動産所得"
      case Dividend => "配当所得"
      case Interest => "利子所得"
      case CapitalGain => "譲渡所得"
      case Pension => "雑所得(年金)"
      case OtherIncome => "その他雑所得"
    }
  }

  /** The income category a stored label names, if any. */
  function ParseIncomeCategory(s: string): (r: Option<IncomeCategory>)
    ensures forall c: IncomeCategory :: r == Some(c) <==> c.Label() == s
  {
    if s == Salary.Label() then Some(Salary)
    else if s == Business.Label() then Some(Business)
    else if s == Rental.Label() then Some(Rental)
    else if s == Dividend.Label() then Some(Dividend)
    else if s == Interest.Label() then Some(Interest)
    else if s == CapitalGain.Label() then Some(CapitalGain)
    else if s == Pension.Label() then Some(Pension)
    else if s == OtherIncome.Label() then Some(OtherIncome)
    else None
  }

  datatype ExpenseCategory =
    | OfficeRent | Utilities | Communication | Travel | Entertainment | Supplies | Advertising
    | Insurance | Depreciation | Outsourcing | Training | Medical | Donation | OtherExpense
  {
    function Label(): string {
      match this
      case OfficeRent => "事務所家賃"
      case Utilities => "水道光熱費"
      case Communication => "通信費"
      case Travel => "旅費交通費"
      case Entertainment => "接待交際費"
      case Supplies => "消耗品費"
      case Advertising => "広告宣伝費"
      case Insurance => "保険料"
      case Depreciation => "減価償却費"
      case Outsourcing => "外注費"
      case Training => "研修費"
      case Medical => "医療費"
      case Donation => "寄付金"
      case OtherExpense => "その他経費"
    }
  }

  /** The members in declaration order, as `for c in ExpenseCategory` visits them. */
  const AllExpenseCategories: seq<ExpenseCategory> := [
    OfficeRent, Utilities, Communication, Travel, Entertainment, Supplies, Advertising,
    Insurance, Depreciation, Outsourcing, Training, Medical, Donation, OtherExpense
  ]

  lemma AllExpenseCategoriesComplete(c: ExpenseCategory)
    ensures c in AllExpenseCategories
  {
  }

  /** Distinct categories are stored under distinct labels. */
  lemma IncomeLabelsDistinct(a: IncomeCategory, b: IncomeCategory)
    requires a.Label() == b.Label()
    ensures a == b
  {
    assert ParseIncomeCategory(a.Label()) == Some(a);
  }

  lemma ExpenseLabelsDistinct(a: ExpenseCategory, b: ExpenseCategory)
    requires a.Label() == b.Label()
    ensures a == b
  {
  }

  // ---------------------------------------------------------------------------
  // Date-times (Python `datetime`) and their ISO-8601 form

  datatype DateTime = DateTime(year: int, month: int, day: int,
                               hour: int, minute: int, second: int, microsecond: int)
  {
    /** The range checks `datetime(...)` performs on construction. */
    predicate Valid() {
      && 1 <= year <= 9999 && 1 <= month <= 12 && 1 <= day <= DaysInMonth(year, month)
      && 0 <= hour < 24 && 0 <= minute < 60 && 0 <= second < 60
      && 0 <= microsecond < 1000000
    }
  }

  predicate IsLeapYear(year: int) {
    year % 4 == 0 && (year % 100 != 0 || year % 400 == 0)
  }

  function DaysInMonth(year: int, month: int): int {
    if month == 2 then (if IsLeapYear(year) then 29 else 28)
    else if month == 4 || month == 6 || month == 9 || month == 11 then 30
    else 31
  }

  /** `a <= b` on date-times: chronological, that is lexicographic on the fields. */
  predicate NotAfter(a: DateTime, b: DateTime) {
    if a.year != b.year then a.year < b.year
    else if a.month != b.month then a.month < b.month
    else if a.day != b.day then a.day < b.day
    else if a.hour != b.hour then a.hour < b.hour
    else if a.minute != b.minute then a.minute < b.minute
    else if a.second != b.second then a.second < b.second
    else a.microsecond <= b.microsecond
  }

  /**
   * `d.isoformat()`: `YYYY-MM-DDTHH:MM:SS`, followed by `.ffffff` only when
   * the microsecond field is not zero.
   */
  function IsoFormat(d: DateTime): (s: string)
    requires d.Valid()
    ensures |s| == (if d.microsecond == 0 then 19 else 26)
  {
    var base := DatePart(d) + "T" + TimePart(d);
    if d.microsecond == 0 then base else base + "." + Pad(d.microsecond, 6)
  }

  /** `YYYY-MM-DD`. */
  function DatePart(d: DateTime): (s: string)
    requires d.Valid()
    ensures |s| == 10
  {
    Pad(d.year, 4) + "-" + Pad(d.month, 2) + "-" + Pad(d.day, 2)
  }

  /** `HH:MM:SS`. */
  function TimePart(d: DateTime): (s: string)
    requires d.Valid()
    ensures |s| == 8
  {
    Pad(d.hour, 2) + ":" + Pad(d.minute, 2) + ":" + Pad(d.second, 2)
  }

  /** The digits in `s[from..from+width]`, when they are all digits. */
  function DigitField(s: string, from: nat, width: nat): Option<nat>
    requires from + width <= |s|
  {
    if AllDigits(s[from..from + width]) then Some(DigitsValue(s[from..from + width])) else None
  }

  /**
   * `datetime.fromisoformat(s)` restricted to the two shapes `isoformat`
   * writes: the separators must sit where `isoformat` puts them, every field
   * must be digits, and the fields must make a valid date-time. Any other
   * text gives None: that is the ValueError case for malformed text, but it
   * also covers the other layouts `fromisoformat` would accept (date only,
   * another separator, no seconds, a shorter fraction, an offset).
   */
  function FromIsoFormat(s: string): (r: Option<DateTime>)
    ensures r.Some? ==> r.value.Valid()
  {
    if !(|s| == 19 || (|s| == 26 && s[19] == '.')) then None
    else if !(s[4] == '-' && s[7] == '-' && s[10] == 'T' && s[13] == ':' && s[16] == ':') then None
    else
      var y := DigitField(s, 0, 4);
      var mo := DigitField(s, 5, 2);
      var d := DigitField(s, 8, 2);
      var h := DigitField(s, 11, 2);
      var mi := DigitField(s, 14, 2);
      var se := DigitField(s, 17, 2);
      var us := if |s| == 26 then DigitField(s, 20, 6) else Some(0);
      if y.None? || mo.None? || d.None? || h.None? || mi.None? || se.None? || us.None? then None
      else
        var dt := DateTime(y.value, mo.value, d.value, h.value, mi.value, se.value, us.value);
        if dt.Valid() then Some(dt) else None
  }

  lemma {:induction false} PadField(s: string, from: nat, n: nat, width: nat)
    requires n < Pow10(width)
    requires from + width <= |s| && s[from..from + width] == Pad(n, width)
    ensures DigitField(s, from, width) == Some(n)
  {
    PadRoundTrip(n, width);
  }

  /** `a`, a separator and `b`, read back piece by piece. */
  lemma Joined(a: string, sep: char, b: string)
    ensures var s := a + [sep] + b;
      s[..|a|] == a && s[|a|] == sep && s[|a| + 1..] == b
  {
    var s := a + [sep] + b;
    assert s[..|a|] == a;
    assert s[|a| + 1..] == b;
  }

  /** Three fields, the middle one two characters wide, read back piece by piece. */
  lemma {:induction false} Fields(a: string, sep1: char, b: string, sep2: char, c: string)
    requires |b| == 2
    ensures var s := a + [sep1] + b + [sep2] + c;
      && s[..|a|] == a && s[|a|] == sep1 && s[|a| + 1..|a| + 3] == b
      && s[|a| + 3] == sep2 && s[|a| + 4..] == c
  {
    Joined(a, sep1, b);
    Joined(a + [sep1] + b, sep2, c);
    var s := a + [sep1] + b + [sep2] + c;
    assert s[..|a| + 3] == a + [sep1] + b;
    assert s[|a| + 1..|a| + 3] == (a + [sep1] + b)[|a| + 1..];
    assert s[..|a|] == (a + [sep1] + b)[..|a|];
  }

  lemma DateLayout(d: DateTime)
    requires d.Valid()
    ensures var s := DatePart(d);
      && s[..4] == Pad(d.year, 4) && s[4] == '-'
      && s[5..7] == Pad(d.month, 2) && s[7] == '-'
      && s[8..] == Pad(d.day, 2)
  {
    Fields(Pad(d.year, 4), '-', Pad(d.month, 2), '-', Pad(d.day, 2));
  }

  lemma TimeLayout(d: DateTime)
    requires d.Valid()
    ensures var s := TimePart(d);
      && s[..2] == Pad(d.hour, 2) && s[2] == ':'
      && s[3..5] == Pad(d.minute, 2) && s[5] == ':'
      && s[6..] == Pad(d.second, 2)
  {
    Fields(Pad(d.hour, 2), ':', Pad(d.minute, 2), ':', Pad(d.second, 2));
  }

  /** `s[i..j]` read inside a prefix or suffix that holds it. */
  lemma SliceOfSlice(s: string, from: nat, to: nat, i: nat, j: nat)
    requires from <= to <= |s| && i <= j <= to - from
    ensures s[from..to][i..j] == s[from + i..from + j]
  {
    assert forall k :: 0 <= k < j - i ==> s[from..to][i..j][k] == s[from + i + k];
  }

  /** Where `isoformat` puts each field. */
  lemma {:induction false} IsoLayout(d: DateTime)
    requires d.Valid()
    ensures var s := IsoFormat(d);
      && s[..4] == Pad(d.year, 4) && s[4] == '-'
      && s[5..7] == Pad(d.month, 2) && s[7] == '-'
      && s[8..10] == Pad(d.day, 2) && s[10] == 'T'
      && s[11..13] == Pad(d.hour, 2) && s[13] == ':'
      && s[14..16] == Pad(d.minute, 2) && s[16] == ':'
      && s[17..19] == Pad(d.second, 2)
      && (d.microsecond != 0 ==> s[19] == '.' && s[20..26] == Pad(d.microsecond, 6))
  {
    var date, time := DatePart(d), TimePart(d);
    var base := date + "T" + time;
    var s := IsoFormat(d);
    Joined(date, 'T', time);
    if d.microsecond != 0 {
      Joined(base, '.', Pad(d.microsecond, 6));
    }
    assert s[..19] == base;
    SliceOfSlice(s, 0, 19, 0, 10);
    SliceOfSlice(s, 0, 19, 11, 19);
    assert s[..10] == date;
    assert s[11..19] == time;
    DateLayout(d);
    TimeLayout(d);
    SliceOfSlice(s, 0, 10, 0, 4);
    SliceOfSlice(s, 0, 10, 5, 7);
    SliceOfSlice(s, 0, 10, 8, 10);
    SliceOfSlice(s, 11, 19, 0, 2);
    SliceOfSlice(s, 11, 19, 3, 5);
    SliceOfSlice(s, 11, 19, 6, 8);
  }

  /** The date fields of the ISO text read back as the numbers they were written from. */
  lemma IsoDateFields(d: DateTime)
    requires d.Valid()
    ensures var s := IsoFormat(d);
      DigitField(s, 0, 4) == Some(d.year) && DigitField(s, 5, 2) == Some(d.month)
      && DigitField(s, 8, 2) == Some(d.day)
  {
    var s := IsoFormat(d);
    assert Pow10(2) == 100 && Pow10(4) == 10000;
    IsoLayout(d);
    PadField(s, 0, d.year, 4);
    PadField(s, 5, d.month, 2);
    PadField(s, 8, d.day, 2);
  }

  /** The time fields of the ISO text read back as the numbers they were written from. */
  lemma IsoTimeFields(d: DateTime)
    requires d.Valid()
    ensures var s := IsoFormat(d);
      && DigitField(s, 11, 2) == Some(d.hour) && DigitField(s, 14, 2) == Some(d.minute)
      && DigitField(s, 17, 2) == Some(d.second)
      && (d.microsecond != 0 ==> DigitField(s, 20, 6) == Some(d.microsecond))
  {
    var s := IsoFormat(d);
    assert Pow10(2) == 100 && Pow10(6) == 1000000;
    IsoLayout(d);
    PadField(s, 11, d.hour, 2);
    PadField(s, 14, d.minute, 2);
    PadField(s, 17, d.second, 2);
    if d.microsecond != 0 {
      PadField(s, 20, d.microsecond, 6);
    }
  }

  /** Reading back the ISO text of a valid date-time gives the same date-time. */
  lemma IsoRoundTrip(d: DateTime)
    requires d.Valid()
    ensures FromIsoFormat(IsoFormat(d)) == Some(d)
  {
    IsoLayout(d);
    IsoDateFields(d);
    IsoTimeFields(d);
  }

  // ---------------------------------------------------------------------------
  // Transactions and their dictionary form

  datatype Transaction = Transaction(
    id: string,
    date: DateTime,
    transactionType: TransactionType,
    category: string,
    subcategory: string,
    amount: real,
    description: string,
    taxRelated: bool,
    receiptAttached: bool,
    receiptPath: Option<string>,
    notes: string)

  /**
   * The dictionary `to_dict` writes and `from_dict` reads. Keys that `from_dict`
   * reads with `.get` may be missing (None); `receipt_path` is missing or null
   * alike.
   */
  datatype TransactionRecord = TransactionRecord(
    id: string,
    date: string,
    transactionType: string,
    category: string,
    subcategory: string,
    amount: real,
    description: string,
    taxRelated: Option<bool>,
    receiptAttached: Option<bool>,
    receiptPath: Option<string>,
    notes: Option<string>)

  datatype RecordError = InvalidDate(text: string) | InvalidTransactionType(value: string)

  function ToDict(t: Transaction): (d: TransactionRecord)
    requires t.date.Valid()
  {
    TransactionRecord(t.id, IsoFormat(t.date), t.transactionType.Value(), t.category,
                      t.subcategory, t.amount, t.description, Some(t.taxRelated),
                      Some(t.receiptAttached), t.receiptPath, Some(t.notes))
  }

  /**
   * `Transaction.from_dict`: fails when the date text or the type value does not
   * parse; otherwise copies the fields, defaulting `tax_related` to true,
   * `receipt_attached` to false and `notes` to the empty string.
   */
  function FromDict(d: TransactionRecord): (r: Result<Transaction, RecordError>)
    ensures r.Success? <==> FromIsoFormat(d.date).Some? && ParseTransactionType(d.transactionType).Some?
    ensures FromIsoFormat(d.date).None? ==> r == Failure(InvalidDate(d.date))
    ensures r.Success? ==> r.value.date.Valid() && r.value.transactionType.Value() == d.transactionType
    ensures r.Success? ==> (r.value.taxRelated == d.taxRelated.GetOr(true)
                            && r.value.receiptAttached == d.receiptAttached.GetOr(false)
                            && r.value.notes == d.notes.GetOr(""))
  {
    match FromIsoFormat(d.date)
    case None => Failure(InvalidDate(d.date))
    case Some(date) =>
      match ParseTransactionType(d.transactionType)
      case None => Failure(InvalidTransactionType(d.transactionType))
      case Some(kind) =>
        Success(Transaction(d.id, date, kind, d.category, d.subcategory, d.amount,
                            d.description, d.taxRelated.GetOr(true),
                            d.receiptAttached.GetOr(false), d.receiptPath, d.notes.GetOr("")))
  }

  /** `Transaction.from_dict(t.to_dict()) == t`. */
  lemma DictRoundTrip(t: Transaction)
    requires t.date.Valid()
    ensures FromDict(ToDict(t)) == Success(t)
  {
    IsoRoundTrip(t.date);
  }

  // ---------------------------------------------------------------------------
  // The settings records the engine reads

  /** One entry of `personal_info.dependents`; `age` is None when the key is missing. */
  datatype Dependent = Dependent(age: Option<int>)

  datatype PersonalInfo = PersonalInfo(spouseIncome: real, dependents: seq<Dependent>)

  /** The filing type label that enables the blue-return deduction. */
  const BlueReturn: string := "青色申告"

  datatype TaxSettings = TaxSettings(taxYear: int, filingType: string)

  datatype Deductions = Deductions(
    basicDeduction: bool,
    spouseDeduction: bool,
    socialInsurancePremium: real,
    lifeInsurancePremium: real,
    earthquakeInsurancePremium: real,
    donation: real,
    medicalExpense: real,
    homeLoanDeduction: real)

  /** The parts of a `TaxReturnData` the engine reads, as one value. */
  datatype TaxReturn = TaxReturn(
    personalInfo: PersonalInfo,
    taxSettings: TaxSettings,
    transactions: seq<Transaction>,
    deductions: Deductions)
}
