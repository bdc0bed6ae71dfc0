/**
 * The loan application as the prediction endpoint receives it: the raw
 * fields, the schema that validates them, and the feature vector handed
 * to the classifier (with the derived debt-to-income ratio).
 */
module Application {
  import opened Wrappers

  /** The three home-ownership statuses the schema admits. */
  datatype HomeOwnership = Rent | Mortgage | Own {
    /** The exact, case-sensitive spelling accepted on the wire. */
    function Name(): string
    {
      match this
      case Rent => "RENT"
      case Mortgage => "MORTGAGE"
      case Own => "OWN"
    }
  }

  /** The schema's pattern ^(RENT|MORTGAGE|OWN)$: anything else is refused. */
  function ParseHomeOwnership(s: string): (r: Option<HomeOwnership>)
    ensures r.Some? <==> s in {"RENT", "MORTGAGE", "OWN"}
    ensures r.Some? ==> r.value.Name() == s
  {
    if s == "RENT" then Some(Rent)
    else if s == "MORTGAGE" then Some(Mortgage)
    else if s == "OWN" then Some(Own)
    else None
  }

  /** Every status survives being written out and read back. */
  lemma ParseName(h: HomeOwnership)
    ensures ParseHomeOwnership(h.Name()) == Some(h)
  {
  }

  /** The request body after JSON decoding, before the field constraints are checked. */
  datatype RawApplication = RawApplication(
    monthlyIncome: real,
    monthlyDebtPayments: real,
    loanAmount: real,
    missedInstallments: int,
    creditCardBalance: real,
    totalOpenAccounts: int,
    homeOwnership: string)

  /** The fields of the schema, in declaration order. */
  datatype Field =
    | MonthlyIncome
    | MonthlyDebtPayments
    | LoanAmount
    | MissedInstallments
    | CreditCardBalance
    | TotalOpenAccounts
    | HomeOwnershipField

  const AllFields: seq<Field> := [MonthlyIncome, MonthlyDebtPayments, LoanAmount,
    MissedInstallments, CreditCardBalance, TotalOpenAccounts, HomeOwnershipField]

  lemma AllFieldsListed()
    ensures forall f: Field :: f in AllFields
  {
    forall f: Field ensures f in AllFields {
      match f
      case MonthlyIncome => assert AllFields[0] == f;
      case MonthlyDebtPayments => assert AllFields[1] == f;
      case LoanAmount => assert AllFields[2] == f;
      case MissedInstallments => assert AllFields[3] == f;
      case CreditCardBalance => assert AllFields[4] == f;
      case TotalOpenAccounts => assert AllFields[5] == f;
      case HomeOwnershipField => assert AllFields[6] == f;
    }
  }

  /** The constraint the schema puts on one field. */
  predicate Satisfies(raw: RawApplication, f: Field)
  {
    match f
    case MonthlyIncome => raw.monthlyIncome > 0.0
    case MonthlyDebtPayments => raw.monthlyDebtPayments >= 0.0
    case LoanAmount => raw.loanAmount > 1000.0
    case MissedInstallments => raw.missedInstallments >= 0
    case CreditCardBalance => raw.creditCardBalance >= 0.0
    case TotalOpenAccounts => raw.totalOpenAccounts >= 0
    case HomeOwnershipField => ParseHomeOwnership(raw.homeOwnership).Some?
  }

  /** The fields among fs whose constraint raw violates, in the order of fs. */
  function FailingFields(raw: RawApplication, fs: seq<Field>): (v: seq<Field>)
    ensures forall f :: f in v <==> f in fs && !Satisfies(raw, f)
    ensures |v| <= |fs|
  {
    if fs == [] then []
    else (if Satisfies(raw, fs[0]) then [] else [fs[0]]) + FailingFields(raw, fs[1..])
  }

  lemma NothingFailingMeansAllSatisfied(raw: RawApplication)
    requires FailingFields(raw, AllFields) == []
    ensures forall f: Field :: Satisfies(raw, f)
    ensures Satisfies(raw, MonthlyIncome) && Satisfies(raw, MonthlyDebtPayments)
    ensures Satisfies(raw, LoanAmount) && Satisfies(raw, MissedInstallments)
    ensures Satisfies(raw, CreditCardBalance) && Satisfies(raw, TotalOpenAccounts)
    ensures Satisfies(raw, HomeOwnershipField)
  {
    forall f: Field ensures Satisfies(raw, f) {
      AllFieldsListed();
      assert f in AllFields && f !in FailingFields(raw, AllFields);
    }
  }

  /** A validated application: every numeric field within its bound. */
  datatype LoanApplication = LoanApplication(
    monthlyIncome: real,
    monthlyDebtPayments: real,
    loanAmount: real,
    missedInstallments: int,
    creditCardBalance: real,
    totalOpenAccounts: int,
    homeOwnership: HomeOwnership)
  {
    predicate Valid()
    {
      && monthlyIncome > 0.0
      && monthlyDebtPayments >= 0.0
      && loanAmount > 1000.0
      && missedInstallments >= 0
      && creditCardBalance >= 0.0
      && totalOpenAccounts >= 0
    }
  }

  /**
   * Schema validation: the request is accepted exactly when every field
   * meets its constraint, and then carries the same values; otherwise it
   * is refused with every violated field listed, and nothing further runs.
   */
  function Validate(raw: RawApplication): (r: Result<LoanApplication, seq<Field>>)
    ensures r.Success? <==> forall f: Field :: Satisfies(raw, f)
    ensures r.Success? ==>
      && r.value.Valid()
      && r.value.monthlyIncome == raw.monthlyIncome
      && r.value.monthlyDebtPayments == raw.monthlyDebtPayments
      && r.value.loanAmount == raw.loanAmount
      && r.value.missedInstallments == raw.missedInstallments
      && r.value.creditCardBalance == raw.creditCardBalance
      && r.value.totalOpenAccounts == raw.totalOpenAccounts
      && r.value.homeOwnership.Name() == raw.homeOwnership
    ensures r.Failure? ==> r.error != [] && forall f :: f in r.error <==> !Satisfies(raw, f)
  {
    var failing := FailingFields(raw, AllFields);
    if failing == [] then
      NothingFailingMeansAllSatisfied(raw);
      Success(LoanApplication(raw.monthlyIncome, raw.monthlyDebtPayments, raw.loanAmount,
        raw.missedInstallments, raw.creditCardBalance, raw.totalOpenAccounts,
        ParseHomeOwnership(raw.homeOwnership).value))
    else
      assert failing[0] in failing;
      Failure(failing)
  }

  /**
   * The derived debt-to-income percentage: debt over income times one
   * hundred, and zero when income is not positive.
   */
  function DebtToIncome(monthlyIncome: real, monthlyDebtPayments: real): (dti: real)
    ensures monthlyIncome > 0.0 ==> dti * monthlyIncome == monthlyDebtPayments * 100.0
    ensures monthlyIncome <= 0.0 ==> dti == 0.0
    ensures monthlyIncome > 0.0 && monthlyDebtPayments >= 0.0 ==> dti >= 0.0
  {
    if monthlyIncome > 0.0 then (monthlyDebtPayments / monthlyIncome) * 100.0 else 0.0
  }

  /**
   * The classifier's input row. The field names follow the column names
   * the trained pipeline expects; the home-ownership status is passed in
   * the column named "Employment Duration".
   */
  datatype Features = Features(
    loanAmount: real,
    debitToIncome: real,
    delinquencyTwoYears: int,
    revolvingBalance: real,
    openAccount: int,
    employmentDuration: HomeOwnership)

  /** The feature row for an application: pass-through fields plus the derived ratio. */
  function Normalize(app: LoanApplication): (f: Features)
    ensures app.monthlyIncome > 0.0 ==>
      f.debitToIncome * app.monthlyIncome == app.monthlyDebtPayments * 100.0
    ensures app.Valid() ==> f.debitToIncome >= 0.0
    ensures f.loanAmount == app.loanAmount && f.delinquencyTwoYears == app.missedInstallments
    ensures f.revolvingBalance == app.creditCardBalance && f.openAccount == app.totalOpenAccounts
    ensures f.employmentDuration == app.homeOwnership
  {
    Features(app.loanAmount, DebtToIncome(app.monthlyIncome, app.monthlyDebtPayments),
      app.missedInstallments, app.creditCardBalance, app.totalOpenAccounts, app.homeOwnership)
  }
}
