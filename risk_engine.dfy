/**
 * The risk adjustment engine: a fixed, ordered sequence of four rules
 * that raise a running default probability (by floors and by additions)
 * and append explanatory reasons, followed by the final clamp.
 */
module RiskEngine {
  import opened Application
  import Text

  const RentSurcharge: real := 0.05
  const OneMissedFloor: real := 0.45
  const OneMissedPenalty: real := 0.15
  const SeveralMissedFloor: real := 0.85
  const RentDelinquencyFloor: real := 0.80
  const CriticalIncomeLimit: real := 1000.0
  const LowIncomeLimit: real := 3000.0
  const CriticalIncomeFloor: real := 0.90
  const LowIncomePenalty: real := 0.10
  const ProbabilityCap: real := 0.99

  const RecentMissedReason: string := "Recent missed installment detected."
  const RentDelinquencyReason: string := "High Risk combination: Renting with delinquency."
  const CriticalIncomeReason: string := "Critical: Extremely low disposable income."
  const LowIncomeReason: string := "Warning: Low disposable income."

  /** The reason for more than one missed installment, with the count written in. */
  function SeveralMissedReason(n: nat): (r: string)
    ensures |r| > 31
    ensures r[..10] == "Critical: " && r[|r| - 21..] == " missed installments."
    ensures Text.IsDigits(r[10..|r| - 21])
  {
    "Critical: " + Text.NatToString(n) + " missed installments."
  }

  /** Distinct counts give distinct reasons: the count can be read back. */
  lemma SeveralMissedReasonInjective(m: nat, n: nat)
    requires SeveralMissedReason(m) == SeveralMissedReason(n)
    ensures m == n
  {
    var sm, sn := Text.NatToString(m), Text.NatToString(n);
    assert SeveralMissedReason(m)[10..10 + |sm|] == sm;
    assert SeveralMissedReason(n)[10..10 + |sn|] == sn;
    Text.NatToStringInjective(m, n);
  }

  /** No two of the engine's reasons have the same text. */
  lemma ReasonsDistinct(n: nat)
    ensures SeveralMissedReason(n) != RecentMissedReason
    ensures SeveralMissedReason(n) != RentDelinquencyReason
    ensures SeveralMissedReason(n) != CriticalIncomeReason
    ensures SeveralMissedReason(n) != LowIncomeReason
    ensures RecentMissedReason != RentDelinquencyReason
    ensures RecentMissedReason != CriticalIncomeReason && RecentMissedReason != LowIncomeReason
    ensures RentDelinquencyReason != CriticalIncomeReason && RentDelinquencyReason != LowIncomeReason
    ensures CriticalIncomeReason != LowIncomeReason
  {
    var r := SeveralMissedReason(n);
    assert r[0] == 'C' && r[10] == Text.NatToString(n)[0];
  }

  /** The running state of the engine: the probability so far and the reasons so far. */
  datatype Step = Step(prob: real, reasons: seq<string>)

  function Max(a: real, b: real): real
  {
    if b > a then b else a
  }

  function Min(a: real, b: real): real
  {
    if b < a then b else a
  }

  /** Rule 1: renting adds a flat surcharge and, alone among the rules, no reason. */
  function RentRule(s: Step, app: LoanApplication): (r: Step)
    ensures r.prob >= s.prob
    ensures r.reasons == s.reasons
  {
    if app.homeOwnership == Rent then Step(s.prob + RentSurcharge, s.reasons) else s
  }

  /**
   * Rule 2: one missed installment floors the probability at 0.45 and
   * then adds 0.15; more than one floors it at 0.85 and names the count.
   */
  function MissedRule(s: Step, app: LoanApplication): (r: Step)
    ensures r.prob >= s.prob
    ensures app.missedInstallments == 1 ==> r.prob >= s.prob + OneMissedPenalty
    ensures r.reasons == s.reasons <==> app.missedInstallments <= 0
    ensures r.reasons == s.reasons || |r.reasons| == |s.reasons| + 1
    ensures s.reasons <= r.reasons
  {
    if app.missedInstallments > 0 then
      if app.missedInstallments == 1 then
        Step(Max(s.prob, OneMissedFloor) + OneMissedPenalty, s.reasons + [RecentMissedReason])
      else
        Step(Max(s.prob, SeveralMissedFloor), s.reasons + [SeveralMissedReason(app.missedInstallments)])
    else
      s
  }

  /** Rule 3: renting together with any missed installment floors the probability at 0.80. */
  function RentDelinquencyRule(s: Step, app: LoanApplication): (r: Step)
    ensures r.prob >= s.prob
    ensures r.reasons == s.reasons <==> !(app.homeOwnership == Rent && app.missedInstallments > 0)
    ensures r.reasons == s.reasons || |r.reasons| == |s.reasons| + 1
    ensures s.reasons <= r.reasons
  {
    if app.homeOwnership == Rent && app.missedInstallments > 0 then
      Step(Max(s.prob, RentDelinquencyFloor), s.reasons + [RentDelinquencyReason])
    else
      s
  }

  /** Monthly income left after the debt payments; negative when debt exceeds income. */
  function DisposableIncome(app: LoanApplication): (d: real)
    ensures d + app.monthlyDebtPayments == app.monthlyIncome
    ensures d < 0.0 <==> app.monthlyDebtPayments > app.monthlyIncome
  {
    app.monthlyIncome - app.monthlyDebtPayments
  }

  /**
   * Rule 4: disposable income below 1000 floors the probability at 0.90;
   * otherwise, below 3000 it adds 0.10. At most one of the two fires.
   */
  function DisposableIncomeRule(s: Step, app: LoanApplication): (r: Step)
    ensures r.prob >= s.prob
    ensures r.reasons == s.reasons <==> DisposableIncome(app) >= LowIncomeLimit
    ensures r.reasons == s.reasons || |r.reasons| == |s.reasons| + 1
    ensures s.reasons <= r.reasons
  {
    var disposable := DisposableIncome(app);
    if disposable < CriticalIncomeLimit then
      Step(Max(s.prob, CriticalIncomeFloor), s.reasons + [CriticalIncomeReason])
    else if disposable < LowIncomeLimit then
      Step(s.prob + LowIncomePenalty, s.reasons + [LowIncomeReason])
    else
      s
  }

  /** The engine's state after rules 1 and 2. */
  function AfterMissedRule(base: real, app: LoanApplication): Step
  {
    MissedRule(RentRule(Step(base, []), app), app)
  }

  /**
   * Rules 1 to 4 in their fixed order, starting from the classifier's
   * probability and no reasons. The probability only ever rises, and at
   * most one reason per rule 2 to 4 is added.
   */
  function Rules(base: real, app: LoanApplication): (r: Step)
    ensures r.prob >= base
    ensures |r.reasons| <= 3
  {
    DisposableIncomeRule(RentDelinquencyRule(AfterMissedRule(base, app), app), app)
  }

  /**
   * The engine as the endpoint runs it: one running probability and one
   * growing list of reasons, updated in place rule after rule.
   */
  method Adjust(base: real, app: LoanApplication) returns (prob: real, reasons: seq<string>)
    requires app.Valid()
    requires 0.0 <= base <= 1.0
    ensures Step(prob, reasons) == Rules(base, app)
  {
    prob := base;
    reasons := [];

    if app.homeOwnership == Rent {
      prob := prob + RentSurcharge;
    }

    if app.missedInstallments > 0 {
      if app.missedInstallments == 1 {
        prob := Max(prob, OneMissedFloor);
        prob := prob + OneMissedPenalty;
        reasons := reasons + [RecentMissedReason];
      } else {
        prob := Max(prob, SeveralMissedFloor);
        reasons := reasons + [SeveralMissedReason(app.missedInstallments)];
      }
    }

    if app.homeOwnership == Rent && app.missedInstallments > 0 {
      prob := Max(prob, RentDelinquencyFloor);
      reasons := reasons + [RentDelinquencyReason];
    }

    var disposable := app.monthlyIncome - app.monthlyDebtPayments;
    if disposable < CriticalIncomeLimit {
      prob := Max(prob, CriticalIncomeFloor);
      reasons := reasons + [CriticalIncomeReason];
    } else if disposable < LowIncomeLimit {
      prob := prob + LowIncomePenalty;
      reasons := reasons + [LowIncomeReason];
    }
  }

  /**
   * The final clamp into [0, 0.99]: values already inside are kept,
   * values above are cut to 0.99 and values below raised to 0.
   */
  function Clamp(p: real): (r: real)
    ensures 0.0 <= r <= ProbabilityCap
    ensures 0.0 <= p <= ProbabilityCap ==> r == p
    ensures p > ProbabilityCap ==> r == ProbabilityCap
    ensures p < 0.0 ==> r == 0.0
  {
    Min(Max(p, 0.0), ProbabilityCap)
  }

  lemma ClampMonotone(p: real, q: real)
    requires p <= q
    ensures Clamp(p) <= Clamp(q)
  {
  }

  /** Every rule is monotone in the running probability: a higher input never gives a lower output. */
  lemma RulesMonotone(s: Step, t: Step, app: LoanApplication)
    requires s.prob <= t.prob
    ensures RentRule(s, app).prob <= RentRule(t, app).prob
    ensures MissedRule(s, app).prob <= MissedRule(t, app).prob
    ensures RentDelinquencyRule(s, app).prob <= RentDelinquencyRule(t, app).prob
    ensures DisposableIncomeRule(s, app).prob <= DisposableIncomeRule(t, app).prob
  {
  }

  /** The final probability lies in [0, 0.99] and never falls below the base probability (capped at 0.99). */
  lemma FinalWithinBounds(base: real, app: LoanApplication)
    requires 0.0 <= base <= 1.0
    ensures 0.0 <= Clamp(Rules(base, app).prob) <= ProbabilityCap
    ensures Clamp(Rules(base, app).prob) >= Min(base, ProbabilityCap)
  {
    ClampMonotone(base, Rules(base, app).prob);
  }

  /** Exactly one missed installment: at least 0.60 after rule 2, and its reason comes first. */
  lemma OneMissedInstallment(base: real, app: LoanApplication)
    requires app.missedInstallments == 1
    ensures AfterMissedRule(base, app).prob >= 0.60
    ensures AfterMissedRule(base, app).reasons == [RecentMissedReason]
    ensures Rules(base, app).reasons[0] == RecentMissedReason
  {
  }

  /** More than one missed installment: at least 0.85, and the reason naming the count comes first. */
  lemma SeveralMissedInstallments(base: real, app: LoanApplication)
    requires app.missedInstallments > 1
    ensures Rules(base, app).prob >= SeveralMissedFloor
    ensures Rules(base, app).reasons[0] == SeveralMissedReason(app.missedInstallments)
  {
  }

  /** Renting with any missed installment: at least 0.80, and the combination reason follows rule 2's reason. */
  lemma RentingWithDelinquency(base: real, app: LoanApplication)
    requires app.homeOwnership == Rent && app.missedInstallments > 0
    ensures Rules(base, app).prob >= RentDelinquencyFloor
    ensures |Rules(base, app).reasons| >= 2
    ensures Rules(base, app).reasons[0] ==
      (if app.missedInstallments == 1 then RecentMissedReason
       else SeveralMissedReason(app.missedInstallments))
    ensures Rules(base, app).reasons[1] == RentDelinquencyReason
  {
  }

  /**
   * The disposable-income rule: below 1000 the probability is at least
   * 0.90 and only the critical reason is given; from 1000 up to 3000 it
   * rises by 0.10 and only the warning is given; the two never appear
   * together.
   */
  lemma DisposableIncomeOutcome(base: real, app: LoanApplication)
    requires app.missedInstallments >= 0
    ensures var r := Rules(base, app);
      DisposableIncome(app) < CriticalIncomeLimit ==>
        r.prob >= CriticalIncomeFloor && CriticalIncomeReason in r.reasons && LowIncomeReason !in r.reasons
    ensures var before := RentDelinquencyRule(AfterMissedRule(base, app), app);
      var r := Rules(base, app);
      CriticalIncomeLimit <= DisposableIncome(app) < LowIncomeLimit ==>
        r.prob == before.prob + LowIncomePenalty
        && LowIncomeReason in r.reasons && CriticalIncomeReason !in r.reasons
    ensures var r := Rules(base, app);
      DisposableIncome(app) >= LowIncomeLimit ==>
        LowIncomeReason !in r.reasons && CriticalIncomeReason !in r.reasons
    ensures !(CriticalIncomeReason in Rules(base, app).reasons && LowIncomeReason in Rules(base, app).reasons)
  {
    ReasonsDistinct(if app.missedInstallments > 1 then app.missedInstallments else 2);
  }

  /** No reason is given exactly when nothing was missed and the disposable income is at least 3000. */
  lemma ReasonsEmptyIff(base: real, app: LoanApplication)
    requires app.missedInstallments >= 0
    ensures Rules(base, app).reasons == [] <==>
      app.missedInstallments == 0 && DisposableIncome(app) >= LowIncomeLimit
  {
  }

  /**
   * Renting on its own is silent: with no missed installment a renter
   * gets the same reasons as an owner, and a probability at least as high.
   */
  lemma RentingAloneIsSilent(base: real, app: LoanApplication)
    requires app.missedInstallments == 0
    ensures Rules(base, app).reasons == Rules(base, app.(homeOwnership := Own)).reasons
    ensures Rules(base, app.(homeOwnership := Own)).prob <= Rules(base, app).prob
  {
    var own := app.(homeOwnership := Own);
    RulesMonotone(Step(base, []), RentRule(Step(base, []), app), own);
  }

  /**
   * The order of the rules is observable: evaluating rule 3 before rule 2
   * gives a different probability and a different order of reasons for a
   * renter with one missed installment.
   */
  lemma RuleOrderMatters()
    ensures var app := LoanApplication(5000.0, 1000.0, 10000.0, 1, 500.0, 3, Rent);
      var start := RentRule(Step(0.10, []), app);
      var inOrder := MissedRule(start, app);
      var inOrder' := RentDelinquencyRule(inOrder, app);
      var swapped := RentDelinquencyRule(start, app);
      var swapped' := MissedRule(swapped, app);
      inOrder'.prob == 0.80 && swapped'.prob == 0.95
      && inOrder'.reasons == [RecentMissedReason, RentDelinquencyReason]
      && swapped'.reasons == [RentDelinquencyReason, RecentMissedReason]
  {
  }
}
