/**
 * The prediction endpoint's body: derive the features, take the
 * classifier's default probability, run the adjustment engine, clamp,
 * classify, and assemble the response with its message.
 */
module Predictor {
  import opened Application
  import opened RiskEngine
  import opened Classifier
  import Text

  /** Everything the engine decides for one request. */
  datatype Assessment = Assessment(
    baseProbability: real,
    adjustedProbability: real,
    finalProbability: real,
    reasons: seq<string>,
    category: Category)

  /**
   * The verdict for a base probability and an application: the final
   * probability is the clamped result of the rules, bounded by 0 and
   * 0.99, never below the base (capped at 0.99), and the category is the
   * one its thresholds give.
   */
  function Assess(base: real, app: LoanApplication): (a: Assessment)
    ensures 0.0 <= a.finalProbability <= ProbabilityCap
    ensures a.adjustedProbability >= base
    ensures base >= 0.0 ==> a.finalProbability >= Min(base, ProbabilityCap)
    ensures a.category == HighRisk <==> a.finalProbability > HighThreshold
    ensures a.category == LowRisk <==> a.finalProbability <= MediumThreshold
  {
    var adjusted := Rules(base, app);
    var final := Clamp(adjusted.prob);
    ClampMonotone(Min(base, ProbabilityCap), adjusted.prob);
    Assessment(base, adjusted.prob, final, adjusted.reasons, Classify(final))
  }

  const MessagePrefix: string := "Estimated default risk is "
  const AlertsHeader: string := ". Alerts: "
  const ReasonSeparator: string := "; "

  /**
   * The message: the prefix with the rendered percentage, followed by the
   * alerts section exactly when there is at least one reason, listing the
   * reasons in order separated by "; ".
   */
  function ComposeMessage(percentText: string, reasons: seq<string>): (msg: string)
    ensures |msg| >= |MessagePrefix + percentText|
    ensures msg[..|MessagePrefix + percentText|] == MessagePrefix + percentText
    ensures reasons == [] <==> |msg| == |MessagePrefix + percentText|
    ensures reasons != [] ==>
      msg[|MessagePrefix + percentText|..] == AlertsHeader + Text.Join(reasons, ReasonSeparator)
  {
    var head := MessagePrefix + percentText;
    if reasons == [] then head else head + AlertsHeader + Text.Join(reasons, ReasonSeparator)
  }

  /** The JSON response: percentage, category text, colour and message. */
  datatype Response = Response(
    defaultProbability: real,
    riskCategory: string,
    color: string,
    message: string)

  /** The response for an assessment, given the rendered percentage for the message. */
  function Respond(a: Assessment, percentText: string): Response
  {
    Response(a.finalProbability * 100.0, a.category.Label(), a.category.Color(),
      ComposeMessage(percentText, a.reasons))
  }

  /**
   * The endpoint body for a validated application. The classifier and
   * the percentage formatting are supplied as functions.
   */
  method PredictRisk(app: LoanApplication, score: Features -> real, formatPercent: real -> string)
    returns (resp: Response)
    requires app.Valid()
    requires 0.0 <= score(Normalize(app)) <= 1.0
    ensures var a := Assess(score(Normalize(app)), app);
      resp == Respond(a, formatPercent(a.finalProbability))
    ensures 0.0 <= resp.defaultProbability <= 99.0
    ensures resp.riskCategory == "High Risk" <==> resp.defaultProbability > 60.0
    ensures resp.riskCategory == "Medium Risk" <==> 30.0 < resp.defaultProbability <= 60.0
    ensures resp.riskCategory == "Low Risk" <==> resp.defaultProbability <= 30.0
  {
    var features := Normalize(app);
    var base := score(features);

    var prob, reasons := Adjust(base, app);
    prob := Clamp(prob);

    var riskCategory := "Low Risk";
    var color := "green";
    if prob > 0.60 {
      riskCategory := "High Risk";
      color := "red";
    } else if prob > 0.30 {
      riskCategory := "Medium Risk";
      color := "#ffcc00";
    }

    var msg := MessagePrefix + formatPercent(prob);
    if reasons != [] {
      msg := msg + AlertsHeader + Text.Join(reasons, ReasonSeparator);
    }

    resp := Response(prob * 100.0, riskCategory, color, msg);
  }

  /** More than one missed installment: at least 0.85, High Risk, and the count is named. */
  lemma SeveralMissedIsHighRisk(base: real, app: LoanApplication)
    requires app.missedInstallments > 1
    ensures Assess(base, app).finalProbability >= SeveralMissedFloor
    ensures Assess(base, app).category == HighRisk
    ensures SeveralMissedReason(app.missedInstallments) in Assess(base, app).reasons
  {
    SeveralMissedInstallments(base, app);
  }

  /** Renting with any missed installment: at least 0.80 and High Risk. */
  lemma RentingWithDelinquencyIsHighRisk(base: real, app: LoanApplication)
    requires app.homeOwnership == Rent && app.missedInstallments > 0
    ensures Assess(base, app).finalProbability >= RentDelinquencyFloor
    ensures Assess(base, app).category == HighRisk
    ensures Assess(base, app).reasons[1] == RentDelinquencyReason
  {
    RentingWithDelinquency(base, app);
  }

  /** Disposable income below 1000: at least 0.90 and High Risk. */
  lemma LowDisposableIncomeIsHighRisk(base: real, app: LoanApplication)
    requires app.missedInstallments >= 0
    requires DisposableIncome(app) < CriticalIncomeLimit
    ensures Assess(base, app).finalProbability >= CriticalIncomeFloor
    ensures Assess(base, app).category == HighRisk
    ensures CriticalIncomeReason in Assess(base, app).reasons
    ensures LowIncomeReason !in Assess(base, app).reasons
  {
    DisposableIncomeOutcome(base, app);
  }

  /**
   * More missed installments never give a less severe category, all
   * other fields being equal.
   */
  lemma MoreMissedNeverLowersCategory(base: real, app: LoanApplication, more: int)
    requires app.Valid()
    requires app.missedInstallments <= more
    ensures Assess(base, app).category.Rank() <= Assess(base, app.(missedInstallments := more)).category.Rank()
  {
    var worse := app.(missedInstallments := more);
    if more > 1 {
      SeveralMissedIsHighRisk(base, worse);
    } else if app.missedInstallments < more {
      // more == 1 and nothing was missed before: every rule is at least as high.
      var start := RentRule(Step(base, []), app);
      assert start == RentRule(Step(base, []), worse);
      var s2, t2 := MissedRule(start, app), MissedRule(start, worse);
      assert s2.prob <= t2.prob;
      RulesMonotone(s2, t2, app);
      var s3 := RentDelinquencyRule(s2, app);
      var t3 := RentDelinquencyRule(t2, worse);
      assert s3.prob <= t3.prob;
      RulesMonotone(s3, t3, app);
      assert DisposableIncomeRule(t3, app) == DisposableIncomeRule(t3, worse);
      ClampMonotone(Rules(base, app).prob, Rules(base, worse).prob);
      ClassifyMonotone(Assess(base, app).finalProbability, Assess(base, worse).finalProbability);
    }
  }

  /**
   * The probability itself is not monotone in the missed installments:
   * one missed installment can end higher than two, because rule 2 adds
   * 0.15 for one but only floors at 0.85 for several.
   */
  lemma MoreMissedCanLowerProbability()
    ensures var one := LoanApplication(10000.0, 0.0, 5000.0, 1, 0.0, 1, Own);
      var two := one.(missedInstallments := 2);
      Assess(0.90, one).finalProbability == 0.99
      && Assess(0.90, two).finalProbability == 0.90
  {
  }

  /** An owner with no missed installment and disposable income 4000: nothing fires. */
  lemma ScenarioNoRuleFires()
    ensures var app := LoanApplication(5000.0, 1000.0, 10000.0, 0, 500.0, 3, Own);
      var a := Assess(0.10, app);
      a.finalProbability == 0.10 && a.category == LowRisk && a.reasons == []
      && Respond(a, "10.0%").message == "Estimated default risk is 10.0%"
  {
  }

  /** Two reasons appear in the message in list order, separated once. */
  lemma TwoReasonsMessage(percentText: string, first: string, second: string)
    ensures ComposeMessage(percentText, [first, second]) ==
      MessagePrefix + percentText + AlertsHeader + first + ReasonSeparator + second
  {
    assert [first, second] == [first] + [second];
    Text.JoinAppend([first], second, ReasonSeparator);
  }

  /** A renter with one missed installment: 0.15, then 0.60, then floored at 0.80. */
  lemma ScenarioRenterOneMissed()
    ensures var app := LoanApplication(5000.0, 1000.0, 10000.0, 1, 500.0, 3, Rent);
      var a := Assess(0.10, app);
      a.finalProbability == 0.80 && a.category == HighRisk
      && a.reasons == [RecentMissedReason, RentDelinquencyReason]
      && Respond(a, "80.0%").message ==
        MessagePrefix + "80.0%" + AlertsHeader + RecentMissedReason + ReasonSeparator + RentDelinquencyReason
  {
    var app := LoanApplication(5000.0, 1000.0, 10000.0, 1, 500.0, 3, Rent);
    assert Assess(0.10, app).reasons == [RecentMissedReason, RentDelinquencyReason];
    TwoReasonsMessage("80.0%", RecentMissedReason, RentDelinquencyReason);
  }

  /** Disposable income 300: floored at 0.90 with the critical income reason only. */
  lemma ScenarioLowDisposableIncome()
    ensures var app := LoanApplication(1500.0, 1200.0, 10000.0, 0, 500.0, 3, Own);
      var a := Assess(0.05, app);
      a.finalProbability == 0.90 && a.category == HighRisk
      && a.reasons == [CriticalIncomeReason]
  {
  }
}
