# Credit score predictor: the risk verdict, modelled in Dafny

This project models the deterministic part of the credit score predictor's
`/predict` endpoint (`backend/main.py`). The endpoint takes a loan
application that the request schema has validated. It derives the
debt-to-income ratio and asks a trained classifier for a default
probability. It then runs a fixed, ordered sequence of four adjustment
rules over that probability:

1. a silent renting surcharge;
2. a missed-installment penalty;
3. a renting-with-delinquency floor;
4. a disposable-income rule.

Each rule may append a reason. The result is clamped to [0, 0.99],
classified as Low, Medium or High Risk with a colour, and returned with a
message that lists the reasons.

Modules, one per component, all in the top directory:

- `wrappers.dfy`: `Option` and `Result`.
- `text.dfy`: decimal rendering of a count and `str.join`. These are the two
  string operations the reasons and the message use.
- `application.dfy`: the request schema (`Validate`), the home-ownership
  enumeration, the feature row and the debt-to-income ratio.
- `risk_engine.dfy`: the four rules as pure functions over a running
  `Step`, and `Rules`, their composition. `Adjust` is the imperative engine,
  with one running probability and a growing list of reasons, proved equal
  to `Rules`. The file also holds the clamp and the properties of the rules.
- `classifier.dfy`: the thresholds, the category labels and the colours.
- `predictor.dfy`: the verdict (`Assess`), the message, the response, the
  endpoint body (`PredictRisk`), pipeline-level properties and the three
  worked scenarios.

Probabilities and money are Dafny `real`s. The classifier is a parameter
`score: Features -> real` whose value on the application's features lies
in [0, 1]. Rendering the percentage for the message (Python's `:.1%`) is a
parameter `formatPercent: real -> string`.

Two observations the proofs make explicit:

- Rule order is observable. For a renter with one missed installment and
  base probability 0.10, evaluating rule 3 before rule 2 turns 0.80 into
  0.95 (`RuleOrderMatters`).
- The final probability is NOT monotone in the number of missed
  installments. One missed installment adds 0.15 after its floor, while
  several only floor at 0.85. So base 0.90 gives 0.99 for one and 0.90 for
  two (`MoreMissedCanLowerProbability`). The category is monotone: more
  missed installments never give a less severe category
  (`MoreMissedNeverLowersCategory`). The comment in the code promises
  "Force High Risk" for several missed installments, and that holds. So this
  is recorded as behaviour, not as a defect.

## Model

| member | source | states |
|---|---|---|
| Text.NatToString | backend/main.py:85 | the interpolated count is a non-empty string of decimal digits, with a leading zero exactly when the count is zero and a single digit exactly when it is below ten |
| Text.NatToStringRoundTrip | backend/main.py:85 | reading the rendered digits back gives the count |
| Text.NatToStringInjective | backend/main.py:85 | distinct counts render differently |
| Text.JoinAppend | backend/main.py:116 | joining a list that grew by one reason appends the separator and that reason, so the text keeps the list's order |
| Text.Join | backend/main.py:116 | `'; '.join`: empty for no parts, otherwise it starts with the first part and ends with the last; the order and separators are stated by `Text.JoinAppend` |
| Application.ParseHomeOwnership | backend/main.py:46 | exactly "RENT", "MORTGAGE" and "OWN" (case-sensitive) are accepted, and the parsed status spells the input |
| Application.ParseName | backend/main.py:46 | every status survives writing out and parsing back |
| Application.Satisfies | backend/main.py:39-46 | the constraint of each schema field (no ensures: it is the reference definition that `Application.FailingFields` and `Application.Validate` are stated against) |
| Application.FailingFields | backend/main.py:38-46 | a field is reported exactly when it is among those checked and violates its constraint |
| Application.Validate | backend/main.py:38-46 | the request is accepted iff every field constraint holds (income > 0, debt >= 0, loan > 1000, missed >= 0, balance >= 0, accounts >= 0, known status), keeping the values; otherwise exactly the violated fields are reported |
| Application.DebtToIncome | backend/main.py:53-55 | with positive income the ratio times the income is one hundred times the debt; with non-positive income it is 0; it is non-negative for non-negative debt |
| Application.Normalize | backend/main.py:53-64 | the feature row carries the derived ratio and passes the other fields through (home ownership in the "Employment Duration" column) |
| Classifier.Classify | backend/main.py:104-112 | High iff p > 0.60, Medium iff 0.30 < p <= 0.60, Low iff p <= 0.30 |
| Classifier.Category.Label | backend/main.py:104-111 | the category texts "Low Risk", "Medium Risk", "High Risk" (no ensures; `Classifier.LabelsIdentifyCategory` states they are distinct) |
| Classifier.Category.Color | backend/main.py:105-112 | the colours "green", "#ffcc00", "red" (no ensures; `Classifier.LabelsIdentifyCategory` states they are distinct) |
| Classifier.ClassifyMonotone | backend/main.py:104-112 | a higher probability never gives a less severe category |
| Classifier.BoundariesFallLow | backend/main.py:107-110 | 0.30 is Low and 0.60 is Medium (strict comparisons) |
| Classifier.LabelsIdentifyCategory | backend/main.py:104-112 | the category text, and likewise the colour, determines the category |
| RiskEngine.SeveralMissedReason | backend/main.py:85 | the reason is "Critical: ", then only decimal digits, then " missed installments." |
| RiskEngine.SeveralMissedReasonInjective | backend/main.py:85 | the critical reason determines the missed-installment count it names |
| RiskEngine.ReasonsDistinct | backend/main.py:82-99 | the five reason texts are pairwise different |
| RiskEngine.RentRule | backend/main.py:74-75 | rule 1 never lowers the probability and never adds a reason |
| RiskEngine.MissedRule | backend/main.py:78-85 | rule 2 never lowers the probability; for one missed installment it raises it by at least 0.15; it adds exactly one reason iff something was missed |
| RiskEngine.RentDelinquencyRule | backend/main.py:88-90 | rule 3 never lowers the probability and adds exactly one reason iff renting with a missed installment |
| RiskEngine.DisposableIncome | backend/main.py:93 | disposable income plus the debt payments is the income; it is negative exactly when the debt payments exceed the income |
| RiskEngine.DisposableIncomeRule | backend/main.py:93-99 | rule 4 never lowers the probability and adds exactly one reason iff disposable income is below 3000 |
| RiskEngine.Rules | backend/main.py:71-99 | the adjusted probability is at least the base and at most three reasons are given |
| RiskEngine.Adjust | backend/main.py:71-99 | the in-place engine (running probability, appended reasons) computes exactly the rule sequence `Rules` |
| RiskEngine.Clamp | backend/main.py:102 | the result is in [0, 0.99]; values inside are kept, values above become 0.99 and values below become 0 |
| RiskEngine.ClampMonotone | backend/main.py:102 | clamping preserves order |
| RiskEngine.RulesMonotone | backend/main.py:74-99 | each rule is monotone in the running probability |
| RiskEngine.FinalWithinBounds | backend/main.py:71-102 | the final probability is in [0, 0.99] and at least min(base, 0.99) |
| RiskEngine.OneMissedInstallment | backend/main.py:79-82 | with one missed installment the probability after rule 2 is at least 0.60 and "Recent missed installment detected." is the first reason |
| RiskEngine.SeveralMissedInstallments | backend/main.py:83-85 | with several missed installments the adjusted probability is at least 0.85 and the first reason names the count |
| RiskEngine.RentingWithDelinquency | backend/main.py:78-90 | renting with a missed installment gives at least 0.80; the rule-2 reason comes first and the combination reason second |
| RiskEngine.DisposableIncomeOutcome | backend/main.py:93-99 | below 1000: at least 0.90 and only the critical reason; in [1000, 3000): exactly +0.10 and only the warning; from 3000: neither; never both |
| RiskEngine.ReasonsEmptyIff | backend/main.py:71-99 | no reason is given iff nothing was missed and disposable income is at least 3000 |
| RiskEngine.RentingAloneIsSilent | backend/main.py:73-75 | with no missed installment a renter gets the same reasons as an owner and a probability at least as high |
| RiskEngine.RuleOrderMatters | backend/main.py:77-90 | swapping rules 2 and 3 changes both the probability (0.80 against 0.95) and the order of the reasons |
| Predictor.Assess | backend/main.py:71-112 | the final probability is in [0, 0.99], at least min(base, 0.99), and the category follows the thresholds |
| Predictor.ComposeMessage | backend/main.py:114-116 | the message starts with the risk text; the ". Alerts: " section follows iff there is a reason and lists the reasons joined by "; " |
| Predictor.Respond | backend/main.py:118-123 | the response fields from an assessment (no ensures; what the response holds is stated by `Predictor.PredictRisk`) |
| Predictor.PredictRisk | backend/main.py:53-123 | the endpoint body computes the response of `Assess` on the classifier's probability; the percentage is in [0, 99] and the category text follows the thresholds in percent |
| Predictor.SeveralMissedIsHighRisk | backend/main.py:83-109 | several missed installments give at least 0.85, High Risk, and the reason naming the count |
| Predictor.RentingWithDelinquencyIsHighRisk | backend/main.py:88-109 | renting with a missed installment gives at least 0.80, High Risk, and the combination reason second |
| Predictor.LowDisposableIncomeIsHighRisk | backend/main.py:93-109 | disposable income below 1000 gives at least 0.90, High Risk, the critical reason and not the warning |
| Predictor.MoreMissedNeverLowersCategory | backend/main.py:77-112 | raising the missed-installment count never lowers the category |
| Predictor.MoreMissedCanLowerProbability | backend/main.py:78-102 | one missed installment can end at 0.99 where two end at 0.90 |
| Predictor.ScenarioNoRuleFires | backend/main.py:71-116 | an owner with nothing missed and disposable income 4000 keeps 0.10, Low Risk, no reasons, no alerts section |
| Predictor.TwoReasonsMessage | backend/main.py:114-116 | with two reasons the message is the prefix, the percentage, ". Alerts: ", the first reason, "; " and the second reason |
| Predictor.ScenarioRenterOneMissed | backend/main.py:71-116 | a renter with one missed installment goes to 0.80, High Risk, with both reasons in rule order in the message |
| Predictor.ScenarioLowDisposableIncome | backend/main.py:71-112 | disposable income 300 gives 0.90, High Risk, and only the critical income reason |

## Left out

- Loading the model file and the "Model not loaded" error (backend/main.py:26-35, 50-51): file I/O and a runtime artifact.
- The classifier call and the pandas DataFrame object (backend/main.py:57-68): an opaque foreign library. The row's contents are `Normalize`; the classifier is the parameter `score`, and its result is assumed to lie in [0, 1].
- Wrapping failures as "Prediction Error" (backend/main.py:125-126): the modelled steps cannot fail, and the classifier's failures are outside the model.
- FastAPI, CORS, static files and uvicorn (backend/main.py:11-20, 128-136): transport plumbing.
- Predictor.PredictRisk: the response percentage is `final * 100` exactly, not rounded to two decimals, and the message's percentage text comes from the `formatPercent` parameter. Decimal formatting of floats is not modelled. Its category thresholds in percent hold only because of this: the program reports a final 0.600001 as 60.0 with "High Risk".
- Application.Validate: it works on already-decoded values. Pydantic's coercion of JSON strings and numbers and its error message texts are not modelled; only the list of violated fields is.
- IEEE double rounding: probabilities and amounts are exact reals, so sums such as 0.45 + 0.15 are exactly 0.60 here. With doubles the results can differ at a boundary. A renter with base 0.15 and disposable income in [1000, 3000) reaches 0.30000000000000004, which is Medium Risk. The model gives exactly 0.30, which is Low Risk.
- The browser front end (frontend/script.js), the training script, the synthetic data generator and the data inspection scripts: UI handling, foreign ML libraries, random sampling and one-off I/O.
