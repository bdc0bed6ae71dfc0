/** The mapping from a final default probability to a risk category and its colour. */
module Classifier {

  datatype Category = LowRisk | MediumRisk | HighRisk {
    /** The category text in the response. */
    function Label(): string
    {
      match this
      case LowRisk => "Low Risk"
      case MediumRisk => "Medium Risk"
      case HighRisk => "High Risk"
    }

    /** The display colour in the response. */
    function Color(): string
    {
      match this
      case LowRisk => "green"
      case MediumRisk => "#ffcc00"
      case HighRisk => "red"
    }

    /** The severity order of the categories. */
    function Rank(): nat
    {
      match this
      case LowRisk => 0
      case MediumRisk => 1
      case HighRisk => 2
    }
  }

  const HighThreshold: real := 0.60
  const MediumThreshold: real := 0.30

  /**
   * Strict thresholds tested from the top down: above 0.60 is high,
   * above 0.30 is medium, anything else is low, so each boundary value
   * belongs to the lower category.
   */
  function Classify(p: real): (c: Category)
    ensures c == HighRisk <==> p > HighThreshold
    ensures c == MediumRisk <==> MediumThreshold < p <= HighThreshold
    ensures c == LowRisk <==> p <= MediumThreshold
  {
    if p > HighThreshold then HighRisk
    else if p > MediumThreshold then MediumRisk
    else LowRisk
  }

  /** A higher probability never yields a less severe category. */
  lemma ClassifyMonotone(p: real, q: real)
    requires p <= q
    ensures Classify(p).Rank() <= Classify(q).Rank()
  {
  }

  /** The boundary values themselves fall into the lower category. */
  lemma BoundariesFallLow()
    ensures Classify(0.30) == LowRisk && Classify(0.60) == MediumRisk
  {
  }

  /** The label, and likewise the colour, identifies the category. */
  lemma LabelsIdentifyCategory(c: Category, d: Category)
    ensures c.Label() == d.Label() <==> c == d
    ensures c.Color() == d.Color() <==> c == d
  {
  }
}
