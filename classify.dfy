/** `classify_supplier`: the Kraljic quadrant of one supplier, a pure
    function of its two normalised scores with the fixed threshold 50. */
module Classify {
  import opened Frame

  datatype Category = Strategic | Leverage | Bottleneck | NonCritical

  /** The label written into the `Category` column. */
  function Label(c: Category): string
  {
    match c
    case Strategic => "Strategic"
    case Leverage => "Leverage"
    case Bottleneck => "Bottleneck"
    case NonCritical => "Non-Critical"
  }

  /** `score > 50`; false for NaN, as every comparison with NaN is. */
  predicate High(s: Score)
  {
    s.Num? && s.x > 50.0
  }

  /** `score <= 50`; also false for NaN, so it is not the negation of High. */
  predicate NotHigh(s: Score)
  {
    s.Num? && s.x <= 50.0
  }

  /** The four branches in the order the source tests them. On numeric
      scores they are exactly the Kraljic matrix, with "high" meaning
      strictly above 50. */
  function ClassifySupplier(risk: Score, impact: Score): (c: Category)
    ensures risk.Num? && impact.Num? ==> c == Quadrant(risk.x > 50.0, impact.x > 50.0)
  {
    if High(risk) && High(impact) then Strategic
    else if NotHigh(risk) && High(impact) then Leverage
    else if High(risk) && NotHigh(impact) then Bottleneck
    else NonCritical
  }

  /** The Kraljic matrix as a lookup on the pair (risk is high, impact is high). */
  function Quadrant(riskHigh: bool, impactHigh: bool): Category
  {
    match (riskHigh, impactHigh)
    case (true, true) => Strategic
    case (false, true) => Leverage
    case (true, false) => Bottleneck
    case (false, false) => NonCritical
  }

  /** Each category holds exactly when its row of the table holds: Strategic
      when both scores are above 50, Leverage when only the impact is,
      Bottleneck when only the risk is, Non-Critical when neither is. */
  lemma CategoryExactly(risk: real, impact: real)
    ensures ClassifySupplier(Num(risk), Num(impact)) == Strategic <==> risk > 50.0 && impact > 50.0
    ensures ClassifySupplier(Num(risk), Num(impact)) == Leverage <==> risk <= 50.0 && impact > 50.0
    ensures ClassifySupplier(Num(risk), Num(impact)) == Bottleneck <==> risk > 50.0 && impact <= 50.0
    ensures ClassifySupplier(Num(risk), Num(impact)) == NonCritical <==> risk <= 50.0 && impact <= 50.0
  {
  }

  /** A score of exactly 50 is not high. */
  lemma TieAtFifty()
    ensures ClassifySupplier(Num(50.0), Num(80.0)) == Leverage
    ensures ClassifySupplier(Num(80.0), Num(50.0)) == Bottleneck
    ensures ClassifySupplier(Num(50.0), Num(50.0)) == NonCritical
  {
  }

  /** A NaN score fails both `> 50` and `<= 50`, so the row falls through to
      the last branch whatever the other score is. */
  lemma NaNIsNonCritical(s: Score)
    ensures ClassifySupplier(NaN, s) == NonCritical
    ensures ClassifySupplier(s, NaN) == NonCritical
  {
  }

  /** The four labels are different strings, so the label column determines
      the category. */
  lemma LabelInjective(a: Category, b: Category)
    ensures Label(a) == Label(b) <==> a == b
  {
  }
}
