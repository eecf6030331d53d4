/** The score card's three-band label and the recommendation printed under it. */
module RiskScoreCard {

  datatype Category = Category(caption: string, color: string)

  function RiskCategory(score: real): (c: Category)
    ensures score > 0.55 <==> c.caption == "HIGH RISK"
    ensures 0.45 <= score <= 0.55 <==> c.caption == "MEDIUM RISK"
    ensures score < 0.45 <==> c.caption == "LOW RISK"
  {
    if score > 0.55 then Category("HIGH RISK", "bg-red-500 text-red-500")
    else if score >= 0.45 then Category("MEDIUM RISK", "bg-orange-500 text-orange-500")
    else Category("LOW RISK", "bg-green-500 text-green-500")
  }

  function RecommendationText(score: real): (text: string)
    ensures score > 0.55 <==> text == "Immediate intervention required"
    ensures 0.45 <= score <= 0.55 <==> text == "Monitor situation closely"
    ensures score < 0.45 <==> text == "Continue routine surveillance"
  {
    if score > 0.55 then "Immediate intervention required"
    else if score >= 0.45 then "Monitor situation closely"
    else "Continue routine surveillance"
  }

  /** Position of a label in the order LOW < MEDIUM < HIGH. */
  function LabelRank(caption: string): nat
  {
    if caption == "HIGH RISK" then 2 else if caption == "MEDIUM RISK" then 1 else 0
  }

  /** A higher score never gets a lower label. */
  lemma CategoryMonotone(s: real, t: real)
    requires s <= t
    ensures LabelRank(RiskCategory(s).caption) <= LabelRank(RiskCategory(t).caption)
  {
  }

  /** The recommendation is fixed by the label: both follow the same three bands. */
  lemma RecommendationFollowsCategory(s: real, t: real)
    requires RiskCategory(s).caption == RiskCategory(t).caption
    ensures RecommendationText(s) == RecommendationText(t)
  {
  }
}
