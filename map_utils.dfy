/** The map's four-band colouring of a risk score, and the legend drawn beside the map. */
module MapUtils {

  const Critical: string := "#b71c1c"
  const High: string := "#f44336"
  const Medium: string := "#ff9800"
  const Low: string := "#4caf50"

  function GetColorByRisk(score: real): (color: string)
    ensures score >= 0.8 <==> color == Critical
    ensures 0.6 <= score < 0.8 <==> color == High
    ensures 0.3 <= score < 0.6 <==> color == Medium
    ensures score < 0.3 <==> color == Low
  {
    if score >= 0.8 then Critical
    else if score >= 0.6 then High
    else if score >= 0.3 then Medium
    else Low
  }

  /** Position of a colour in the order low < medium < high < critical. */
  function ColorRank(color: string): nat
  {
    if color == Critical then 3 else if color == High then 2 else if color == Medium then 1 else 0
  }

  /** Every score gets one of the four colours, and a higher score never a lower band. */
  lemma ColorBandsExhaustiveAndMonotone(s: real, t: real)
    requires s <= t
    ensures GetColorByRisk(s) in [Low, Medium, High, Critical]
    ensures ColorRank(GetColorByRisk(s)) <= ColorRank(GetColorByRisk(t))
  {
  }

  /** One legend row: its caption and the score range it names. */
  datatype LegendEntry = LegendEntry(caption: string, from: real, to: real)

  /** The legend, from low to critical, next to the colour each row stands for. */
  const Legend: seq<LegendEntry> := [
    LegendEntry("Low", 0.0, 0.3),
    LegendEntry("Medium", 0.3, 0.6),
    LegendEntry("High", 0.6, 0.8),
    LegendEntry("Critical", 0.8, 1.0)
  ]
  const LegendColors: seq<string> := [Low, Medium, High, Critical]

  /** A score in [0,1] gets the colour of the legend row whose range holds it (lower bound inclusive). */
  lemma ColorsMatchLegend(score: real, k: nat)
    requires 0.0 <= score <= 1.0 && k < |Legend|
    requires Legend[k].from <= score && (score < Legend[k].to || k == |Legend| - 1)
    ensures GetColorByRisk(score) == LegendColors[k]
  {
  }
}
