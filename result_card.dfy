/**
 * The result card: the risk level of a stored reply selects a colour theme
 * and an ordered list of recommendations; the probability is shown as a
 * percentage. Nothing here depends on anything but the reply.
 */
module ResultCard {
  import opened Wrappers
  import opened Wire

  /** The labels the card knows, and one case for every other value of `result.risk`. */
  datatype RiskLabel = High | Medium | Low | Unrecognised

  function LabelOf(risk: Option<string>): RiskLabel {
    if risk == Some("High") then High
    else if risk == Some("Medium") then Medium
    else if risk == Some("Low") then Low
    else Unrecognised
  }

  datatype Icon = AlertTriangle | Info | CheckCircle2

  /** The style tokens of one theme: text colour, header background, badge, progress bar, and the icon. */
  datatype Theme = Theme(color: string, bg: string, badge: string, progress: string, icon: Icon)

  const RedTheme := Theme("text-red-500", "bg-red-500/10", "bg-red-600 hover:bg-red-700", "bg-red-500", AlertTriangle)
  const YellowTheme := Theme("text-yellow-500", "bg-yellow-500/10", "bg-yellow-500 hover:bg-yellow-600 text-slate-900", "bg-yellow-500", Info)
  const GreenTheme := Theme("text-green-500", "bg-green-500/10", "bg-green-600 hover:bg-green-700", "bg-green-500", CheckCircle2)

  /**
   * The theme lookup with the fallback its comment intends: High is red,
   * Medium yellow, and Low or any other level green.
   */
  function ThemeFor(level: RiskLabel): (theme: Theme)
    ensures theme == RedTheme <==> level == High
    ensures theme == YellowTheme <==> level == Medium
    ensures theme == GreenTheme <==> level == Low || level == Unrecognised
  {
    match level
    case High => RedTheme
    case Medium => YellowTheme
    case _ => GreenTheme
  }

  /**
   * The theme lookup as written: the fallback reads the constant that is
   * still being initialised, so an unrecognised level throws a
   * ReferenceError (`None`) instead of falling back.
   */
  function ThemeAsWritten(level: RiskLabel): Option<Theme> {
    if level == High then Some(RedTheme)
    else if level == Medium then Some(YellowTheme)
    else if level == Low then Some(GreenTheme)
    else None
  }

  /** The lookup as written agrees with the intended one on the three labels and fails on every other. */
  lemma ThemeAsWrittenFailsOnUnrecognised(level: RiskLabel)
    ensures ThemeAsWritten(level).None? <==> level == Unrecognised
    ensures ThemeAsWritten(level).Some? ==> ThemeAsWritten(level).value == ThemeFor(level)
    ensures ThemeAsWritten(LabelOf(Some(""))) == None && ThemeFor(LabelOf(Some(""))) == GreenTheme
  {
  }

  const HighRecommendations: seq<string> := [
    "Seek emergency medical assessment immediately, especially if experiencing active chest pain or shortness of breath.",
    "Do not engage in strenuous physical activity until cleared by a cardiologist.",
    "Keep a daily log of blood pressure, heart rate, and any chest discomfort (duration and triggers).",
    "Prepare a list of your current medications and family cardiac history for your emergency visit."
  ]

  const MediumRecommendations: seq<string> := [
    "Schedule a non-urgent consultation with a cardiologist within the next 2 to 4 weeks.",
    "Request a comprehensive lipid panel, HbA1c test, and a professional resting ECG.",
    "Begin strict dietary sodium reduction (aim for under 1,500 mg per day) and limit saturated fats.",
    "Monitor and record your blood pressure at home twice daily (morning and evening)."
  ]

  const LowRecommendations: seq<string> := [
    "Maintain routine annual or bi-annual checkups with your primary care physician.",
    "Aim for the AHA-recommended 150 minutes of moderate-intensity aerobic exercise per week.",
    "Focus on a heart-healthy diet rich in whole grains, lean proteins, and minimizing processed sugars.",
    "Keep stress levels managed and ensure 7-9 hours of quality sleep per night."
  ]

  /** The four recommendations of a level, in authored order; none for an unrecognised level. */
  function Recommendations(level: RiskLabel): (recs: seq<string>)
    ensures |recs| == 4 <==> level != Unrecognised
    ensures recs == [] <==> level == Unrecognised
  {
    match level
    case High => HighRecommendations
    case Medium => MediumRecommendations
    case Low => LowRecommendations
    case Unrecognised => []
  }

  /** Different labels get different themes, except that an unrecognised level shares Low's; recommendations differ for all four. */
  lemma PerLabelTables(a: RiskLabel, b: RiskLabel)
    ensures ThemeFor(a) == ThemeFor(b) <==> a == b || (a in {Low, Unrecognised} && b in {Low, Unrecognised})
    ensures Recommendations(a) == Recommendations(b) <==> a == b
  {
    if a != b && a != Unrecognised && b != Unrecognised {
      assert Recommendations(a)[0] != Recommendations(b)[0];
    }
  }

  /** `probability * 100`, before it is formatted to one decimal; NaN when the reply has no probability. */
  function Percent(probability: Option<real>): (percent: Option<real>)
    ensures percent.Some? <==> probability.Some?
    ensures percent.Some? && 0.0 <= probability.value <= 1.0 ==> 0.0 <= percent.value <= 100.0
  {
    match probability
    case Some(p) => Some(p * 100.0)
    case None => None
  }

  datatype Presentation = Presentation(
    level: RiskLabel, percent: Option<real>, theme: Theme, recommendations: seq<string>)

  /** What the card shows for a stored reply. */
  function Present(result: Reply): Presentation {
    var level := LabelOf(result.risk);
    Presentation(level, Percent(result.probability), ThemeFor(level), Recommendations(level))
  }

  /** The theme and the recommendations depend on `result.risk` alone, never on the probability. */
  lemma PresentationFollowsRisk(a: Reply, b: Reply)
    requires a.risk == b.risk
    ensures Present(a).theme == Present(b).theme
    ensures Present(a).recommendations == Present(b).recommendations
    ensures Present(a).level == Present(b).level
  {
  }
}
