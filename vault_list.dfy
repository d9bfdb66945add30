/**
 * The risk badge of the vault list: each score is shown with a label and a
 * pair of colour classes, both chosen by the same three score buckets
 * (up to 3, 4 to 6, above 6).
 */
module VaultList {

  import opened YieldOptimizer

  const GreenClasses: string := "text-green-600 bg-green-100"
  const YellowClasses: string := "text-yellow-600 bg-yellow-100"
  const RedClasses: string := "text-red-600 bg-red-100"

  /** The colour classes of the badge: each colour names exactly one score bucket. */
  function GetRiskColor(score: int): (classes: string)
    ensures classes == GreenClasses <==> score <= 3
    ensures classes == YellowClasses <==> 4 <= score <= 6
    ensures classes == RedClasses <==> score > 6
  {
    assert GreenClasses[5] == 'g' && YellowClasses[5] == 'y' && RedClasses[5] == 'r';
    if score <= 3 then GreenClasses
    else if score <= 6 then YellowClasses
    else RedClasses
  }

  /** The text of the badge: each label names exactly one score bucket. */
  function GetRiskLabel(score: int): (text: string)
    ensures text == "Low Risk" <==> score <= 3
    ensures text == "Medium Risk" <==> 4 <= score <= 6
    ensures text == "High Risk" <==> score > 6
  {
    assert "Low Risk"[0] == 'L' && "Medium Risk"[0] == 'M' && "High Risk"[0] == 'H';
    if score <= 3 then "Low Risk"
    else if score <= 6 then "Medium Risk"
    else "High Risk"
  }

  /** The label a level would be shown with. */
  function LevelLabel(l: Level): string {
    match l
    case Low => "Low Risk"
    case Medium => "Medium Risk"
    case High => "High Risk"
  }

  /** Two scores share a label exactly when they share a colour. */
  lemma LabelAgreesWithColor(s1: int, s2: int)
    ensures GetRiskLabel(s1) == GetRiskLabel(s2) <==> GetRiskColor(s1) == GetRiskColor(s2)
  {
  }

  /**
   * The badge shows the level the risk assessment starts from for every
   * score except 4, which is shown as medium but assessed as low.
   */
  lemma BadgeDiffersFromBaseLevelOnlyAtFour(score: int)
    ensures GetRiskLabel(score) == LevelLabel(BaseLevel(score)) <==> score != 4
  {
  }
}
