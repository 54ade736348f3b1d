/** The colour of the predicted-grade badge in the performance summary. */
module GradeBadge {
  import Recommendations

  /** Badge colours for the six grades the classifier predicts. */
  const GradeColors: map<string, string> := map[
    "A+" := "darkgreen", "A" := "green",
    "B" := "blue", "C" := "orange",
    "D" := "red", "F" := "darkred"
  ]

  /** The colour for a grade, "gray" for a label outside the table. */
  function GradeColor(grade: string): (color: string)
    ensures color != "gray" <==> grade in GradeColors
    ensures grade in GradeColors ==> color == GradeColors[grade]
  {
    if grade in GradeColors then GradeColors[grade] else "gray"
  }

  /** Every grade with recommendation cards also has a badge colour, and
      "F" is the one grade with a colour but without cards. */
  lemma BadgeCoversRecommendationTable()
    ensures Recommendations.TableGrades <= GradeColors.Keys
    ensures GradeColors.Keys - Recommendations.TableGrades == {"F"}
    ensures GradeColor("F") == "darkred" && Recommendations.GradeSpecific("F") == []
  {
  }
}
