/** The rule-based recommendation engine: static cards chosen by predicted
    grade, one warning card per weak internal exam, and two fixed
    improvement strategies. */
module Recommendations {
  import opened StudentRecord

  /** One recommendation card as the dashboard renders it. */
  datatype Card = Card(kind: string, message: string, icon: string, color: string)

  /** The three groups of cards, in the order the dashboard shows them. */
  datatype RecommendationSet = RecommendationSet(
    gradeSpecific: seq<Card>,
    internalAnalysis: seq<Card>,
    improvementStrategies: seq<Card>)

  /** The grades that have their own cards; "F" is not among them. */
  const TableGrades: set<string> := {"A+", "A", "B", "C", "D"}

  /** The static grade table: two cards for each of A+, A, B, C and D. */
  const GradeRecommendations: map<string, seq<Card>> := map[
    "A+" := [
      Card("Excellence", "Pursue Advanced Academic Challenges", "🏆", "green"),
      Card("Opportunity", "Consider Research or Mentorship Programs", "🔬", "green")],
    "A" := [
      Card("Consistent", "Maintain High Performance, Explore Depth", "📈", "darkgreen"),
      Card("Growth", "Develop Interdisciplinary Skills", "🌱", "darkgreen")],
    "B" := [
      Card("Potential", "Focus on Targeted Academic Improvement", "🎯", "blue"),
      Card("Strategy", "Develop Advanced Study Techniques", "📚", "blue")],
    "C" := [
      Card("Alert", "Requires Comprehensive Academic Support", "⚠️", "orange"),
      Card("Action", "Implement Structured Learning Plan", "📋", "orange")],
    "D" := [
      Card("Critical", "Immediate Academic Intervention Needed", "🚨", "red"),
      Card("Support", "Seek Personalized Tutoring", "🤝", "red")]
  ]

  /** The two generic cards every student receives. */
  const ImprovementStrategies: seq<Card> := [
    Card("Skill", "Enhance Time Management", "⏰", "purple"),
    Card("Learning", "Develop Active Study Techniques", "💡", "teal")
  ]

  /** An internal exam score strictly below this (out of 20) is a weakness. */
  const WeaknessThreshold: real := 10.0

  /** The warning card for the internal exam called `name`. */
  function WeaknessCard(name: string): (card: Card)
    ensures card.kind == "Weakness" && card.icon == "🔍" && card.color == "red"
    ensures |card.message| == 31 + |name| && card.message[31..] == name
  {
    Card("Weakness", "Critical Improvement Needed in " + name, "🔍", "red")
  }

  /** The three internal exams, named and scored, in exam order. */
  function Internals(info: StudentInfo): (exams: seq<(string, real)>)
    ensures |exams| == 3
    ensures forall k :: 0 <= k < 3 ==>
      var key := [Internal1, Internal2, Internal3][k];
      exams[k].0 == key.Name() && Record(info)[key] == Num(exams[k].1)
  {
    [("Internal_1", info.internal1), ("Internal_2", info.internal2), ("Internal_3", info.internal3)]
  }

  /** The grade's cards from the table; a grade the table lacks gets none. */
  function GradeSpecific(grade: string): (cards: seq<Card>)
    ensures |cards| == if grade in TableGrades then 2 else 0
    ensures grade in TableGrades ==> cards == GradeRecommendations[grade]
  {
    if grade in GradeRecommendations then GradeRecommendations[grade] else []
  }

  /** The warning cards for a list of scored exams: one per exam scored
      below the threshold, in list order. */
  function WeaknessCards(exams: seq<(string, real)>): (cards: seq<Card>)
    ensures |cards| <= |exams|
    ensures forall c :: c in cards ==> c.kind == "Weakness" && c.color == "red"
  {
    if exams == [] then []
    else
      var last := exams[|exams| - 1];
      WeaknessCards(exams[..|exams| - 1])
        + (if last.1 < WeaknessThreshold then [WeaknessCard(last.0)] else [])
  }

  /** Builds the three groups: the grade's table entry, a warning for every
      internal exam below 10 (appended in exam order), then the two generic
      strategies. */
  method GenerateDetailedRecommendations(info: StudentInfo, predictedGrade: string)
    returns (recommendations: RecommendationSet)
    ensures recommendations.gradeSpecific == GradeSpecific(predictedGrade)
    ensures recommendations.internalAnalysis == WeaknessCards(Internals(info))
    ensures recommendations.improvementStrategies == ImprovementStrategies
  {
    recommendations := RecommendationSet([], [], []);

    if predictedGrade in GradeRecommendations {
      recommendations := recommendations.(gradeSpecific := GradeRecommendations[predictedGrade]);
    } else {
      recommendations := recommendations.(gradeSpecific := []);
    }

    var internals := Internals(info);
    for i := 0 to |internals|
      invariant recommendations.gradeSpecific == GradeSpecific(predictedGrade)
      invariant recommendations.internalAnalysis == WeaknessCards(internals[..i])
    {
      var (internalName, marks) := internals[i];
      if marks < WeaknessThreshold {
        recommendations := recommendations.(
          internalAnalysis := recommendations.internalAnalysis + [WeaknessCard(internalName)]);
      }
      assert internals[..i + 1][..i] == internals[..i];
    }
    assert internals[..|internals|] == internals;

    recommendations := recommendations.(improvementStrategies := ImprovementStrategies);
  }

  /** The warnings for a list of exams are one card for each exam below the
      threshold: a warning names an exam of the list only if that exam
      scored below 10, and every such exam is warned about. */
  lemma {:induction false} WeaknessCardsExactly(exams: seq<(string, real)>, name: string)
    ensures WeaknessCard(name) in WeaknessCards(exams) <==>
      exists k :: 0 <= k < |exams| && exams[k].0 == name && exams[k].1 < WeaknessThreshold
  {
    if exams != [] {
      var init := exams[..|exams| - 1];
      WeaknessCardsExactly(init, name);
      var last := exams[|exams| - 1];
      if WeaknessCard(name) in WeaknessCards(exams) && WeaknessCard(name) !in WeaknessCards(init) {
        assert last.1 < WeaknessThreshold && WeaknessCard(name) == WeaknessCard(last.0);
        assert ("Critical Improvement Needed in " + name)[31..] == name;
        assert ("Critical Improvement Needed in " + last.0)[31..] == last.0;
        assert exams[|exams| - 1].0 == name;
      }
      if exists k :: 0 <= k < |exams| && exams[k].0 == name && exams[k].1 < WeaknessThreshold {
        var k :| 0 <= k < |exams| && exams[k].0 == name && exams[k].1 < WeaknessThreshold;
        if k < |exams| - 1 {
          assert init[k] == exams[k];
        }
      }
    }
  }

  /** For the three internals the warnings are, in exam order, one for each
      exam scored strictly below 10 and none for a score of 10 or more. */
  lemma {:induction false} InternalAnalysisByExam(info: StudentInfo)
    ensures WeaknessCards(Internals(info)) ==
      (if info.internal1 < WeaknessThreshold then [WeaknessCard("Internal_1")] else [])
      + (if info.internal2 < WeaknessThreshold then [WeaknessCard("Internal_2")] else [])
      + (if info.internal3 < WeaknessThreshold then [WeaknessCard("Internal_3")] else [])
  {
    var exams := Internals(info);
    assert exams[..2][..1] == exams[..1];
    assert exams[..1][..0] == [];
    assert exams[..|exams| - 1] == exams[..2];
    assert WeaknessCards(exams[..1]) ==
      (if info.internal1 < WeaknessThreshold then [WeaknessCard("Internal_1")] else []);
  }

  /** Distinct exams get distinct warnings, so each internal's warning is
      present exactly when that internal is below 10. */
  lemma InternalWarningIffBelowThreshold(info: StudentInfo)
    ensures WeaknessCard("Internal_1") in WeaknessCards(Internals(info)) <==> info.internal1 < 10.0
    ensures WeaknessCard("Internal_2") in WeaknessCards(Internals(info)) <==> info.internal2 < 10.0
    ensures WeaknessCard("Internal_3") in WeaknessCards(Internals(info)) <==> info.internal3 < 10.0
    ensures |WeaknessCards(Internals(info))| <= 3
  {
    var exams := Internals(info);
    WeaknessCardsExactly(exams, "Internal_1");
    WeaknessCardsExactly(exams, "Internal_2");
    WeaknessCardsExactly(exams, "Internal_3");
    assert exams[0].0 == "Internal_1" && exams[1].0 == "Internal_2" && exams[2].0 == "Internal_3";
  }

  /** Grade "F" gets no grade-specific cards; "A+" gets two, the first
      urging advanced challenges. */
  lemma GradeTableExamples()
    ensures GradeSpecific("F") == []
    ensures |GradeSpecific("A+")| == 2
    ensures GradeSpecific("A+")[0].message == "Pursue Advanced Academic Challenges"
  {
  }
}
