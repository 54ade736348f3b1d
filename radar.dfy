/** The data series of the performance radar chart: seven values on a
    0-100 scale, one per axis. */
module Radar {
  import opened StudentRecord
  import Features

  /** The chart's axes, in drawing order. */
  const RadarAxes: seq<string> := [
    "Internal 1", "Internal 2", "Internal 3",
    "Assignment", "Activities",
    "Attendance", "Study Hours"
  ]

  /** The smaller of two numbers; the first when they are equal. */
  function Min(a: real, b: real): (m: real)
    ensures m <= a && m <= b
    ensures m == a || m == b
  {
    if b < a then b else a
  }

  /** Study hours scaled by 2.5 and capped at 100. */
  function StudyHoursValue(hours: real): (v: real)
    ensures v <= 100.0
    ensures v <= hours * 2.5
    ensures v == hours * 2.5 || v == 100.0
  {
    Min(hours * 2.5, 100.0)
  }

  /** A score out of `max` as a percentage; nothing caps it. */
  function Scaled(score: real, max: real): (v: real)
    requires max > 0.0
    ensures v * max == score * 100.0
    ensures v == 100.0 <==> score == max
    ensures 0.0 <= score <= max ==> 0.0 <= v <= 100.0
  {
    score / max * 100.0
  }

  /** The seven radar values: each internal out of 20, the assignment out
      of 10 and the activities out of 5 as percentages, attendance as it
      is, and study hours scaled and capped. */
  function RadarValues(info: StudentInfo): (values: seq<real>)
    ensures |values| == |RadarAxes| == 7
    ensures values[5] == info.attendancePercentage as real
    ensures values[6] <= 100.0
    ensures WithinUiBounds(info) ==> forall k :: 0 <= k < |values| ==> 0.0 <= values[k] <= 100.0
  {
    [ Scaled(info.internal1, MaxInternal),
      Scaled(info.internal2, MaxInternal),
      Scaled(info.internal3, MaxInternal),
      Scaled(info.assignmentMarks, MaxAssignment),
      Scaled(info.otherActivities, MaxActivities),
      info.attendancePercentage as real,
      StudyHoursValue(info.studyHoursPerWeek) ]
  }

  /** Full marks on an axis draw at 100; 10 study hours draw at 25 and 50
      study hours are capped at 100. */
  lemma RadarReferencePoints(info: StudentInfo)
    ensures info.internal1 == 20.0 ==> RadarValues(info)[0] == 100.0
    ensures info.assignmentMarks == 10.0 ==> RadarValues(info)[3] == 100.0
    ensures info.otherActivities == 5.0 ==> RadarValues(info)[4] == 100.0
    ensures info.studyHoursPerWeek == 10.0 ==> RadarValues(info)[6] == 25.0
    ensures info.studyHoursPerWeek == 50.0 ==> RadarValues(info)[6] == 100.0
  {
  }

  /** Within the form's bounds the study-hours cap never takes effect,
      since 40 hours scale to exactly 100; outside them only the study-hours
      axis is capped, and a score above its maximum draws above 100. */
  lemma RadarCapOnlyOnStudyHours(info: StudentInfo)
    ensures WithinUiBounds(info) ==> RadarValues(info)[6] == info.studyHoursPerWeek * 2.5
    ensures info.internal1 > MaxInternal ==> RadarValues(info)[0] > 100.0
    ensures info.studyHoursPerWeek > MaxStudyHours ==> RadarValues(info)[6] == 100.0
  {
  }

  /** The radar and the classifier's row carry the same inputs: the first
      five axes are the row's first five columns rescaled to 100, the
      attendance axis is the attendance column, and the study-hours axis is
      the capped study-hours column. */
  lemma RadarAgreesWithFeatureRow(info: StudentInfo, encoders: Features.Encoders)
    ensures var row := Features.FeatureRow(info, encoders);
      var values := RadarValues(info);
      && values[0] == row[0] * 5.0 && values[1] == row[1] * 5.0 && values[2] == row[2] * 5.0
      && values[3] == row[3] * 10.0 && values[4] == row[4] * 20.0
      && values[5] == row[10] && values[6] == Min(row[11] * 2.5, 100.0)
  {
  }
}
