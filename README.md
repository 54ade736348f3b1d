# Student performance dashboard — verified model of its core

The dashboard collects one student's marks, attendance, study habits and
background in a form. It turns them into a row of thirteen numbers for a
pre-trained grade classifier. From the predicted grade it shows:

- a badge coloured by that grade;
- a radar chart of the student's inputs, each on a 0-100 scale;
- three groups of recommendation cards: cards chosen by grade, one warning
  per weak internal exam, and two generic strategies.

This project models the deterministic logic around the classifier:

- `student.dfy` (module `StudentRecord`): the student's inputs as a record
  `StudentInfo` and the dictionary view `Record` the form builds from them.
  Dictionary keys are the enumeration `Key`, whose `Name()` gives the
  dashboard's spelling of each key. The file also holds the ranges the form
  widgets enforce (`WithinUiBounds`).
- `features.dfy` (module `Features`): feature preparation. It covers the
  safe categorical encoding with 0 as the fallback and the derived totals
  and percentage. `DeriveStudentData` builds the extended copy of the
  dictionary and is proved against `Record` and `FeatureValue`: the copy
  keeps the form's entries and holds the feature value under every numeric
  key. `SelectColumns` reads any list of numeric columns out of a
  dictionary, in order, and is proved against that dictionary.
  `PrepareStudentData` applies it to the thirteen feature columns of the
  extended copy and is proved equal to `FeatureRow`, the specification
  function for the classifier row.
- `recommendations.dfy` (module `Recommendations`): the grade table, the
  loop that adds a warning for each internal scored below 10, and the fixed
  strategies. `GenerateDetailedRecommendations` is a method proved against
  `GradeSpecific` and `WeaknessCards`.
- `radar.dfy` (module `Radar`): the seven radar values and how they relate
  to the classifier row.
- `grade_badge.dfy` (module `GradeBadge`): the badge colour lookup, with
  "gray" as the default.

Modelling choices:

- Numbers are exact reals. The attendance slider and the part-time-job
  selector give integers.
- A fitted label encoder is a partial map from category to code. A category
  outside the map is one the encoder never saw. For such a category the
  encoder's `transform` raises ValueError, `safe_encode` catches it and
  returns 0 (app.py:24-27); `SafeEncode` returns 0 directly.
- `FittedEncoder` codes each class by its position in a list of distinct
  classes. It is used only to show that the fallback code 0 collides with
  the first class.
- The form always supplies every key, so the record is a typed value. The
  one key that preparation reads with a default, Disability, is an `Option`.
- Records are values, so the original's copy of the input dictionary can
  never write through to the caller's record. `DeriveStudentData` states
  that the copy keeps every entry of the form's dictionary and adds exactly
  the six derived keys.

## Model

| member | source | states |
|---|---|---|
| StudentRecord.WithinUiBounds | app.py:177-190 | the ranges the widgets allow: internals in [0, 20], assignment in [0, 10], activities in [0, 5], attendance in [0, 100], study hours in [0, 40], part-time job 0 or 1; within them the five marks sum to at most 75 |
| StudentRecord.Record | app.py:197-209 | the form's dictionary holds the eleven input keys (Disability only when given), each with the form's value |
| Features.SafeEncode | app.py:23-27 | a category the encoder has seen gets the encoder's code; an unseen one gets 0 instead of an error |
| Features.FittedEncoder | app.py:25 | a fitted encoder codes each of its distinct classes by position and knows no other category |
| Features.FallbackCollidesWithFirstClass | app.py:23-27 | with a fitted encoder every code is a valid class index, and an unseen category is indistinguishable from the first class |
| Features.DisabilityOrDefault | app.py:34 | a missing Disability is read as "None"; a given one is read as given |
| Features.InternalMarksTotal | app.py:42 | the internal total lies in [0, 60] within the form's bounds |
| Features.MarksTotal | app.py:43 | the total marks exceed the internal total by exactly assignment plus activities, and lie in [0, 75] within the form's bounds |
| Features.GradePercentage | app.py:47 | the percentage is the total marks as a share of 75, scaled to 100 |
| Features.GradePercentageBounds | app.py:36-47 | the percentage lies in [0, 100] within the form's bounds; it is 100 exactly at full marks and 0 exactly at zero marks |
| Features.FeatureRow | app.py:49-59 | the row has 13 entries; the internal-total column is the sum of the three internals, and the total column adds assignment and activities to it |
| Features.DeriveStudentData | app.py:29-47 | the extended copy keeps every entry of the form's dictionary, adds exactly the three codes and three derived values, and holds the feature value under every numeric key |
| Features.InputFeatureValue | app.py:29 | under each numeric input key the copied dictionary holds that input's number |
| Features.ExtensionOfCopy | app.py:29-47 | adding the six derived values to the copy keeps the copy's entries and leaves the right number under every numeric key |
| Features.ExtensionKeepsCopy | app.py:32-47 | the six additions never overwrite an input key, and they add exactly the derived keys |
| Features.SelectColumns | app.py:59 | the selected row has one entry per requested column, in column order, each the dictionary's number under that column |
| Features.PrepareStudentData | app.py:21-59 | the prepared row is exactly FeatureRow, and the dictionary it was read from is the extended copy described for DeriveStudentData |
| Features.FeatureRowInColumnOrder | app.py:50-57 | the row is the internals, assignment, activities, the two totals, the three codes, attendance, study hours and part-time job, in that order |
| Features.FeatureColumnNames | app.py:50-57 | the thirteen columns, spelled as the dashboard spells them, are exactly the classifier's feature list in order |
| Features.FeatureColumnsComeFromRecord | app.py:47-57 | the percentage is computed but is not a column; every column is an input or a derived key; no column repeats |
| Features.CategoricalColumns | app.py:32-34 | the gender and residence columns hold the code or 0; a record without Disability gives the same row as one saying "None" |
| Features.ExampleTotals | app.py:42-47 | internals 18, 15, 19 with assignment 9 and activities 4 give totals 52 and 65 and a percentage of 260/3 |
| Recommendations.Internals | app.py:96-100 | three exams in order, named Internal_1 to Internal_3, each scored with the form's value for that key |
| Recommendations.WeaknessCard | app.py:104-109 | a red "Weakness" card with the magnifier icon whose message ends with the exam's name, so the name can be read back from it |
| Recommendations.GradeSpecific | app.py:70-93 | A+, A, B, C and D get their two table cards; any other grade, "F" included, gets none |
| Recommendations.WeaknessCards | app.py:102-109 | there are at most as many warnings as exams, and every warning is a red "Weakness" card |
| Recommendations.GenerateDetailedRecommendations | app.py:61-117 | the grade group is the grade's table entry, the internal group is the warnings for the three internals in exam order, and the strategy group is always the same two cards |
| Recommendations.WeaknessCardsExactly | app.py:102-109 | a warning naming an exam is present if and only if the list holds that exam with a score below 10 |
| Recommendations.InternalAnalysisByExam | app.py:96-109 | the internal group is, in exam order, one warning for each internal below 10 and none for a score of 10 or more |
| Recommendations.InternalWarningIffBelowThreshold | app.py:96-109 | each internal's warning is present exactly when that internal is below 10, and there are at most three warnings |
| Recommendations.GradeTableExamples | app.py:70-93 | "F" gets no grade cards; "A+" gets two, the first urging advanced challenges |
| Radar.Min | app.py:134 | the result is one of the two arguments and no larger than either |
| Radar.Scaled | app.py:128-132 | a score out of its maximum becomes a percentage: 100 exactly at the maximum, in [0, 100] for a score within [0, maximum], and uncapped above it |
| Radar.StudyHoursValue | app.py:134 | the study-hours value is hours times 2.5 capped at 100 |
| Radar.RadarValues | app.py:127-135 | there are seven values; attendance is drawn as given; study hours never exceed 100; within the form's bounds every value lies in [0, 100] |
| Radar.RadarReferencePoints | app.py:127-135 | a full score of 20, 10 or 5 draws at 100; 10 study hours draw at 25 and 50 are capped at 100 |
| Radar.RadarCapOnlyOnStudyHours | app.py:127-135 | within the form's bounds the cap never takes effect; outside them only study hours are capped, and an internal above 20 draws above 100 |
| Radar.RadarAgreesWithFeatureRow | app.py:127-135 | the radar values are the classifier row's internals times 5, assignment times 10, activities times 20, attendance, and capped study hours |
| GradeBadge.GradeColor | app.py:226-232 | a grade gets a colour other than "gray" if and only if it is one of the six known grades, and then gets its table colour |
| GradeBadge.BadgeCoversRecommendationTable | app.py:226-232 | every grade with cards has a badge colour; "F" alone has a colour (dark red) but no cards |

## Left out

- Loading the trained model and encoders from disk, and the error message
  when the files are missing (app.py:11-19): this is file I/O. The encoders
  are a parameter instead.
- The classifier's prediction (app.py:214) is external code. The predicted
  grade is a parameter of the recommendation and badge functions.
- When loading fails, the dashboard still calls preparation and prediction
  on a missing model (app.py:212-214). This path is part of the interface
  glue and is not modelled.
- The form, page layout, HTML badge markup, radar figure styling and card
  rendering (app.py:119-262 outside the value computations): these are
  display code.
- The table built from the prepared dictionary is modelled as the row of
  numbers it holds. SelectColumns requires every selected column to hold a
  number, which the thirteen feature columns always do.
- Floating-point rounding: all arithmetic is exact, so 65 / 75 * 100 is
  exactly 260/3.
- Dictionary lookups of a missing key raise errors in the original. The
  typed record always has every key, so these paths cannot arise. The same
  holds for a missing encoder entry.
- Recommendations.WeaknessCards: its own contract states only length and card
  kind. Which exams get warnings is proved in WeaknessCardsExactly and
  InternalAnalysisByExam.
