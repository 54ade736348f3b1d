/** Feature preparation: turns a student record into the fixed-order row of
    thirteen numbers the external grade classifier consumes. */
module Features {
  import opened StudentRecord

  /** A fitted categorical encoder, seen as a partial map from category to
      code; a category outside its domain is one the encoder never saw. */
  type Encoder = map<string, int>

  /** The three fitted encoders, one per categorical field. */
  datatype Encoders = Encoders(gender: Encoder, residence: Encoder, disability: Encoder)

  /** The encoder's code for `value`, or 0 when the encoder has not seen it. */
  function SafeEncode(encoder: Encoder, value: string): (code: int)
    ensures value in encoder ==> code == encoder[value]
    ensures value !in encoder ==> code == 0
  {
    if value in encoder then encoder[value] else 0
  }

  /** An encoder fitted on `classes`: each class is coded by its position. */
  function FittedEncoder(classes: seq<string>): (encoder: Encoder)
    requires forall i, j :: 0 <= i < j < |classes| ==> classes[i] != classes[j]
    ensures forall i :: 0 <= i < |classes| ==> classes[i] in encoder && encoder[classes[i]] == i
    ensures forall v :: v in encoder ==> v in classes
  {
    map i | 0 <= i < |classes| :: classes[i] := i
  }

  /** The Disability category, defaulting to "None" when the record lacks it. */
  function DisabilityOrDefault(info: StudentInfo): (d: string)
    ensures info.disability.Some? ==> d == info.disability.value
    ensures info.disability.None? ==> d == "None"
  {
    match info.disability
    case Some(d) => d
    case None => "None"
  }

  /** The classifier's input columns, in the order it expects them. */
  const FeatureColumns: seq<NumericKey> := [
    Internal1, Internal2, Internal3,
    AssignmentMarks, OtherActivities,
    Key.TotalInternalMarks, Key.TotalMarks,
    GenderEncoded, ResidenceEncoded,
    DisabilityEncoded, AttendancePercentage,
    StudyHoursPerWeek, PartTimeJob
  ]

  /** The keys preparation adds to its copy of the student's dictionary. */
  const DerivedKeys: set<Key> := {
    GenderEncoded, ResidenceEncoded, DisabilityEncoded,
    Key.TotalInternalMarks, Key.TotalMarks, PerformanceGradePercentage
  }

  /** The maximum total: three internals of 20, an assignment of 10 and
      activities of 5. */
  const MaxTotalMarks: real := MaxInternal * 3.0 + MaxAssignment + MaxActivities

  function InternalMarksTotal(info: StudentInfo): (total: real)
    ensures WithinUiBounds(info) ==> 0.0 <= total <= MaxInternal * 3.0
  {
    info.internal1 + info.internal2 + info.internal3
  }

  function MarksTotal(info: StudentInfo): (total: real)
    ensures total - InternalMarksTotal(info) == info.assignmentMarks + info.otherActivities
    ensures WithinUiBounds(info) ==> 0.0 <= total <= MaxTotalMarks
  {
    InternalMarksTotal(info) + info.assignmentMarks + info.otherActivities
  }

  /** Total marks as a percentage of the maximum total of 75. */
  function GradePercentage(info: StudentInfo): (p: real)
    ensures p * 75.0 == MarksTotal(info) * 100.0
  {
    MarksTotal(info) / MaxTotalMarks * 100.0
  }

  /** Within the form's bounds the percentage lies in [0, 100]; it is 100
      exactly at full marks and 0 exactly at no marks. */
  lemma GradePercentageBounds(info: StudentInfo)
    ensures WithinUiBounds(info) ==> 0.0 <= GradePercentage(info) <= 100.0
    ensures MarksTotal(info) == MaxTotalMarks <==> GradePercentage(info) == 100.0
    ensures MarksTotal(info) == 0.0 <==> GradePercentage(info) == 0.0
  {
  }

  /** The number the prepared dictionary holds under a numeric key: the
      form's own value for an input key, the code or total for a derived
      key. */
  function FeatureValue(info: StudentInfo, encoders: Encoders, k: NumericKey): real
  {
    match k
    case Internal1 => info.internal1
    case Internal2 => info.internal2
    case Internal3 => info.internal3
    case AssignmentMarks => info.assignmentMarks
    case OtherActivities => info.otherActivities
    case AttendancePercentage => info.attendancePercentage as real
    case StudyHoursPerWeek => info.studyHoursPerWeek
    case PartTimeJob => info.partTimeJob as real
    case GenderEncoded => SafeEncode(encoders.gender, info.gender) as real
    case ResidenceEncoded => SafeEncode(encoders.residence, info.residence) as real
    case DisabilityEncoded => SafeEncode(encoders.disability, DisabilityOrDefault(info)) as real
    case TotalInternalMarks => InternalMarksTotal(info)
    case TotalMarks => MarksTotal(info)
    case PerformanceGradePercentage => GradePercentage(info)
  }

  /** The classifier's input row, entry i being column FeatureColumns[i]. */
  function FeatureRow(info: StudentInfo, encoders: Encoders): (row: seq<real>)
    ensures |row| == |FeatureColumns| == 13
    ensures row[5] == row[0] + row[1] + row[2]
    ensures row[6] == row[5] + row[3] + row[4]
  {
    seq(|FeatureColumns|, i requires 0 <= i < |FeatureColumns| =>
      FeatureValue(info, encoders, FeatureColumns[i]))
  }

  /** Copies the student's dictionary and adds the encoded categories and
      the derived totals to the copy. The copy keeps every entry of the
      form's dictionary and holds the feature value under every numeric key. */
  method DeriveStudentData(info: StudentInfo, encoders: Encoders) returns (data: map<Key, Value>)
    ensures data.Keys == Record(info).Keys + DerivedKeys
    ensures forall k :: k in Record(info) ==> data[k] == Record(info)[k]
    ensures forall k: NumericKey :: k in data && data[k] == Num(FeatureValue(info, encoders, k))
  {
    data := Record(info);

    var genderCode := SafeEncode(encoders.gender, info.gender) as real;
    var residenceCode := SafeEncode(encoders.residence, info.residence) as real;
    var disabilityCode := SafeEncode(encoders.disability, DisabilityOrDefault(info)) as real;
    data := data[GenderEncoded := Num(genderCode)];
    data := data[ResidenceEncoded := Num(residenceCode)];
    data := data[DisabilityEncoded := Num(disabilityCode)];

    var maxInternalMarks := 20.0 * 3.0;
    var maxAssignmentMarks := 10.0;
    var maxActivityMarks := 5.0;
    var maxTotalMarks := maxInternalMarks + maxAssignmentMarks + maxActivityMarks;

    var totalInternalMarks := info.internal1 + info.internal2 + info.internal3;
    var totalMarks := totalInternalMarks + info.assignmentMarks + info.otherActivities;
    var percentage := totalMarks / maxTotalMarks * 100.0;

    data := data[Key.TotalInternalMarks := Num(totalInternalMarks)];
    data := data[Key.TotalMarks := Num(totalMarks)];
    data := data[PerformanceGradePercentage := Num(percentage)];

    ExtensionOfCopy(info, encoders, genderCode, residenceCode, disabilityCode,
      totalInternalMarks, totalMarks, percentage);
  }

  /** The row of a one-row table built from `data`, restricted to `columns`
      in the given order. */
  method SelectColumns(data: map<Key, Value>, columns: seq<Key>) returns (row: seq<real>)
    requires forall k :: k in columns ==> k in data && data[k].Num?
    ensures |row| == |columns|
    ensures forall i :: 0 <= i < |columns| ==> data[columns[i]] == Num(row[i])
  {
    row := [];
    for i := 0 to |columns|
      invariant |row| == i
      invariant forall j :: 0 <= j < i ==> data[columns[j]] == Num(row[j])
    {
      row := row + [data[columns[i]].num];
    }
  }

  /** Prepares the classifier's input: the derived dictionary, then its
      feature columns in order. `studentData` is the derived dictionary. */
  method PrepareStudentData(info: StudentInfo, encoders: Encoders)
    returns (row: seq<real>, ghost studentData: map<Key, Value>)
    ensures row == FeatureRow(info, encoders)
    ensures studentData.Keys == Record(info).Keys + DerivedKeys
    ensures forall k :: k in Record(info) ==> studentData[k] == Record(info)[k]
    ensures forall k: NumericKey :: k in studentData && studentData[k] == Num(FeatureValue(info, encoders, k))
  {
    var data := DeriveStudentData(info, encoders);
    row := SelectColumns(data, FeatureColumns);
    studentData := data;
  }

  /** Under a numeric input key the form's dictionary holds the feature value. */
  lemma InputFeatureValue(info: StudentInfo, encoders: Encoders, k: NumericKey)
    requires k in InputKeys
    ensures Entry(info, k) == Some(Num(FeatureValue(info, encoders, k)))
  {
  }

  /** Adding the six derived values to a copy of the form's dictionary
      keeps every entry of the copy, adds exactly the derived keys, and
      leaves the feature value under every numeric key. */
  lemma ExtensionOfCopy(info: StudentInfo, encoders: Encoders,
                        g: real, r: real, d: real, ti: real, t: real, p: real)
    requires g == FeatureValue(info, encoders, GenderEncoded)
    requires r == FeatureValue(info, encoders, ResidenceEncoded)
    requires d == FeatureValue(info, encoders, DisabilityEncoded)
    requires ti == InternalMarksTotal(info) && t == MarksTotal(info) && p == GradePercentage(info)
    ensures var copy := Record(info);
      var data := copy[GenderEncoded := Num(g)][ResidenceEncoded := Num(r)][DisabilityEncoded := Num(d)]
                      [Key.TotalInternalMarks := Num(ti)][Key.TotalMarks := Num(t)]
                      [PerformanceGradePercentage := Num(p)];
      && data.Keys == copy.Keys + DerivedKeys
      && (forall k :: k in copy ==> data[k] == copy[k])
      && (forall k: NumericKey :: k in data && data[k] == Num(FeatureValue(info, encoders, k)))
  {
    var copy := Record(info);
    ExtensionKeepsCopy(copy, Num(g), Num(r), Num(d), Num(ti), Num(t), Num(p));
    var data := copy[GenderEncoded := Num(g)][ResidenceEncoded := Num(r)][DisabilityEncoded := Num(d)]
                    [Key.TotalInternalMarks := Num(ti)][Key.TotalMarks := Num(t)]
                    [PerformanceGradePercentage := Num(p)];
    forall k: NumericKey
      ensures k in data && data[k] == Num(FeatureValue(info, encoders, k))
    {
      if k in InputKeys {
        InputFeatureValue(info, encoders, k);
        assert data[k] == copy[k];
      }
    }
  }

  /** Adding the six derived keys to a copy of the form's dictionary keeps
      every entry of the copy and adds exactly those keys. */
  lemma ExtensionKeepsCopy(copy: map<Key, Value>, g: Value, r: Value, d: Value, ti: Value, t: Value, p: Value)
    requires copy.Keys <= InputKeys
    ensures var data := copy[GenderEncoded := g][ResidenceEncoded := r][DisabilityEncoded := d]
                            [Key.TotalInternalMarks := ti][Key.TotalMarks := t][PerformanceGradePercentage := p];
      && data.Keys == copy.Keys + DerivedKeys
      && forall k :: k in copy ==> data[k] == copy[k]
  {
    assert InputKeys !! DerivedKeys;
  }

  /** An encoder fitted on at least one class never yields a code outside
      its classes, and every unseen category gets the code of the first
      class. */
  lemma FallbackCollidesWithFirstClass(classes: seq<string>, value: string)
    requires forall i, j :: 0 <= i < j < |classes| ==> classes[i] != classes[j]
    requires |classes| > 0
    ensures 0 <= SafeEncode(FittedEncoder(classes), value) < |classes|
    ensures value !in classes ==>
      SafeEncode(FittedEncoder(classes), value) == SafeEncode(FittedEncoder(classes), classes[0])
  {
    var encoder := FittedEncoder(classes);
    if value in encoder {
      var i :| 0 <= i < |classes| && classes[i] == value;
      assert encoder[classes[i]] == i;
    }
  }

  /** The three encoded columns hold the encoder's code for a seen category
      and 0 for an unseen one; a record without Disability is encoded as if
      it said "None". */
  lemma CategoricalColumns(info: StudentInfo, encoders: Encoders)
    ensures FeatureRow(info, encoders)[7] ==
      if info.gender in encoders.gender then encoders.gender[info.gender] as real else 0.0
    ensures FeatureRow(info, encoders)[8] ==
      if info.residence in encoders.residence then encoders.residence[info.residence] as real else 0.0
    ensures info.disability.None? ==>
      FeatureRow(info, encoders) == FeatureRow(info.(disability := Some("None")), encoders)
  {
  }

  /** The percentage is stored in the extended copy but is not one of the
      classifier's columns, and every column is either an input key or a
      derived key. */
  lemma FeatureColumnsComeFromRecord(info: StudentInfo)
    ensures PerformanceGradePercentage !in FeatureColumns
    ensures forall k :: k in FeatureColumns ==> k in Record(info).Keys + DerivedKeys
    ensures forall i, j :: 0 <= i < j < |FeatureColumns| ==> FeatureColumns[i] != FeatureColumns[j]
  {
  }

  /** The row lists, in order: the three internals, the assignment and the
      activities, the two totals, the three category codes (a missing
      Disability encoded as "None"), attendance, study hours and the
      part-time-job flag. */
  lemma FeatureRowInColumnOrder(info: StudentInfo, encoders: Encoders)
    ensures FeatureRow(info, encoders) == [
      info.internal1, info.internal2, info.internal3,
      info.assignmentMarks, info.otherActivities,
      info.internal1 + info.internal2 + info.internal3,
      info.internal1 + info.internal2 + info.internal3 + info.assignmentMarks + info.otherActivities,
      SafeEncode(encoders.gender, info.gender) as real,
      SafeEncode(encoders.residence, info.residence) as real,
      SafeEncode(encoders.disability, DisabilityOrDefault(info)) as real,
      info.attendancePercentage as real, info.studyHoursPerWeek, info.partTimeJob as real]
  {
  }

  /** The column names, spelled as the dashboard spells them, are the
      classifier's feature list. */
  lemma FeatureColumnNames()
    ensures seq(|FeatureColumns|, i requires 0 <= i < |FeatureColumns| => FeatureColumns[i].Name()) == [
      "Internal_1", "Internal_2", "Internal_3",
      "Assignment_Marks", "Other_Activities",
      "Total_Internal_Marks", "Total_Marks",
      "Gender_Encoded", "Residence_Encoded",
      "Disability_Encoded", "Attendance_Percentage",
      "Study_Hours_Per_Week", "Part_Time_Job"]
  {
  }

  /** Internals 18, 15, 19, assignment 9 and activities 4 give totals of 52
      and 65, which is 260/3 percent of 75. */
  lemma ExampleTotals(encoders: Encoders)
    ensures var info := StudentInfo(18.0, 15.0, 19.0, 9.0, 4.0, "Male", "Urban", Some("None"), 90, 12.0, 0);
      var row := FeatureRow(info, encoders);
      row[5] == 52.0 && row[6] == 65.0 && row[..5] == [18.0, 15.0, 19.0, 9.0, 4.0]
      && row[10..] == [90.0, 12.0, 0.0]
      && GradePercentage(info) == 260.0 / 3.0
  {
  }
}
