/** The student record the dashboard collects in its sidebar form and hands to
    feature preparation, the radar chart and the recommendation engine. */
module StudentRecord {

  datatype Option<+T> = None | Some(value: T)

  /** One student's inputs. Marks and study hours are real numbers, the
      attendance slider yields a whole number, the part-time-job selector
      yields 0 or 1. `disability` is optional because the preparation step
      reads that key with a default. */
  datatype StudentInfo = StudentInfo(
    internal1: real,
    internal2: real,
    internal3: real,
    assignmentMarks: real,
    otherActivities: real,
    gender: string,
    residence: string,
    disability: Option<string>,
    attendancePercentage: int,
    studyHoursPerWeek: real,
    partTimeJob: int)

  /** The keys of the student's dictionary: the eleven the form fills in,
      then the six that feature preparation adds. */
  datatype Key =
    | Internal1 | Internal2 | Internal3 | AssignmentMarks | OtherActivities
    | Gender | Residence | Disability
    | AttendancePercentage | StudyHoursPerWeek | PartTimeJob
    | GenderEncoded | ResidenceEncoded | DisabilityEncoded
    | TotalInternalMarks | TotalMarks | PerformanceGradePercentage
  {
    /** Whether the key holds a number rather than a category. */
    predicate IsNumeric()
    {
      !Gender? && !Residence? && !Disability?
    }

    /** The key as the dashboard spells it. */
    function Name(): string
    {
      match this
      case Internal1 => "Internal_1"
      case Internal2 => "Internal_2"
      case Internal3 => "Internal_3"
      case AssignmentMarks => "Assignment_Marks"
      case OtherActivities => "Other_Activities"
      case Gender => "Gender"
      case Residence => "Residence"
      case Disability => "Disability"
      case AttendancePercentage => "Attendance_Percentage"
      case StudyHoursPerWeek => "Study_Hours_Per_Week"
      case PartTimeJob => "Part_Time_Job"
      case GenderEncoded => "Gender_Encoded"
      case ResidenceEncoded => "Residence_Encoded"
      case DisabilityEncoded => "Disability_Encoded"
      case TotalInternalMarks => "Total_Internal_Marks"
      case TotalMarks => "Total_Marks"
      case PerformanceGradePercentage => "Performance_Grade_Percentage"
    }
  }

  /** A key whose value is a number. */
  type NumericKey = k: Key | k.IsNumeric() witness Internal1

  /** A value stored in the student's dictionary: a number or a category. */
  datatype Value = Num(num: real) | Text(text: string)

  // Upper bounds the input widgets enforce.
  const MaxInternal: real := 20.0
  const MaxAssignment: real := 10.0
  const MaxActivities: real := 5.0
  const MaxAttendance: int := 100
  const MaxStudyHours: real := 40.0

  /** The ranges the sidebar widgets allow for every numeric input. */
  predicate WithinUiBounds(info: StudentInfo)
    ensures WithinUiBounds(info) ==>
      0.0 <= info.internal1 + info.internal2 + info.internal3 + info.assignmentMarks + info.otherActivities <= 75.0
  {
    && 0.0 <= info.internal1 <= MaxInternal
    && 0.0 <= info.internal2 <= MaxInternal
    && 0.0 <= info.internal3 <= MaxInternal
    && 0.0 <= info.assignmentMarks <= MaxAssignment
    && 0.0 <= info.otherActivities <= MaxActivities
    && 0 <= info.attendancePercentage <= MaxAttendance
    && 0.0 <= info.studyHoursPerWeek <= MaxStudyHours
    && (info.partTimeJob == 0 || info.partTimeJob == 1)
  }

  /** Every key the form puts in the student's dictionary. */
  const InputKeys: set<Key> := {
    Internal1, Internal2, Internal3, AssignmentMarks, OtherActivities,
    Gender, Residence, Disability, AttendancePercentage, StudyHoursPerWeek, PartTimeJob
  }

  /** What the form stores under key `k`, if anything: every input key
      except Disability always holds a value; the derived keys hold none. */
  function Entry(info: StudentInfo, k: Key): Option<Value>
  {
    match k
    case Internal1 => Some(Num(info.internal1))
    case Internal2 => Some(Num(info.internal2))
    case Internal3 => Some(Num(info.internal3))
    case AssignmentMarks => Some(Num(info.assignmentMarks))
    case OtherActivities => Some(Num(info.otherActivities))
    case Gender => Some(Text(info.gender))
    case Residence => Some(Text(info.residence))
    case Disability => if info.disability.Some? then Some(Text(info.disability.value)) else None
    case AttendancePercentage => Some(Num(info.attendancePercentage as real))
    case StudyHoursPerWeek => Some(Num(info.studyHoursPerWeek))
    case PartTimeJob => Some(Num(info.partTimeJob as real))
    case _ => None
  }

  /** The student's dictionary as the form builds it; the Disability key is
      present only when a value was given. */
  function Record(info: StudentInfo): (d: map<Key, Value>)
    ensures d.Keys == if info.disability.Some? then InputKeys else InputKeys - {Disability}
    ensures forall k :: k in d ==> Entry(info, k) == Some(d[k])
  {
    map k | k in InputKeys && Entry(info, k).Some? :: Entry(info, k).value
  }
}
