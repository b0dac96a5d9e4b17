/**
 * The enumerations and records the services consume (lib/types/database.ts),
 * reduced to the fields the modelled code reads, plus the Option and Result
 * wrappers used for optional fields and thrown errors.
 */
module Records {

  datatype Option<T> = None | Some(value: T)
  {
    /**
     * `x ?? d` on an optional value: the value when present, else `d`. It
     * is also `x || d` when `d` is "" or 0, since a present "" or 0 then
     * gives `d` either way.
     */
    function GetOr(d: T): T
    {
      match this
      case Some(v) => v
      case None => d
    }
  }

  /** A value, or the message of the `Error` the source throws. */
  datatype Result<T> = Ok(value: T) | Err(message: string)

  datatype UserRole = ADMIN | TEACHER | STUDENT
  datatype Gender = MALE | FEMALE
  datatype ClassLevel = IBTIDAIYAH | TSANAWIYAH | ALIYAH
  datatype Semester = GANJIL | GENAP
  datatype Grade = A | B | C | D | E
  datatype AttendanceStatus = PRESENT | ABSENT | SICK | PERMISSION

  /** The string stored in the database for each enumeration value. */
  function SemesterCode(s: Semester): string
  {
    match s
    case GANJIL => "GANJIL"
    case GENAP => "GENAP"
  }

  function LevelCode(l: ClassLevel): string
  {
    match l
    case IBTIDAIYAH => "IBTIDAIYAH"
    case TSANAWIYAH => "TSANAWIYAH"
    case ALIYAH => "ALIYAH"
  }

  function GradeCode(g: Grade): string
  {
    match g
    case A => "A"
    case B => "B"
    case C => "C"
    case D => "D"
    case E => "E"
  }

  function StatusCode(s: AttendanceStatus): string
  {
    match s
    case PRESENT => "PRESENT"
    case ABSENT => "ABSENT"
    case SICK => "SICK"
    case PERMISSION => "PERMISSION"
  }

  /** A student; `phone` is the one optional field. */
  datatype Student = Student(
    student_id: string,
    full_name: string,
    gender: Gender,
    birth_date: string,
    birth_place: string,
    address: string,
    phone: Option<string>,
    parent_name: string,
    parent_phone: string,
    enrollment_date: string,
    is_active: bool)

  datatype Teacher = Teacher(
    teacher_id: string,
    full_name: string,
    gender: Gender,
    birth_date: string,
    birth_place: string,
    address: string,
    phone: string,
    email: string,
    hire_date: string,
    is_active: bool)

  /**
   * A grade row with the names of its joined relations (student, subject,
   * teacher), each absent when the relation is missing. `grade` is the
   * stored letter code, "" when the row carries none.
   */
  datatype GradeRecord = GradeRecord(
    student_name: Option<string>,
    subject_name: Option<string>,
    teacher_name: Option<string>,
    academic_year: string,
    semester: Semester,
    assignment_score: real,
    midterm_score: real,
    final_score: real,
    total_score: real,
    grade: string)

  /** An attendance row; `status` is the stored status code. */
  datatype Attendance = Attendance(
    date: string,
    status: string,
    notes: Option<string>,
    subject_name: Option<string>)

  datatype Schedule = Schedule(
    day_of_week: int,
    start_time: string,
    end_time: string,
    subject_name: Option<string>,
    class_name: Option<string>)

  /** A class; `level` is the stored level code. */
  datatype ClassInfo = ClassInfo(
    name: string,
    level: string,
    academic_year: string,
    homeroom_teacher_name: Option<string>,
    max_students: int)
}
