/**
 * The report generators (lib/services/docx.tsx): the statistics helpers and
 * the data contexts handed to the template renderer for the four reports.
 * The renderer itself, and the document it produces, are not modelled; a
 * report is modelled as the context it would be rendered from.
 */
module Docx {
  import opened Text
  import opened Records

  // ---------------------------------------------------------------------
  // Grade distribution

  datatype GradeDistribution = GradeDistribution(a: nat, b: nat, c: nat, d: nat, e: nat)

  /** The counter of one letter. */
  function Bucket(dist: GradeDistribution, g: Grade): nat
  {
    match g
    case A => dist.a
    case B => dist.b
    case C => dist.c
    case D => dist.d
    case E => dist.e
  }

  /** The letter a stored grade code names, if it names one; "" and any other text name none. */
  function GradeOfCode(code: string): (g: Option<Grade>)
    ensures forall l :: GradeCode(l) == code ==> g == Some(l)
    ensures g.Some? ==> GradeCode(g.value) == code
  {
    if code == "A" then Some(A)
    else if code == "B" then Some(B)
    else if code == "C" then Some(C)
    else if code == "D" then Some(D)
    else if code == "E" then Some(E)
    else None
  }

  /** The number of grade rows whose code is `code`. */
  function CountGrade(grades: seq<GradeRecord>, code: string): (n: nat)
    ensures n <= |grades|
  {
    if |grades| == 0 then 0
    else CountGrade(grades[..|grades| - 1], code) + (if grades[|grades| - 1].grade == code then 1 else 0)
  }

  /** The number of grade rows carrying one of the five letter codes. */
  function CountLettered(grades: seq<GradeRecord>): (n: nat)
    ensures n <= |grades|
  {
    if |grades| == 0 then 0
    else CountLettered(grades[..|grades| - 1]) + (if GradeOfCode(grades[|grades| - 1].grade).Some? then 1 else 0)
  }

  function Increment(dist: GradeDistribution, g: Grade): (r: GradeDistribution)
    ensures Bucket(r, g) == Bucket(dist, g) + 1
    ensures forall h :: h != g ==> Bucket(r, h) == Bucket(dist, h)
  {
    match g
    case A => dist.(a := dist.a + 1)
    case B => dist.(b := dist.b + 1)
    case C => dist.(c := dist.c + 1)
    case D => dist.(d := dist.d + 1)
    case E => dist.(e := dist.e + 1)
  }

  /** `calculateGradeDistribution`: bucket X counts the rows whose grade is X; other rows count nowhere. */
  method CalculateGradeDistribution(grades: seq<GradeRecord>) returns (dist: GradeDistribution)
    ensures forall g :: Bucket(dist, g) == CountGrade(grades, GradeCode(g))
  {
    dist := GradeDistribution(0, 0, 0, 0, 0);
    for k := 0 to |grades|
      invariant forall g :: Bucket(dist, g) == CountGrade(grades[..k], GradeCode(g))
    {
      assert grades[..k + 1][..k] == grades[..k];
      var letter := GradeOfCode(grades[k].grade);
      if letter.Some? {
        dist := Increment(dist, letter.value);
      }
    }
    assert grades[..|grades|] == grades;
  }

  /** The five buckets together count exactly the lettered rows, so never more than all rows. */
  lemma {:induction false} DistributionTotal(grades: seq<GradeRecord>)
    ensures CountGrade(grades, "A") + CountGrade(grades, "B") + CountGrade(grades, "C")
          + CountGrade(grades, "D") + CountGrade(grades, "E") == CountLettered(grades)
    ensures CountLettered(grades) <= |grades|
  {
    if |grades| > 0 {
      DistributionTotal(grades[..|grades| - 1]);
    }
  }

  /** When every row carries a letter, the buckets add up to the number of rows. */
  lemma {:induction false} AllLettered(grades: seq<GradeRecord>)
    requires forall k :: 0 <= k < |grades| ==> GradeOfCode(grades[k].grade).Some?
    ensures CountLettered(grades) == |grades|
  {
    if |grades| > 0 {
      AllLettered(grades[..|grades| - 1]);
    }
  }

  // ---------------------------------------------------------------------
  // Attendance statistics

  datatype AttendanceStats = AttendanceStats(present: nat, absent: nat, sick: nat, permission: nat, percentage: real)

  /** The number of attendance rows whose status code is `code`. */
  function CountStatus(records: seq<Attendance>, code: string): (n: nat)
    ensures n <= |records|
  {
    if |records| == 0 then 0
    else CountStatus(records[..|records| - 1], code) + (if records[|records| - 1].status == code then 1 else 0)
  }

  /** Whether a status code is one of the four known ones. */
  predicate KnownStatus(code: string)
  {
    code == "PRESENT" || code == "ABSENT" || code == "SICK" || code == "PERMISSION"
  }

  /** The number of rows whose status is one of the four known codes. */
  function CountKnownStatus(records: seq<Attendance>): (n: nat)
    ensures n <= |records|
  {
    if |records| == 0 then 0
    else CountKnownStatus(records[..|records| - 1]) + (if KnownStatus(records[|records| - 1].status) then 1 else 0)
  }

  /** Present days as a percentage of all rows; 0 when there are no rows. */
  function PresencePercentage(present: nat, total: nat): (percentage: real)
    ensures total == 0 ==> percentage == 0.0
    ensures total > 0 ==> percentage * total as real == present as real * 100.0
  {
    if total > 0 then present as real / total as real * 100.0 else 0.0
  }

  /** The percentage of a part of a total lies between 0 and 100. */
  lemma PercentageInRange(present: nat, total: nat)
    requires present <= total
    ensures 0.0 <= PresencePercentage(present, total) <= 100.0
  {
    if total > 0 {
      assert present as real / total as real <= 1.0 by {
        assert present as real <= total as real;
      }
    }
  }

  /**
   * `calculateAttendanceStats`: each row increments the counter of its
   * status (a row with an unknown status increments none), and the
   * percentage is present over all rows.
   */
  method CalculateAttendanceStats(records: seq<Attendance>) returns (stats: AttendanceStats)
    ensures stats.present == CountStatus(records, "PRESENT")
    ensures stats.absent == CountStatus(records, "ABSENT")
    ensures stats.sick == CountStatus(records, "SICK")
    ensures stats.permission == CountStatus(records, "PERMISSION")
    ensures stats.percentage == PresencePercentage(stats.present, |records|)
    ensures 0.0 <= stats.percentage <= 100.0
  {
    var present, absent, sick, permission := 0, 0, 0, 0;
    for k := 0 to |records|
      invariant present == CountStatus(records[..k], "PRESENT")
      invariant absent == CountStatus(records[..k], "ABSENT")
      invariant sick == CountStatus(records[..k], "SICK")
      invariant permission == CountStatus(records[..k], "PERMISSION")
    {
      assert records[..k + 1][..k] == records[..k];
      var status := records[k].status;
      if status == "PRESENT" {
        present := present + 1;
      } else if status == "ABSENT" {
        absent := absent + 1;
      } else if status == "SICK" {
        sick := sick + 1;
      } else if status == "PERMISSION" {
        permission := permission + 1;
      }
    }
    assert records[..|records|] == records;
    PercentageInRange(present, |records|);
    stats := AttendanceStats(present, absent, sick, permission, PresencePercentage(present, |records|));
  }

  /** The four counters together count the rows with a known status. */
  lemma {:induction false} StatusCountsTotal(records: seq<Attendance>)
    ensures CountStatus(records, "PRESENT") + CountStatus(records, "ABSENT")
          + CountStatus(records, "SICK") + CountStatus(records, "PERMISSION") == CountKnownStatus(records)
  {
    if |records| > 0 {
      StatusCountsTotal(records[..|records| - 1]);
    }
  }

  /** When every row has a known status, the four counters add up to the number of rows. */
  lemma {:induction false} AllStatusesKnown(records: seq<Attendance>)
    requires forall k :: 0 <= k < |records| ==> KnownStatus(records[k].status)
    ensures CountKnownStatus(records) == |records|
  {
    if |records| > 0 {
      AllStatusesKnown(records[..|records| - 1]);
    }
  }

  // ---------------------------------------------------------------------
  // Average score

  /** The sum of the total scores, as the `reduce` computes it. */
  function SumScores(grades: seq<GradeRecord>): real
  {
    if |grades| == 0 then 0.0
    else SumScores(grades[..|grades| - 1]) + grades[|grades| - 1].total_score
  }

  /** The average total score, 0 when there are no grades (the value before `toFixed(2)`). */
  function AverageScore(grades: seq<GradeRecord>): (average: real)
    ensures |grades| == 0 ==> average == 0.0
    ensures |grades| > 0 ==> average * |grades| as real == SumScores(grades)
  {
    if |grades| > 0 then SumScores(grades) / |grades| as real else 0.0
  }

  /** The sum of scores that all lie in [lo, hi] lies in [n*lo, n*hi]. */
  lemma {:induction false} SumScoresBounds(grades: seq<GradeRecord>, lo: real, hi: real)
    requires forall k :: 0 <= k < |grades| ==> lo <= grades[k].total_score <= hi
    ensures |grades| as real * lo <= SumScores(grades) <= |grades| as real * hi
  {
    if |grades| > 0 {
      SumScoresBounds(grades[..|grades| - 1], lo, hi);
    }
  }

  /** When every score lies in [lo, hi], so does the average. */
  lemma AverageBounds(grades: seq<GradeRecord>, lo: real, hi: real)
    requires |grades| > 0
    requires forall k :: 0 <= k < |grades| ==> lo <= grades[k].total_score <= hi
    ensures lo <= AverageScore(grades) <= hi
  {
    SumScoresBounds(grades, lo, hi);
    var n := |grades| as real;
    assert SumScores(grades) / n >= lo by {
      assert SumScores(grades) >= n * lo;
    }
    assert SumScores(grades) / n <= hi by {
      assert SumScores(grades) <= n * hi;
    }
  }

  // ---------------------------------------------------------------------
  // Schedules by day

  /** One entry of a day's list in the teacher schedule. */
  datatype ScheduleEntry = ScheduleEntry(subject_name: string, class_name: string, start_time: string, end_time: string)

  /** One entry of a day's list: a missing subject or class name is "". */
  function EntryOf(s: Schedule): (entry: ScheduleEntry)
    ensures entry.subject_name == (if s.subject_name.Some? then s.subject_name.value else "")
    ensures entry.class_name == (if s.class_name.Some? then s.class_name.value else "")
    ensures entry.start_time == s.start_time && entry.end_time == s.end_time
  {
    ScheduleEntry(s.subject_name.GetOr(""), s.class_name.GetOr(""), s.start_time, s.end_time)
  }

  /** The entries of the schedules held on `day`, in input order. */
  function EntriesForDay(schedules: seq<Schedule>, day: int): (entries: seq<ScheduleEntry>)
    ensures |entries| <= |schedules|
  {
    if |schedules| == 0 then []
    else
      var last := schedules[|schedules| - 1];
      EntriesForDay(schedules[..|schedules| - 1], day) + (if last.day_of_week == day then [EntryOf(last)] else [])
  }

  /** A schedule appended to a sequence adds its entry to its own day's list only. */
  lemma EntriesForDayAppend(schedules: seq<Schedule>, s: Schedule, day: int)
    ensures EntriesForDay(schedules + [s], day) ==
      EntriesForDay(schedules, day) + (if s.day_of_week == day then [EntryOf(s)] else [])
  {
    assert (schedules + [s])[..|schedules|] == schedules;
  }

  /** Whether some schedule is held on `day`. */
  predicate HasDay(schedules: seq<Schedule>, day: int)
  {
    exists k :: 0 <= k < |schedules| && schedules[k].day_of_week == day
  }

  /** A schedule appended to a sequence adds its own day to the days present. */
  lemma HasDayAppend(schedules: seq<Schedule>, s: Schedule, day: int)
    ensures HasDay(schedules + [s], day) <==> HasDay(schedules, day) || s.day_of_week == day
  {
    var all := schedules + [s];
    assert all[|schedules|] == s;
    if HasDay(schedules, day) {
      var j :| 0 <= j < |schedules| && schedules[j].day_of_week == day;
      assert all[j] == schedules[j];
    }
    if HasDay(all, day) {
      var j :| 0 <= j < |all| && all[j].day_of_week == day;
      if j < |schedules| {
        assert schedules[j] == all[j];
      }
    }
  }

  /**
   * `groupSchedulesByDay`: each schedule is appended to the list of its
   * day, so a day's list keeps input order, and exactly the days that occur
   * get a list.
   */
  method GroupSchedulesByDay(schedules: seq<Schedule>) returns (grouped: map<int, seq<ScheduleEntry>>)
    ensures forall day :: day in grouped <==> HasDay(schedules, day)
    ensures forall day :: day in grouped ==> grouped[day] == EntriesForDay(schedules, day)
  {
    grouped := map[];
    for k := 0 to |schedules|
      invariant forall day :: day in grouped <==> HasDay(schedules[..k], day)
      invariant forall day :: day in grouped ==> grouped[day] == EntriesForDay(schedules[..k], day)
      invariant forall day :: day !in grouped ==> EntriesForDay(schedules[..k], day) == []
    {
      var s := schedules[k];
      assert schedules[..k + 1] == schedules[..k] + [s];
      forall day
        ensures HasDay(schedules[..k + 1], day) <==> HasDay(schedules[..k], day) || s.day_of_week == day
        ensures EntriesForDay(schedules[..k + 1], day) ==
          EntriesForDay(schedules[..k], day) + (if s.day_of_week == day then [EntryOf(s)] else [])
      {
        HasDayAppend(schedules[..k], s, day);
        EntriesForDayAppend(schedules[..k], s, day);
      }
      var bucket := if s.day_of_week in grouped then grouped[s.day_of_week] else [];
      grouped := grouped[s.day_of_week := bucket + [EntryOf(s)]];
    }
    assert schedules[..|schedules|] == schedules;
  }

  /** The number of schedules held on one of the days 1 (Monday) to 7 (Sunday). */
  function CountInWeek(schedules: seq<Schedule>): (n: nat)
    ensures n <= |schedules|
  {
    if |schedules| == 0 then 0
    else
      var day := schedules[|schedules| - 1].day_of_week;
      CountInWeek(schedules[..|schedules| - 1]) + (if 1 <= day <= 7 then 1 else 0)
  }

  /** The seven day lists hold every schedule with a day in 1..7 once. */
  lemma {:induction false} WeekListsTotal(schedules: seq<Schedule>)
    ensures |EntriesForDay(schedules, 1)| + |EntriesForDay(schedules, 2)| + |EntriesForDay(schedules, 3)|
          + |EntriesForDay(schedules, 4)| + |EntriesForDay(schedules, 5)| + |EntriesForDay(schedules, 6)|
          + |EntriesForDay(schedules, 7)| == CountInWeek(schedules)
  {
    if |schedules| > 0 {
      WeekListsTotal(schedules[..|schedules| - 1]);
    }
  }

  /** When every day is in 1..7, the seven lists together hold all schedules. */
  lemma {:induction false} AllInWeek(schedules: seq<Schedule>)
    requires forall k :: 0 <= k < |schedules| ==> 1 <= schedules[k].day_of_week <= 7
    ensures CountInWeek(schedules) == |schedules|
  {
    if |schedules| > 0 {
      AllInWeek(schedules[..|schedules| - 1]);
    }
  }

  // ---------------------------------------------------------------------
  // Code-to-label lookups

  /** `getLevelName`: the three level codes get their names; any other code is returned unchanged. */
  function LevelName(level: string): (name: string)
    ensures level == LevelCode(IBTIDAIYAH) ==> name == "Ibtidaiyah"
    ensures level == LevelCode(TSANAWIYAH) ==> name == "Tsanawiyah"
    ensures level == LevelCode(ALIYAH) ==> name == "Aliyah"
    ensures level != LevelCode(IBTIDAIYAH) && level != LevelCode(TSANAWIYAH) && level != LevelCode(ALIYAH) ==> name == level
  {
    if level == "IBTIDAIYAH" then "Ibtidaiyah"
    else if level == "TSANAWIYAH" then "Tsanawiyah"
    else if level == "ALIYAH" then "Aliyah"
    else level
  }

  /** `getAttendanceStatusName`: the four status codes get Indonesian names; any other code is returned unchanged. */
  function StatusName(status: string): (name: string)
    ensures status == StatusCode(PRESENT) ==> name == "Hadir"
    ensures status == StatusCode(ABSENT) ==> name == "Tidak Hadir"
    ensures status == StatusCode(SICK) ==> name == "Sakit"
    ensures status == StatusCode(PERMISSION) ==> name == "Izin"
    ensures !KnownStatus(status) ==> name == status
  {
    if status == "PRESENT" then "Hadir"
    else if status == "ABSENT" then "Tidak Hadir"
    else if status == "SICK" then "Sakit"
    else if status == "PERMISSION" then "Izin"
    else status
  }

  /** Different known statuses get different names. */
  lemma StatusNamesDistinct(s: AttendanceStatus, t: AttendanceStatus)
    requires s != t
    ensures StatusName(StatusCode(s)) != StatusName(StatusCode(t))
  {
  }

  /** The report card's semester label: "Ganjil" for "GANJIL", "Genap" for anything else. */
  function SemesterLabel(semester: string): (label': string)
    ensures label' == "Ganjil" <==> semester == SemesterCode(GANJIL)
    ensures label' != "Ganjil" ==> label' == "Genap"
  {
    if semester == "GANJIL" then "Ganjil" else "Genap"
  }

  // ---------------------------------------------------------------------
  // Report contexts

  datatype GradeLine = GradeLine(
    subject_name: string, assignment_score: real, midterm_score: real,
    final_score: real, total_score: real, grade: string)

  /** One row of the report card's grade table: a missing subject is "". */
  function GradeLineOf(g: GradeRecord): (line: GradeLine)
    ensures line.subject_name == (if g.subject_name.Some? then g.subject_name.value else "")
    ensures line.assignment_score == g.assignment_score && line.midterm_score == g.midterm_score
    ensures line.final_score == g.final_score && line.total_score == g.total_score
    ensures line.grade == g.grade
  {
    GradeLine(g.subject_name.GetOr(""), g.assignment_score, g.midterm_score, g.final_score, g.total_score, g.grade)
  }

  datatype ReportCardContext = ReportCardContext(
    student_name: string, student_id: string, academic_year: string, semester: string,
    birth_date: string, birth_place: string, address: string, parent_name: string, parent_phone: string,
    grades: seq<GradeLine>, total_subjects: nat, average_score: real,
    grade_a: nat, grade_b: nat, grade_c: nat, grade_d: nat, grade_e: nat,
    report_date: string)

  /**
   * The context of `generateStudentReportCard`: one line per grade in
   * order, the subject count, the average, and the five letter counts.
   * `localeDate` stands for the id-ID date formatting and `reportDate` for
   * today's date.
   */
  method StudentReportCardContext(student: Student, grades: seq<GradeRecord>, academicYear: string,
                                  semester: string, localeDate: string -> string, reportDate: string)
    returns (ctx: ReportCardContext)
    ensures ctx.student_name == student.full_name && ctx.student_id == student.student_id
    ensures ctx.academic_year == academicYear && ctx.semester == SemesterLabel(semester)
    ensures ctx.birth_date == localeDate(student.birth_date) && ctx.report_date == reportDate
    ensures ctx.birth_place == student.birth_place && ctx.address == student.address
    ensures ctx.parent_name == student.parent_name && ctx.parent_phone == student.parent_phone
    ensures |ctx.grades| == ctx.total_subjects == |grades|
    ensures forall k :: 0 <= k < |grades| ==> ctx.grades[k] == GradeLineOf(grades[k])
    ensures ctx.average_score == AverageScore(grades)
    ensures ctx.grade_a == CountGrade(grades, "A") && ctx.grade_b == CountGrade(grades, "B")
    ensures ctx.grade_c == CountGrade(grades, "C") && ctx.grade_d == CountGrade(grades, "D")
    ensures ctx.grade_e == CountGrade(grades, "E")
    ensures ctx.grade_a + ctx.grade_b + ctx.grade_c + ctx.grade_d + ctx.grade_e <= ctx.total_subjects
  {
    var dist := CalculateGradeDistribution(grades);
    assert Bucket(dist, A) == CountGrade(grades, "A") && Bucket(dist, B) == CountGrade(grades, "B");
    assert Bucket(dist, C) == CountGrade(grades, "C") && Bucket(dist, D) == CountGrade(grades, "D");
    assert Bucket(dist, E) == CountGrade(grades, "E");
    DistributionTotal(grades);
    ctx := ReportCardContext(
      student.full_name, student.student_id, academicYear, SemesterLabel(semester),
      localeDate(student.birth_date), student.birth_place, student.address, student.parent_name, student.parent_phone,
      seq(|grades|, k requires 0 <= k < |grades| => GradeLineOf(grades[k])), |grades|, AverageScore(grades),
      dist.a, dist.b, dist.c, dist.d, dist.e, reportDate);
  }

  datatype RosterLine = RosterLine(
    no: nat, student_id: string, full_name: string, gender: string,
    birth_date: string, parent_name: string, parent_phone: string)

  datatype ClassListContext = ClassListContext(
    class_name: string, level: string, academic_year: string, homeroom_teacher: string,
    total_students: nat, max_students: int, students: seq<RosterLine>, report_date: string)

  /** The roster's gender letter: "L" for MALE, "P" otherwise. */
  function GenderLetter(g: Gender): (letter: string)
    ensures letter == "L" <==> g == MALE
    ensures letter != "L" ==> letter == "P"
  {
    if g == MALE then "L" else "P"
  }

  /** `text || "-"`: a missing or empty text is shown as "-". */
  function OrDash(text: Option<string>): (shown: string)
    ensures shown != ""
    ensures text.Some? && text.value != "" ==> shown == text.value
    ensures text.None? || text.value == "" ==> shown == "-"
  {
    if text.Some? && text.value != "" then text.value else "-"
  }

  /**
   * The context of `generateClassListReport`: the students numbered 1..N
   * in input order, with the level name and "-" for a missing or unnamed
   * homeroom teacher.
   */
  function ClassListContextOf(cls: ClassInfo, students: seq<Student>, localeDate: string -> string, reportDate: string)
    : (ctx: ClassListContext)
    ensures ctx.total_students == |ctx.students| == |students|
    ensures forall k :: 0 <= k < |students| ==>
      && ctx.students[k].no == k + 1
      && ctx.students[k].student_id == students[k].student_id
      && ctx.students[k].full_name == students[k].full_name
      && ctx.students[k].gender == GenderLetter(students[k].gender)
      && ctx.students[k].birth_date == localeDate(students[k].birth_date)
      && ctx.students[k].parent_name == students[k].parent_name
      && ctx.students[k].parent_phone == students[k].parent_phone
    ensures ctx.class_name == cls.name && ctx.academic_year == cls.academic_year
    ensures ctx.max_students == cls.max_students && ctx.report_date == reportDate
    ensures ctx.level == LevelName(cls.level)
    ensures ctx.homeroom_teacher ==
      (if cls.homeroom_teacher_name.Some? && cls.homeroom_teacher_name.value != "" then cls.homeroom_teacher_name.value else "-")
  {
    ClassListContext(
      cls.name, LevelName(cls.level), cls.academic_year, OrDash(cls.homeroom_teacher_name),
      |students|, cls.max_students,
      seq(|students|, k requires 0 <= k < |students| =>
        RosterLine(k + 1, students[k].student_id, students[k].full_name, GenderLetter(students[k].gender),
                   localeDate(students[k].birth_date), students[k].parent_name, students[k].parent_phone)),
      reportDate)
  }

  datatype AttendanceLine = AttendanceLine(date: string, subject: string, status: string, notes: string)

  datatype AttendanceContext = AttendanceContext(
    student_name: string, student_id: string, academic_year: string, month: string,
    total_days: nat, present_days: nat, absent_days: nat, sick_days: nat, permission_days: nat,
    attendance_percentage: real, attendance_records: seq<AttendanceLine>, report_date: string)

  /** One row of the attendance table: a missing subject is "", missing or empty notes are "-". */
  function AttendanceLineOf(r: Attendance, localeDate: string -> string): (line: AttendanceLine)
    ensures line.date == localeDate(r.date) && line.status == StatusName(r.status)
    ensures line.subject == (if r.subject_name.Some? then r.subject_name.value else "")
    ensures line.notes != ""
    ensures line.notes == (if r.notes.Some? && r.notes.value != "" then r.notes.value else "-")
  {
    AttendanceLine(localeDate(r.date), r.subject_name.GetOr(""), StatusName(r.status), OrDash(r.notes))
  }

  /**
   * The context of `generateAttendanceReport`: total days is the number of
   * rows, the four day counts and the percentage come from the statistics
   * helper, and each row becomes one line with its status name.
   */
  method AttendanceContextOf(student: Student, attendance: seq<Attendance>, academicYear: string, month: string,
                             localeDate: string -> string, reportDate: string)
    returns (ctx: AttendanceContext)
    ensures ctx.total_days == |attendance| == |ctx.attendance_records|
    ensures ctx.present_days == CountStatus(attendance, "PRESENT")
    ensures ctx.absent_days == CountStatus(attendance, "ABSENT")
    ensures ctx.sick_days == CountStatus(attendance, "SICK")
    ensures ctx.permission_days == CountStatus(attendance, "PERMISSION")
    ensures ctx.attendance_percentage == PresencePercentage(ctx.present_days, ctx.total_days)
    ensures 0.0 <= ctx.attendance_percentage <= 100.0
    ensures forall k :: 0 <= k < |attendance| ==> ctx.attendance_records[k] == AttendanceLineOf(attendance[k], localeDate)
    ensures ctx.month == month && ctx.academic_year == academicYear
    ensures ctx.student_name == student.full_name && ctx.student_id == student.student_id
    ensures ctx.report_date == reportDate
  {
    var stats := CalculateAttendanceStats(attendance);
    ctx := AttendanceContext(
      student.full_name, student.student_id, academicYear, month,
      |attendance|, stats.present, stats.absent, stats.sick, stats.permission, stats.percentage,
      seq(|attendance|, k requires 0 <= k < |attendance| => AttendanceLineOf(attendance[k], localeDate)),
      reportDate);
  }

  datatype ScheduleContext = ScheduleContext(
    teacher_name: string, teacher_id: string, email: string, phone: string,
    total_classes: nat, week: seq<seq<ScheduleEntry>>, report_date: string)

  /**
   * The context of `generateTeacherScheduleReport`: `week[d - 1]` is the
   * list of day d (1 = Monday .. 7 = Sunday), empty when the day has no
   * schedule; schedules on other days reach no list but are counted in
   * `total_classes`.
   */
  method TeacherScheduleContext(teacher: Teacher, schedules: seq<Schedule>, reportDate: string)
    returns (ctx: ScheduleContext)
    ensures ctx.total_classes == |schedules|
    ensures |ctx.week| == 7
    ensures forall d :: 1 <= d <= 7 ==> ctx.week[d - 1] == EntriesForDay(schedules, d)
    ensures ctx.teacher_name == teacher.full_name && ctx.teacher_id == teacher.teacher_id
    ensures ctx.email == teacher.email && ctx.phone == teacher.phone && ctx.report_date == reportDate
  {
    var grouped := GroupSchedulesByDay(schedules);
    var week: seq<seq<ScheduleEntry>> := [];
    for d := 1 to 8
      invariant |week| == d - 1
      invariant forall e :: 1 <= e < d ==> week[e - 1] == EntriesForDay(schedules, e)
    {
      var list := if d in grouped then grouped[d] else [];
      if d !in grouped {
        EntriesWithoutDay(schedules, d);
      }
      week := week + [list];
    }
    ctx := ScheduleContext(teacher.full_name, teacher.teacher_id, teacher.email, teacher.phone,
                           |schedules|, week, reportDate);
  }

  /** A day no schedule is held on has an empty list. */
  lemma {:induction false} EntriesWithoutDay(schedules: seq<Schedule>, day: int)
    requires !HasDay(schedules, day)
    ensures EntriesForDay(schedules, day) == []
  {
    if |schedules| > 0 {
      var init := schedules[..|schedules| - 1];
      assert !HasDay(init, day) by {
        forall k | 0 <= k < |init| ensures init[k].day_of_week != day {
          assert init[k] == schedules[k];
        }
      }
      EntriesWithoutDay(init, day);
    }
  }
}
