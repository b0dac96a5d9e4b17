/**
 * The monthly attendance report route (app/api/reports/attendance/route.ts):
 * the date bounds of the month, the order of its guards, and the report
 * it answers with. The database is a pair of parameters: the student
 * lookup and the attendance query.
 */
module AttendanceReport {
  import opened Text
  import opened Records
  import Docx

  /** The text both bounds share: the academic year, "-", the padded month, "-". */
  function MonthPrefix(academicYear: string, month: string): (prefix: string)
    ensures |prefix| == |academicYear| + |PadStart2(month)| + 2
    ensures prefix[..|academicYear|] == academicYear && prefix[|academicYear|] == '-' && prefix[|prefix| - 1] == '-'
    ensures |month| >= 2 ==> prefix[|academicYear| + 1..|prefix| - 1] == month
    ensures prefix[|academicYear| + 1..|prefix| - 1] == PadStart2(month)
  {
    academicYear + "-" + PadStart2(month) + "-"
  }

  /** The first day of the month, `${academicYear}-${month.padStart(2, "0")}-01`. */
  function StartDate(academicYear: string, month: string): (date: string)
    ensures |date| == |MonthPrefix(academicYear, month)| + 2
    ensures date[..|date| - 2] == MonthPrefix(academicYear, month) && date[|date| - 2..] == "01"
  {
    MonthPrefix(academicYear, month) + "01"
  }

  /** The last bound, day 31 whatever the month's length. */
  function EndDate(academicYear: string, month: string): (date: string)
    ensures |date| == |MonthPrefix(academicYear, month)| + 2
    ensures date[..|date| - 2] == MonthPrefix(academicYear, month) && date[|date| - 2..] == "31"
  {
    MonthPrefix(academicYear, month) + "31"
  }

  /** The bounds differ only in their last two characters, and the start comes first. */
  lemma BoundsOrdered(academicYear: string, month: string)
    ensures var s := StartDate(academicYear, month); var e := EndDate(academicYear, month);
      |s| == |e| && s[..|s| - 2] == e[..|e| - 2] && LexLess(s, e)
  {
    var p := MonthPrefix(academicYear, month);
    var s, e := p + "01", p + "31";
    LexLessCommonPrefix(p, "01", "31");
    assert LexLess("01", "31");
    assert s[..|s| - 2] == p;
    assert e[..|e| - 2] == p;
  }

  /** A month already two or more characters long is inserted unchanged. */
  lemma LongMonthUnchanged(academicYear: string, month: string)
    requires |month| >= 2
    ensures StartDate(academicYear, month) == academicYear + "-" + month + "-01"
    ensures EndDate(academicYear, month) == academicYear + "-" + month + "-31"
  {
  }

  /** A one-character month gets a leading "0". */
  lemma ShortMonthPadded(academicYear: string, c: char)
    ensures StartDate(academicYear, [c]) == academicYear + "-0" + [c] + "-01"
  {
    assert PadStart2([c]) == "0" + [c];
  }

  /**
   * The range selects exactly the days "01" to "31" of the month: a date
   * with the month's prefix and a two-character day lies between the
   * bounds when the day does, as strings.
   */
  lemma DayWithinBounds(academicYear: string, month: string, day: string)
    requires |day| == 2
    ensures var date := MonthPrefix(academicYear, month) + day;
      (!LexLess(date, StartDate(academicYear, month)) && !LexLess(EndDate(academicYear, month), date))
      <==> (!LexLess(day, "01") && !LexLess("31", day))
  {
    var p := MonthPrefix(academicYear, month);
    LexLessCommonPrefix(p, day, "01");
    LexLessCommonPrefix(p, "31", day);
  }

  // ---------------------------------------------------------------------
  // The route

  datatype Response =
    | Unauthorized
    | NotFound
    | InternalServerError
    | Report(filename: string, context: Docx.AttendanceContext)

  /** The download name, `kehadiran-{full name}-{month}-{academic year}.docx`. */
  function ReportFilename(student: Student, month: string, academicYear: string): (name: string)
    ensures StartsWith(name, "kehadiran-" + student.full_name + "-")
    ensures EndsWith(name, "-" + academicYear + ".docx")
    ensures |name| == 11 + |student.full_name| + |month| + 1 + |academicYear| + 5
    ensures name[11 + |student.full_name|..11 + |student.full_name| + |month|] == month
  {
    "kehadiran-" + student.full_name + "-" + month + "-" + academicYear + ".docx"
  }

  /**
   * The POST handler. `signedIn` is whether a user is signed in; `student`
   * is the lookup's outcome (an error is thrown and answered with 500);
   * `query(studentId, start, end)` is the attendance query, None when it
   * returns no data.
   */
  method AttendanceReportRoute(signedIn: bool, studentId: string, academicYear: string, month: string,
                               student: Result<Student>,
                               query: (string, string, string) -> Option<seq<Attendance>>,
                               localeDate: string -> string, reportDate: string)
    returns (response: Response)
    ensures !signedIn ==> response == Unauthorized
    ensures signedIn && student.Err? ==> response == InternalServerError
    ensures signedIn && student.Ok? && query(studentId, StartDate(academicYear, month), EndDate(academicYear, month)).None?
      ==> response == NotFound
    ensures response.Report? <==>
      signedIn && student.Ok? && query(studentId, StartDate(academicYear, month), EndDate(academicYear, month)).Some?
    ensures response.Report? ==>
      var rows := query(studentId, StartDate(academicYear, month), EndDate(academicYear, month)).value;
      && response.filename == ReportFilename(student.value, month, academicYear)
      && response.context.total_days == |rows| == |response.context.attendance_records|
      && response.context.present_days == Docx.CountStatus(rows, "PRESENT")
      && response.context.absent_days == Docx.CountStatus(rows, "ABSENT")
      && response.context.sick_days == Docx.CountStatus(rows, "SICK")
      && response.context.permission_days == Docx.CountStatus(rows, "PERMISSION")
      && response.context.attendance_percentage == Docx.PresencePercentage(response.context.present_days, |rows|)
      && 0.0 <= response.context.attendance_percentage <= 100.0
      && (forall k :: 0 <= k < |rows| ==>
            response.context.attendance_records[k] == Docx.AttendanceLineOf(rows[k], localeDate))
      && response.context.month == month && response.context.academic_year == academicYear
      && response.context.student_name == student.value.full_name
      && response.context.student_id == student.value.student_id
      && response.context.report_date == reportDate
  {
    if !signedIn {
      return Unauthorized;
    }
    if student.Err? {
      return InternalServerError;
    }
    var startDate := StartDate(academicYear, month);
    var endDate := EndDate(academicYear, month);
    var attendance := query(studentId, startDate, endDate);
    if attendance.None? {
      return NotFound;
    }
    var context := Docx.AttendanceContextOf(student.value, attendance.value, academicYear, month, localeDate, reportDate);
    response := Report(ReportFilename(student.value, month, academicYear), context);
  }
}
