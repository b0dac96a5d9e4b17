# E-raport pesantren: verified model of the data transformations

This project is a Dafny model of the logic in the pesantren report-card
application that runs without a database or a user interface. Each source
file of that logic has its own module.

- **Excel** (`lib/services/excel.ts`). Three exports, the student, teacher
  and grade exports, write one worksheet row per record. The student import
  template is a worksheet too. The student import parser reads ten
  positional cells per row. It turns `D/M/YYYY` dates into `YYYY-MM-DD`,
  reads the gender label back to the enumeration, and keeps only rows whose
  required fields are all filled. A worksheet is a class whose rows the
  methods append. An uploaded workbook is a sequence of sheets of numbered
  rows of cell texts.
- **ImportStudents** (`app/api/import/students/route.ts`). The bulk import
  route sends every parsed candidate, in order, to the database insert. It
  counts successes and failures and writes one `Baris N: message` line per
  failure. N is the candidate's position in the parsed list plus 2. The
  insert is a parameter, the function `create`.
- **Docx** (`lib/services/docx.tsx`). This module covers the statistics
  behind the four DOCX reports. The grade-letter distribution, the
  attendance counts and presence percentage, and the grouping of schedules
  by weekday are methods with loops. The average score, the code-to-label
  lookups and the data context of each report are functions and methods
  over values.
- **FileUpload** (`lib/services/file-upload.ts`). This module holds the
  upload rules: the validation order (size, type, name), the stored file
  name and path, the icon for a MIME type, and the owner-or-admin rule for
  deletion.
- **AttendancePage** (`app/dashboard/attendance/page.tsx`). The page keeps
  a per-student attendance map. It encodes a chosen status as three 0/1
  counters and decodes them by priority. It computes the counters shown
  above the list, and empties the map when a filter changes. The page's
  state is a class.
- **Dashboard** (`app/dashboard/page.tsx`). This module covers the status
  label of a recent attendance row, the semester totals, and the four
  entity counters.
- **AttendanceReport** (`app/api/reports/attendance/route.ts`). This module
  covers the month's date bounds, the order of the route's guards, the
  download's file name, and the contents of the report built from the
  month's attendance rows.

Two modules support the others. `Text` models the JavaScript string
operations the sources use: `split`, `padStart(2, "0")`, `includes`,
`startsWith`, decimal numbers, and string `<`. `Records` holds the
enumerations and records of `lib/types/database.ts`.

Several inputs become parameters:

- Date formatting (`toLocaleDateString("id-ID")`) is a function parameter,
  `localeDate`.
- Today's date is a parameter.
- Database calls are parameters that stand for their outcomes.

## Model

| member | source | states |
|---|---|---|
| Text.Split | lib/services/excel.ts:245 | `split` on one character gives one piece more than there are separators, and no piece contains the separator |
| Text.JoinSplit | lib/services/excel.ts:245 | joining the pieces of a split with the same separator gives the original string back, so the pieces are exactly the text between separators |
| Text.PadStart2 | lib/services/excel.ts:247-248 | `padStart(2, "0")` keeps strings of length 2 or more. Shorter strings become exactly 2 long: zeros, then the original at the end |
| Text.ContainsAt | lib/services/file-upload.ts:143 | `includes` holds exactly when the substring occurs at some index |
| Excel.RowFromKeys | lib/services/excel.ts:35-47 | a row added by keys has one cell per column, holding the value under that column's key, or empty |
| Excel.Worksheet.constructor | lib/services/excel.ts:7-8 | a new worksheet has its name, no columns and no rows |
| Excel.Worksheet.HeaderRow | lib/services/excel.ts:11-23 | the header row lists the column headers in column order |
| Excel.Worksheet.SetColumns | lib/services/excel.ts:11-23 | setting the columns leaves the rows as they were |
| Excel.Worksheet.AddRow | lib/services/excel.ts:34-48 | adding a keyed row appends exactly that row, placed by the columns |
| Excel.Worksheet.AddValues | lib/services/excel.ts:181-187 | adding a positional row appends exactly that row |
| Excel.GenderLabel | lib/services/excel.ts:38 | the label is "Laki-laki" exactly for MALE, and "Perempuan" for FEMALE |
| Excel.ActiveLabel | lib/services/excel.ts:46 | the label is "Aktif" exactly for an active record, and "Tidak Aktif" otherwise |
| Excel.ParseGender | lib/services/excel.ts:212 | MALE exactly for the text "Laki-laki"; any other text, the empty one included, gives FEMALE |
| Excel.GenderRoundTrip | lib/services/excel.ts:212 | parsing the exported gender label gives the gender back |
| Excel.ParsePhone | lib/services/excel.ts:216 | an empty phone cell gives no phone; any other text is kept as it is |
| Excel.StudentExportRow | lib/services/excel.ts:35-47 | a student row has 11 text cells; with Excel.StudentExportRowCells every cell is stated in column order |
| Excel.StudentExportRowCells | lib/services/excel.ts:35-47 | the 11 cells are the id, name, gender label, formatted birth date, birth place, address, phone or "", parent name, parent phone, formatted enrollment date and "Aktif"/"Tidak Aktif", in that order |
| Excel.TeacherExportRow | lib/services/excel.ts:79-90 | a teacher row has 10 text cells in column order: id, name, gender label, formatted birth date, birth place, address, phone, email, formatted hire date and active label |
| Excel.GradeExportRow | lib/services/excel.ts:122-133 | a grade row has 10 cells; a missing student, subject or teacher name gives ""; academic year, semester code and grade are texts, and the four scores are numbers in column order |
| Excel.ExportStudents | lib/services/excel.ts:6-51 | the "Data Siswa" sheet has the 11 columns and exactly one row per student, in input order |
| Excel.ExportTeachers | lib/services/excel.ts:54-94 | the "Data Guru" sheet has the 10 columns and exactly one row per teacher, in input order |
| Excel.ExportGrades | lib/services/excel.ts:97-137 | the "Data Nilai" sheet has the 10 columns and exactly one row per grade, in input order |
| Excel.GenerateStudentTemplate | lib/services/excel.ts:140-192 | the template sheet has the 10 import columns and the one sample row; the "Petunjuk" sheet holds the instruction lines in order |
| Excel.CellText | lib/services/excel.ts:210 | cell i (counted from 1) is the i-th text, or "" past the end of the row |
| Excel.ParseDate | lib/services/excel.ts:242-256 | a date without exactly two "/" is returned unchanged; the result is empty exactly when the input is |
| Excel.ParseDateOfParts | lib/services/excel.ts:245-250 | `day/month/year` becomes `year-month-day`, with day and month zero-padded to 2 and the year unchanged |
| Excel.RowToStudent | lib/services/excel.ts:209-221 | cells 1-10 fill the student's fields in template order; the student is active; the phone is missing exactly when cell 7 is empty |
| Excel.AcceptedIffRequiredCells | lib/services/excel.ts:224-236 | a data row is kept exactly when its number is not 1 and the eight required cells (1, 2, 4, 5, 6, 8, 9, 10) are non-empty; the gender test always passes, since cell 3 always gives a gender |
| Excel.ParsedStudents | lib/services/excel.ts:206-237 | the parser keeps at most one student per row |
| Excel.ParseStudentImport | lib/services/excel.ts:195-240 | a workbook without sheets fails with "Worksheet tidak ditemukan"; otherwise the result is the students parsed from the first sheet |
| Excel.ParsedAppend | lib/services/excel.ts:206-237 | parsing two runs of rows is the concatenation of parsing each, so kept rows stay in sheet order |
| Excel.ParsedMembership | lib/services/excel.ts:206-236 | a student is in the result exactly when some row is kept and maps to it |
| Excel.ParsedAreActiveAndComplete | lib/services/excel.ts:220-236 | every parsed student is active and has all required fields |
| Excel.HeaderNeverEmitted | lib/services/excel.ts:207 | row 1 never produces a student |
| Excel.HeaderSkipped | lib/services/excel.ts:207 | a row numbered 1 in front of other rows leaves the result of those rows unchanged |
| Excel.ParsedAllAccepted | lib/services/excel.ts:224-235 | when every row is accepted, the result has one student per row, in order |
| Excel.TemplateColumnsMatchParser | lib/services/excel.ts:144-155 | template column i has the key of the field the parser fills from cell i |
| Excel.TemplateKeysMatchExport | lib/services/excel.ts:144-155 | the template's keys are the first ten keys of the student export's columns, in the same order |
| Excel.ParseIdDate | lib/services/excel.ts:245-250 | a D/M/YYYY date converts to the zero-padded YYYY-MM-DD date |
| Excel.ExportThenImport | lib/services/excel.ts:209-221 | re-importing an exported row of an active, complete student accepts it and gives back the same student (dates written as D/M/YYYY) |
| Excel.TemplateSampleIsAccepted | lib/services/excel.ts:166-177 | the template's sample row passes the import as student "S001", male, active, with its phone |
| ImportStudents.Tally | app/api/import/students/route.ts:27-42 | after n candidates, successes plus failures equals n and there is one error line per failure |
| ImportStudents.ProcessCandidates | app/api/import/students/route.ts:34-42 | the loop's results are the tally over all candidates in order: success plus failed is the candidate count, with one error line per failure |
| ImportStudents.ThrownMessage | app/api/import/students/route.ts:40 | an `Error` gives its message; any other thrown value gives "Unknown error" |
| ImportStudents.ErrorLine | app/api/import/students/route.ts:40 | an error line starts with "Baris ", the row number index + 2 and ": ", and is exactly as long as that start and the thrown message together |
| ImportStudents.ErrorLineCarriesMessage | app/api/import/students/route.ts:40 | an error line ends with ": " and the message of what was thrown |
| ImportStudents.SummaryMessage | app/api/import/students/route.ts:45 | the message starts with "Import selesai. " and the success count followed by " berhasil, ", and ends with the failure count followed by " gagal."; its length leaves nothing between the two |
| ImportStudents.ImportStudentsRoute | app/api/import/students/route.ts:6-52 | no user gives 401, then no file gives 400. An unreadable file or a workbook without sheets gives 500. Otherwise the response carries the tally of the parsed candidates and its summary message |
| ImportStudents.TallyExtends | app/api/import/students/route.ts:34-42 | the counters never decrease, and earlier error lines are kept as a prefix of the later ones |
| ImportStudents.FailureIsReported | app/api/import/students/route.ts:38-41 | a failed insert at position j leaves the line "Baris j+2: message" among the errors |
| ImportStudents.ReportedIsFailure | app/api/import/students/route.ts:38-41 | every error line comes from a failed insert at some position |
| ImportStudents.AllCreated | app/api/import/students/route.ts:35-37 | when every insert succeeds, all candidates count as successes and there are no errors |
| ImportStudents.ErrorLinesDistinct | app/api/import/students/route.ts:40 | error lines for different positions differ |
| Docx.GradeOfCode | lib/services/docx.tsx:164 | only the codes "A" to "E" name a distribution bucket |
| Docx.CalculateGradeDistribution | lib/services/docx.tsx:161-169 | bucket X equals the number of grades whose code is X |
| Docx.DistributionTotal | lib/services/docx.tsx:161-169 | the five buckets add up to the number of lettered grades, which is at most the number of grades |
| Docx.AllLettered | lib/services/docx.tsx:161-169 | when every grade has a letter, the buckets add up to the number of grades |
| Docx.CalculateAttendanceStats | lib/services/docx.tsx:171-191 | each counter is the number of rows with its status; the percentage is present over all rows times 100 (0 without rows) and lies in [0, 100] |
| Docx.PresencePercentage | lib/services/docx.tsx:189 | with no rows the percentage is 0; otherwise percentage times rows equals present times 100 |
| Docx.PercentageInRange | lib/services/docx.tsx:189 | a part of a total as a percentage lies in [0, 100] |
| Docx.StatusCountsTotal | lib/services/docx.tsx:172-188 | the four counters add up to the number of rows with a known status |
| Docx.AllStatusesKnown | lib/services/docx.tsx:172-188 | when every status is known, the four counters add up to the number of rows |
| Docx.SumScoresBounds | lib/services/docx.tsx:21 | n scores in [lo, hi] sum to between n·lo and n·hi |
| Docx.AverageScore | lib/services/docx.tsx:21-22 | with no grades the average is 0; otherwise average times the number of grades equals the sum of the total scores |
| Docx.AverageBounds | lib/services/docx.tsx:21-22 | the average of scores in [lo, hi] lies in [lo, hi] |
| Docx.EntriesForDay | lib/services/docx.tsx:193-206 | a day's list has no more entries than there are schedules |
| Docx.EntryOf | lib/services/docx.tsx:193-206 | an entry copies the start and end times and has the subject and class names, or "" where one is missing |
| Docx.GroupSchedulesByDay | lib/services/docx.tsx:193-206 | exactly the days that occur get a list; each list holds that day's schedules in input order |
| Docx.WeekListsTotal | lib/services/docx.tsx:145-152 | the seven day lists together hold every schedule whose day is in 1..7 |
| Docx.AllInWeek | lib/services/docx.tsx:145-152 | when all days are in 1..7, the seven lists together hold all schedules |
| Docx.EntriesWithoutDay | lib/services/docx.tsx:146-152 | a day without schedules has an empty list |
| Docx.LevelName | lib/services/docx.tsx:208-215 | the three level codes get their names; any other code is returned unchanged |
| Docx.StatusName | lib/services/docx.tsx:217-225 | the four status codes get Indonesian names; any other code is returned unchanged |
| Docx.StatusNamesDistinct | lib/services/docx.tsx:217-225 | different known statuses get different names |
| Docx.SemesterLabel | lib/services/docx.tsx:29 | "Ganjil" exactly for "GANJIL", "Genap" otherwise |
| Docx.GradeLineOf | lib/services/docx.tsx:35-42 | a grade line copies the four scores and the grade, and has the subject's name or "" when it is missing |
| Docx.StudentReportCardContext | lib/services/docx.tsx:20-51 | the student's name, id, birth place, address and parent fields are copied; the birth date is the formatted one; the year is the argument and the semester its label. There is one grade line per grade, in order; the subject count is the number of grades, the average is the average score, each letter count is the number of grades with that letter, and the letter counts sum to at most the subject count; the report date is today's |
| Docx.GenderLetter | lib/services/docx.tsx:77 | the roster letter is "L" exactly for MALE and "P" for every other gender |
| Docx.OrDash | lib/services/docx.tsx:70 | a missing or empty text is shown as "-", any other text as itself, so the result is never empty |
| Docx.ClassListContextOf | lib/services/docx.tsx:66-83 | the class name, year and capacity are copied and the level is its name; a missing or empty homeroom teacher name gives "-". The student count is the number of students. Rows are numbered 1..N in input order and keep the id, name, formatted birth date and parent fields, with the gender letter; the report date is today's |
| Docx.AttendanceLineOf | lib/services/docx.tsx:116-121 | a line has the formatted date, the subject or "", the status name, and the notes, with missing or empty notes shown as "-" |
| Docx.AttendanceContextOf | lib/services/docx.tsx:103-123 | the student's name and id, the year and the month are copied; total days is the number of rows; each day count is the number of rows with that status; the percentage is the presence percentage of the rows and lies in [0, 100]; row k becomes line k; the report date is today's |
| Docx.TeacherScheduleContext | lib/services/docx.tsx:138-154 | the teacher's name, id, email and phone are copied; the total counts every schedule; the seven lists for Monday to Sunday each hold that day's entries in input order, and are empty when a day has no schedule; the report date is today's |
| FileUpload.ValidateFile | lib/services/file-upload.ts:133-146 | a file passes exactly when it is at most 10 MiB, has an allowed type and a safe name; otherwise the first failing check, in the order size, type, name, gives the message |
| FileUpload.SizeMessageStatesLimit | lib/services/file-upload.ts:135 | the size message names the limit as 10 MB |
| FileUpload.SafeNameMeansNoTraversal | lib/services/file-upload.ts:143-145 | a name is safe exactly when no ".." occurs in it and it holds no "/" and no "\" |
| FileUpload.TypeMessage | lib/services/file-upload.ts:139 | the type message starts with "File type " and the rejected type, ends with " is not allowed", and has nothing between them |
| FileUpload.MessagesIdentifyCheck | lib/services/file-upload.ts:133-146 | the three messages differ, so the message tells which check failed |
| FileUpload.SizeBoundary | lib/services/file-upload.ts:134-136 | exactly 10 MiB passes the size check; one byte more fails it |
| FileUpload.Extension | lib/services/file-upload.ts:38 | the extension is the text after the last "." (the whole name when there is none) and contains no "." |
| FileUpload.StoredName | lib/services/file-upload.ts:39 | the stored name is the id, then ".", then the original name's extension |
| FileUpload.StoredPath | lib/services/file-upload.ts:40 | the path is "uploads/" followed by the stored name |
| FileUpload.StoredNameKeepsExtension | lib/services/file-upload.ts:38-39 | the stored name's extension is the original name's extension |
| FileUpload.FileIcon | lib/services/file-upload.ts:156-163 | the first matching rule decides, in the order image, pdf, word, excel/spreadsheet, text: each icon is given exactly when its rule is the first that matches, and the clip exactly when none matches |
| FileUpload.KeywordGivesIcon | lib/services/file-upload.ts:159-160 | a type containing "word", "excel" or "spreadsheet" never gets the clip |
| FileUpload.AllowedTypesHaveIcons | lib/services/file-upload.ts:19-31 | every allowed type gets an icon other than the clip |
| FileUpload.DeleteFile | lib/services/file-upload.ts:105-131 | a missing file fails with "File not found". A caller who is neither the uploader nor an admin fails with "Unauthorized to delete this file", and the delete is then never issued. A delete error is reported as "Database error: …" |
| FileUpload.MayDelete | lib/services/file-upload.ts:118 | the uploader and an admin may delete; anyone else who may delete is the uploader |
| FileUpload.OnlyOwnerOrAdminDeletes | lib/services/file-upload.ts:118-120 | the delete is issued only for the uploader or an admin |
| AttendancePage.StatusFromRecord | app/dashboard/attendance/page.tsx:153-159 | no entry is HADIR; otherwise sakit, then izin, then absen decide, by priority |
| AttendancePage.UpdatedRecord | app/dashboard/attendance/page.tsx:116-125 | the stored entry keeps only the previous id; the chosen status's counter is 1 and the others 0; the indicator, semester and year are the placeholders |
| AttendancePage.EncodeThenDecode | app/dashboard/attendance/page.tsx:120-122 | decoding the entry stored for a status gives that status back, for all four statuses |
| AttendancePage.DecodeThenEncode | app/dashboard/attendance/page.tsx:153-159 | storing the status an entry already shows leaves its counters and id as they were |
| AttendancePage.Values | app/dashboard/attendance/page.tsx:179 | the values are the entries in key order, one per key |
| AttendancePage.StatsOf | app/dashboard/attendance/page.tsx:178-189 | sakit, izin and absen are the sums of those counters over the entries, total is the number of students, and present plus the three sums equals total |
| AttendancePage.SumsCountMarked | app/dashboard/attendance/page.tsx:181-183 | over stored entries the three sums add up to the number of students marked other than HADIR |
| AttendancePage.PresentNonNegative | app/dashboard/attendance/page.tsx:189 | when every key is a listed student's id, the present count is not negative |
| AttendancePage.AttendancePageState.constructor | app/dashboard/attendance/page.tsx:47-53 | the page starts with today's date, no class, no subject, no students and an empty map |
| AttendancePage.AttendancePageState.ResetIfChanged | app/dashboard/attendance/page.tsx:68-73 | the filter effect empties the map exactly when a filter changed |
| AttendancePage.AttendancePageState.SelectDate | app/dashboard/attendance/page.tsx:68-73 | a different date empties the map; the same date leaves it |
| AttendancePage.AttendancePageState.SelectClass | app/dashboard/attendance/page.tsx:68-73 | a different class empties the map; the same class leaves it |
| AttendancePage.AttendancePageState.SelectSubject | app/dashboard/attendance/page.tsx:68-73 | a different subject empties the map; the same subject leaves it |
| AttendancePage.AttendancePageState.SetStudents | app/dashboard/attendance/page.tsx:95-105 | the fetched list replaces the students and nothing else changes |
| AttendancePage.AttendancePageState.UpdateAttendance | app/dashboard/attendance/page.tsx:113-127 | the student's entry becomes the encoding of the status, which then decodes to it; every other student's entry is unchanged; a new key joins the end of the key order |
| Dashboard.StatusLabel | app/dashboard/page.tsx:7-12 | sakit, then izin, then absen decide by priority; the neutral "Catatan Kehadiran" is given exactly when no counter is positive |
| Dashboard.LabelsDistinct | app/dashboard/page.tsx:8-11 | the four labels are pairwise different |
| Dashboard.LabelAgreesWithPage | app/dashboard/page.tsx:7-12 | for a stored entry, the dashboard label is the label of the status the attendance page decodes |
| Dashboard.AttendanceTotals | app/dashboard/page.tsx:48-57 | with data, the totals are the fold over its rows; no data, or no rows, gives all three totals 0 |
| Dashboard.TotalsNonNegative | app/dashboard/page.tsx:48-57 | when no row has a negative counter, none of the three totals is negative |
| Dashboard.TotalsAppend | app/dashboard/page.tsx:49-56 | the totals of two batches of rows add up |
| Dashboard.EmptyRowsAddNothing | app/dashboard/page.tsx:51-53 | rows with all counters missing add nothing |
| Dashboard.TotalsAgreeWithPage | app/dashboard/page.tsx:48-56 | over the attendance page's entries, the dashboard totals are the page's own sums |
| Dashboard.StatCards | app/dashboard/page.tsx:60-85 | there are four cards with their titles; a card shows its count when present, and is non-zero only when the count is present |
| AttendanceReport.BoundsOrdered | app/api/reports/attendance/route.ts:23-24 | start and end have the same length, differ only in their last two characters, and start is smaller |
| AttendanceReport.MonthPrefix | app/api/reports/attendance/route.ts:23-24 | the common start of both bounds begins with the year and "-", ends with "-", and is as long as the year, the padded month and the two dashes; the month padded to two characters ("00" for an empty month) sits between the dashes, so a month of two or more characters sits there unchanged |
| AttendanceReport.StartDate | app/api/reports/attendance/route.ts:23 | the start bound is the month's prefix followed by "01" |
| AttendanceReport.EndDate | app/api/reports/attendance/route.ts:24 | the end bound is the month's prefix followed by "31" |
| AttendanceReport.ReportFilename | app/api/reports/attendance/route.ts:47 | the file name starts with "kehadiran-", the student's name and "-", holds the month next, and ends with "-", the year and ".docx", with nothing else in between |
| AttendanceReport.LongMonthUnchanged | app/api/reports/attendance/route.ts:23-24 | a month of length 2 or more is inserted unchanged in both bounds |
| AttendanceReport.ShortMonthPadded | app/api/reports/attendance/route.ts:23 | a one-character month gets a leading "0" |
| AttendanceReport.DayWithinBounds | app/api/reports/attendance/route.ts:23-35 | a date of the month with a two-character day lies between the bounds exactly when its day lies between "01" and "31", as strings |
| AttendanceReport.AttendanceReportRoute | app/api/reports/attendance/route.ts:6-54 | no user gives 401 and a failed student lookup gives 500. A null query result for the month's bounds gives 404. A report is given exactly when the user, the student and the rows are there. It is named by the report file name; its total days, four day counts, percentage (in [0, 100]) and lines come from the rows found between the month's bounds, and it carries the student's name and id, the month, the year and today's date |

## Left out

- Spreadsheet and document libraries. Loading and writing workbooks, header styling, and DOCX rendering from templates are not modelled. A workbook is the sequence of its non-empty rows of cell texts, and a report is the context it is rendered from. `workbook.getWorksheet(1)` looks a sheet up by its id; the model reads the first sheet in order, which is the same sheet only when the first sheet kept id 1.
- Excel.GenerateStudentTemplate: the fonts of the instruction sheet's title are not modelled.
- Excel.TemplateSampleIsAccepted: does not state the converted birth and entry dates of the sample row. Those conversions are covered in general by Excel.ParseDateOfParts.
- Formatting. `toLocaleDateString`, today's date, `toFixed(2)` of the average and `toFixed(1)` of the percentage are not modelled. Dates are formatted by a parameter, and averages and percentages are exact reals, without floating-point rounding.
- `formatFileSize` is not modelled, because it depends on floating-point `Math.log` and `Math.pow`.
- `uploadFile`'s directory creation, disk write and database insert are not modelled, and nor is `getFiles`, which is a database query. The unique id from `uuidv4` is a parameter.
- FileUpload.StoredPath: `path.join` is modelled as "uploads/" followed by the name, without path normalisation. This matches for a uuid followed by an extension without separators.
- Docx.LevelName: JavaScript object lookups also find inherited keys such as "constructor" or "toString". The model returns every unknown code unchanged.
- Docx.StatusName: the same inherited-key lookup is not modelled.
- Database access is not modelled. Student, class, subject and teacher services are left out, as are the remaining route handlers. The insert, the student lookup, the attendance query and the delete are parameters that give their outcome.
- AttendanceReport.DayWithinBounds: compares dates as strings. The database compares a date column as dates, and a day-31 bound in a month with fewer days is not a valid date there. The model does not capture that case.
- AttendanceReport.AttendanceReportRoute: a request body that is not JSON, or a month that is not a string, also ends in 500. The model takes the month as a string.
- The attendance page's fetching and saving (the network), its badges and its rendering are not modelled. `Object.values` is modelled in key insertion order. JavaScript lists integer-like keys first, but student ids are not integer-like, and the sums do not depend on order anyway.
- The dashboard's sign-in redirect, profile lookup and recent-attendance query are not modelled. Counters are integers; `NaN` and string counters are not modelled.
- Strings are sequences of Unicode code points. JavaScript measures strings in UTF-16 code units, which differs only for characters outside the Basic Multilingual Plane.
- Schedules' `day_of_week` is an integer; JavaScript would also accept string keys such as "1" for the same bucket.
