/**
 * The spreadsheet side of the pipeline (lib/services/excel.ts): the three
 * export row mappers, the import template, and the student import parser
 * with its date and gender conversions.
 *
 * The workbook library is replaced by a small worksheet object that keeps
 * the column definitions and the data rows; the parser reads an abstract
 * workbook whose rows carry their 1-based row number and the text of their
 * cells.
 */
module Excel {
  import opened Text
  import opened Records

  // ---------------------------------------------------------------------
  // Worksheets as the exports build them

  /** One column definition: header label, field key, display width. */
  datatype Column = Column(header: string, key: string, width: nat)

  /** The value of one cell: a text, a number, or nothing. */
  datatype CellValue = Empty | Text(text: string) | Number(number: real)

  /**
   * `addRow` with an object: each column takes the value stored under its
   * key, and a key the object lacks leaves the cell empty.
   */
  function RowFromKeys(columns: seq<Column>, values: map<string, CellValue>): (row: seq<CellValue>)
    ensures |row| == |columns|
    ensures forall i :: 0 <= i < |columns| ==>
      row[i] == (if columns[i].key in values then values[columns[i].key] else Empty)
  {
    seq(|columns|, i requires 0 <= i < |columns| =>
      if columns[i].key in values then values[columns[i].key] else Empty)
  }

  /** A worksheet under construction: its columns and the data rows after the header row. */
  class Worksheet {
    const name: string
    var columns: seq<Column>
    var rows: seq<seq<CellValue>>

    constructor (name: string)
      ensures this.name == name && columns == [] && rows == []
    {
      this.name := name;
      columns := [];
      rows := [];
    }

    /** The header row (row 1): the column labels in column order. */
    function HeaderRow(): (labels: seq<string>)
      reads this
      ensures |labels| == |columns|
      ensures forall i :: 0 <= i < |columns| ==> labels[i] == columns[i].header
    {
      seq(|columns|, i reads this requires 0 <= i < |columns| => columns[i].header)
    }

    /** `worksheet.columns = ...` */
    method SetColumns(cols: seq<Column>)
      modifies this
      ensures columns == cols && rows == old(rows)
    {
      columns := cols;
    }

    /** `worksheet.addRow({...})`: appends one row laid out by the column keys. */
    method AddRow(values: map<string, CellValue>)
      modifies this
      ensures columns == old(columns)
      ensures rows == old(rows) + [RowFromKeys(columns, values)]
    {
      rows := rows + [RowFromKeys(columns, values)];
    }

    /** `worksheet.addRow([...])`: appends one row given positionally. */
    method AddValues(values: seq<CellValue>)
      modifies this
      ensures columns == old(columns)
      ensures rows == old(rows) + [values]
    {
      rows := rows + [values];
    }
  }

  // ---------------------------------------------------------------------
  // Column layouts

  const StudentColumns: seq<Column> := [
    Column("ID Siswa", "student_id", 15),
    Column("Nama Lengkap", "full_name", 25),
    Column("Jenis Kelamin", "gender", 15),
    Column("Tanggal Lahir", "birth_date", 15),
    Column("Tempat Lahir", "birth_place", 20),
    Column("Alamat", "address", 30),
    Column("Telepon", "phone", 15),
    Column("Nama Orang Tua", "parent_name", 25),
    Column("Telepon Orang Tua", "parent_phone", 15),
    Column("Tanggal Masuk", "enrollment_date", 15),
    Column("Status", "is_active", 10)
  ]

  const TeacherColumns: seq<Column> := [
    Column("ID Guru", "teacher_id", 15),
    Column("Nama Lengkap", "full_name", 25),
    Column("Jenis Kelamin", "gender", 15),
    Column("Tanggal Lahir", "birth_date", 15),
    Column("Tempat Lahir", "birth_place", 20),
    Column("Alamat", "address", 30),
    Column("Telepon", "phone", 15),
    Column("Email", "email", 25),
    Column("Tanggal Bergabung", "hire_date", 15),
    Column("Status", "is_active", 10)
  ]

  const GradeColumns: seq<Column> := [
    Column("Nama Siswa", "student_name", 25),
    Column("Mata Pelajaran", "subject_name", 20),
    Column("Guru", "teacher_name", 25),
    Column("Tahun Ajaran", "academic_year", 15),
    Column("Semester", "semester", 10),
    Column("Nilai Tugas", "assignment_score", 12),
    Column("Nilai UTS", "midterm_score", 12),
    Column("Nilai UAS", "final_score", 12),
    Column("Nilai Total", "total_score", 12),
    Column("Grade", "grade", 8)
  ]

  /** The import template's columns; a '*' marks a required column. */
  const TemplateColumns: seq<Column> := [
    Column("ID Siswa*", "student_id", 15),
    Column("Nama Lengkap*", "full_name", 25),
    Column("Jenis Kelamin*", "gender", 15),
    Column("Tanggal Lahir*", "birth_date", 15),
    Column("Tempat Lahir*", "birth_place", 20),
    Column("Alamat*", "address", 30),
    Column("Telepon", "phone", 15),
    Column("Nama Orang Tua*", "parent_name", 25),
    Column("Telepon Orang Tua*", "parent_phone", 15),
    Column("Tanggal Masuk*", "enrollment_date", 15)
  ]

  // ---------------------------------------------------------------------
  // Labels shared by export and import

  const MaleLabel := "Laki-laki"
  const FemaleLabel := "Perempuan"

  /** The label the exports write for a gender. */
  function GenderLabel(g: Gender): (text: string)
    ensures text == MaleLabel <==> g == MALE
    ensures g == FEMALE ==> text == FemaleLabel
  {
    if g == MALE then MaleLabel else FemaleLabel
  }

  /** The parser's reading of the gender cell: exactly the male label is MALE, anything else FEMALE. */
  function ParseGender(text: string): (g: Gender)
    ensures g == MALE <==> text == MaleLabel
  {
    if text == MaleLabel then MALE else FEMALE
  }

  /** Reading back an exported gender label gives the gender that was written. */
  lemma GenderRoundTrip(g: Gender)
    ensures ParseGender(GenderLabel(g)) == g
  {
  }

  /** The status label of the exports: "Aktif" exactly for an active record. */
  function ActiveLabel(active: bool): (label': string)
    ensures label' == "Aktif" <==> active
    ensures !active ==> label' == "Tidak Aktif"
  {
    if active then "Aktif" else "Tidak Aktif"
  }

  /** The parser's reading of the phone cell: an empty cell is no phone. */
  function ParsePhone(text: string): (phone: Option<string>)
    ensures phone == None <==> text == ""
    ensures phone.Some? ==> phone.value == text
  {
    if text == "" then None else Some(text)
  }

  // ---------------------------------------------------------------------
  // Export row mappers

  /** The object `exportStudents` adds for one student; `localeDate` stands for the id-ID date formatting. */
  function StudentRowValues(st: Student, localeDate: string -> string): map<string, CellValue>
  {
    map[
      "student_id" := Text(st.student_id),
      "full_name" := Text(st.full_name),
      "gender" := Text(GenderLabel(st.gender)),
      "birth_date" := Text(localeDate(st.birth_date)),
      "birth_place" := Text(st.birth_place),
      "address" := Text(st.address),
      "phone" := Text(st.phone.GetOr("")),
      "parent_name" := Text(st.parent_name),
      "parent_phone" := Text(st.parent_phone),
      "enrollment_date" := Text(localeDate(st.enrollment_date)),
      "is_active" := Text(ActiveLabel(st.is_active))
    ]
  }

  /** The object `exportTeachers` adds for one teacher. */
  function TeacherRowValues(t: Teacher, localeDate: string -> string): map<string, CellValue>
  {
    map[
      "teacher_id" := Text(t.teacher_id),
      "full_name" := Text(t.full_name),
      "gender" := Text(GenderLabel(t.gender)),
      "birth_date" := Text(localeDate(t.birth_date)),
      "birth_place" := Text(t.birth_place),
      "address" := Text(t.address),
      "phone" := Text(t.phone),
      "email" := Text(t.email),
      "hire_date" := Text(localeDate(t.hire_date)),
      "is_active" := Text(ActiveLabel(t.is_active))
    ]
  }

  /** The object `exportGrades` adds for one grade row. */
  function GradeRowValues(g: GradeRecord): map<string, CellValue>
  {
    map[
      "student_name" := Text(g.student_name.GetOr("")),
      "subject_name" := Text(g.subject_name.GetOr("")),
      "teacher_name" := Text(g.teacher_name.GetOr("")),
      "academic_year" := Text(g.academic_year),
      "semester" := Text(SemesterCode(g.semester)),
      "assignment_score" := Number(g.assignment_score),
      "midterm_score" := Number(g.midterm_score),
      "final_score" := Number(g.final_score),
      "total_score" := Number(g.total_score),
      "grade" := Text(g.grade)
    ]
  }

  /** The data row the student export writes for one student. */
  function StudentExportRow(st: Student, localeDate: string -> string): (row: seq<CellValue>)
    ensures |row| == |StudentColumns| == 11
    ensures forall i :: 0 <= i < 11 ==> row[i].Text?
    ensures row[2] == Text(GenderLabel(st.gender))
    ensures row[6] == Text(st.phone.GetOr(""))
    ensures row[10] == Text(if st.is_active then "Aktif" else "Tidak Aktif")
  {
    RowFromKeys(StudentColumns, StudentRowValues(st, localeDate))
  }

  /** The data row the teacher export writes for one teacher. */
  function TeacherExportRow(t: Teacher, localeDate: string -> string): (row: seq<CellValue>)
    ensures |row| == |TeacherColumns| == 10
    ensures row == [
      Text(t.teacher_id), Text(t.full_name), Text(GenderLabel(t.gender)),
      Text(localeDate(t.birth_date)), Text(t.birth_place), Text(t.address),
      Text(t.phone), Text(t.email), Text(localeDate(t.hire_date)),
      Text(if t.is_active then "Aktif" else "Tidak Aktif")]
  {
    RowFromKeys(TeacherColumns, TeacherRowValues(t, localeDate))
  }

  /** The data row the grade export writes; a missing relation name or grade becomes "". */
  function GradeExportRow(g: GradeRecord): (row: seq<CellValue>)
    ensures |row| == |GradeColumns| == 10
    ensures row[0] == Text(if g.student_name.Some? then g.student_name.value else "")
    ensures row[1] == Text(if g.subject_name.Some? then g.subject_name.value else "")
    ensures row[2] == Text(if g.teacher_name.Some? then g.teacher_name.value else "")
    ensures row[3] == Text(g.academic_year) && row[4] == Text(SemesterCode(g.semester))
    ensures row[5] == Number(g.assignment_score) && row[6] == Number(g.midterm_score)
    ensures row[7] == Number(g.final_score) && row[8] == Number(g.total_score)
    ensures row[9] == Text(g.grade)
  {
    RowFromKeys(GradeColumns, GradeRowValues(g))
  }

  /** `exportStudents`: one row per student, in input order, under the student columns. */
  method ExportStudents(students: seq<Student>, localeDate: string -> string) returns (sheet: Worksheet)
    ensures fresh(sheet)
    ensures sheet.name == "Data Siswa" && sheet.columns == StudentColumns
    ensures |sheet.rows| == |students|
    ensures forall k :: 0 <= k < |students| ==> sheet.rows[k] == StudentExportRow(students[k], localeDate)
  {
    sheet := new Worksheet("Data Siswa");
    sheet.SetColumns(StudentColumns);
    for k := 0 to |students|
      invariant sheet.columns == StudentColumns
      invariant |sheet.rows| == k
      invariant forall j :: 0 <= j < k ==> sheet.rows[j] == StudentExportRow(students[j], localeDate)
    {
      sheet.AddRow(StudentRowValues(students[k], localeDate));
    }
  }

  /** `exportTeachers`: one row per teacher, in input order. */
  method ExportTeachers(teachers: seq<Teacher>, localeDate: string -> string) returns (sheet: Worksheet)
    ensures fresh(sheet)
    ensures sheet.name == "Data Guru" && sheet.columns == TeacherColumns
    ensures |sheet.rows| == |teachers|
    ensures forall k :: 0 <= k < |teachers| ==> sheet.rows[k] == TeacherExportRow(teachers[k], localeDate)
  {
    sheet := new Worksheet("Data Guru");
    sheet.SetColumns(TeacherColumns);
    for k := 0 to |teachers|
      invariant sheet.columns == TeacherColumns
      invariant |sheet.rows| == k
      invariant forall j :: 0 <= j < k ==> sheet.rows[j] == TeacherExportRow(teachers[j], localeDate)
    {
      sheet.AddRow(TeacherRowValues(teachers[k], localeDate));
    }
  }

  /** `exportGrades`: one row per grade record, in input order. */
  method ExportGrades(grades: seq<GradeRecord>) returns (sheet: Worksheet)
    ensures fresh(sheet)
    ensures sheet.name == "Data Nilai" && sheet.columns == GradeColumns
    ensures |sheet.rows| == |grades|
    ensures forall k :: 0 <= k < |grades| ==> sheet.rows[k] == GradeExportRow(grades[k])
  {
    sheet := new Worksheet("Data Nilai");
    sheet.SetColumns(GradeColumns);
    for k := 0 to |grades|
      invariant sheet.columns == GradeColumns
      invariant |sheet.rows| == k
      invariant forall j :: 0 <= j < k ==> sheet.rows[j] == GradeExportRow(grades[j])
    {
      sheet.AddRow(GradeRowValues(grades[k]));
    }
  }

  // ---------------------------------------------------------------------
  // Import template

  /** The example row of the template, keyed like the template columns. */
  const SampleRowValues: map<string, CellValue> := map[
    "student_id" := Text("S001"),
    "full_name" := Text("Ahmad Fauzi"),
    "gender" := Text("Laki-laki"),
    "birth_date" := Text("01/01/2005"),
    "birth_place" := Text("Jakarta"),
    "address" := Text("Jl. Contoh No. 123"),
    "phone" := Text("081234567890"),
    "parent_name" := Text("Budi Santoso"),
    "parent_phone" := Text("081234567891"),
    "enrollment_date" := Text("01/07/2024")
  ]

  const Instructions: seq<string> := [
    "PETUNJUK IMPORT DATA SISWA",
    "",
    "1. Kolom dengan tanda (*) wajib diisi",
    "2. Format tanggal: DD/MM/YYYY",
    "3. Jenis Kelamin: Laki-laki atau Perempuan",
    "4. ID Siswa harus unik",
    "5. Hapus baris contoh sebelum import"
  ]

  /**
   * `generateStudentTemplate`: a template sheet with the ten import columns
   * and one example row, and an instruction sheet with one line per row
   * (the blank second line is an empty row).
   */
  method GenerateStudentTemplate() returns (template: Worksheet, instructions: Worksheet)
    ensures fresh(template) && fresh(instructions) && template != instructions
    ensures template.name == "Template Import Siswa" && template.columns == TemplateColumns
    ensures template.rows == [RowFromKeys(TemplateColumns, SampleRowValues)]
    ensures instructions.name == "Petunjuk" && |instructions.rows| == |Instructions|
    ensures forall k :: 0 <= k < |Instructions| ==>
      instructions.rows[k] == (if Instructions[k] == "" then [] else [Text(Instructions[k])])
  {
    template := new Worksheet("Template Import Siswa");
    template.SetColumns(TemplateColumns);
    template.AddRow(SampleRowValues);
    instructions := new Worksheet("Petunjuk");
    for k := 0 to |Instructions|
      invariant template.columns == TemplateColumns
      invariant template.rows == [RowFromKeys(TemplateColumns, SampleRowValues)]
      invariant |instructions.rows| == k
      invariant forall j :: 0 <= j < k ==>
        instructions.rows[j] == (if Instructions[j] == "" then [] else [Text(Instructions[j])])
    {
      if Instructions[k] == "" {
        instructions.AddValues([]);
      } else {
        instructions.AddValues([Text(Instructions[k])]);
      }
    }
  }

  // ---------------------------------------------------------------------
  // Import parsing

  /** A non-empty worksheet row as the parser sees it: its 1-based number and the text of its cells. */
  datatype SheetRow = SheetRow(number: nat, cells: seq<string>)

  /** A worksheet's non-empty rows in ascending row order. */
  datatype ImportSheet = ImportSheet(rows: seq<SheetRow>)

  datatype ImportWorkbook = ImportWorkbook(sheets: seq<ImportSheet>)

  /** `row.getCell(i).text` for 1-based `i`; a cell past the last one reads as "". */
  function CellText(row: SheetRow, i: nat): (text: string)
    ensures 1 <= i <= |row.cells| ==> text == row.cells[i - 1]
    ensures (i == 0 || i > |row.cells|) ==> text == ""
  {
    if 1 <= i <= |row.cells| then row.cells[i - 1] else ""
  }

  /**
   * `parseDate`: a text that splits into exactly three parts on "/" is read
   * as day/month/year and rewritten year-month-day, with day and month
   * left-padded with "0" to two characters; any other text is returned
   * unchanged.
   */
  function ParseDate(s: string): (r: string)
    ensures Occurrences(s, '/') != 2 ==> r == s
    ensures r == "" <==> s == ""
  {
    var parts := Split(s, '/');
    if |parts| == 3 then parts[2] + "-" + PadStart2(parts[1]) + "-" + PadStart2(parts[0])
    else s
  }

  /** A day/month/year text is rewritten to year-month-day, padding day and month. */
  lemma ParseDateOfParts(day: string, month: string, year: string)
    requires '/' !in day && '/' !in month && '/' !in year
    ensures ParseDate(day + "/" + month + "/" + year) == year + "-" + PadStart2(month) + "-" + PadStart2(day)
  {
    var s := day + "/" + month + "/" + year;
    SplitThree(day, month, year, '/');
    assert s == day + ['/'] + month + ['/'] + year;
    assert Split(s, '/') == [day, month, year];
  }

  /** The candidate record the parser builds from one row. */
  function RowToStudent(row: SheetRow): (st: Student)
    ensures st.is_active
    ensures st.phone == None <==> CellText(row, 7) == ""
    ensures st.gender == MALE <==> CellText(row, 3) == MaleLabel
    ensures st.student_id == CellText(row, 1) && st.full_name == CellText(row, 2)
    ensures st.birth_place == CellText(row, 5) && st.address == CellText(row, 6)
    ensures st.parent_name == CellText(row, 8) && st.parent_phone == CellText(row, 9)
  {
    Student(
      student_id := CellText(row, 1),
      full_name := CellText(row, 2),
      gender := ParseGender(CellText(row, 3)),
      birth_date := ParseDate(CellText(row, 4)),
      birth_place := CellText(row, 5),
      address := CellText(row, 6),
      phone := ParsePhone(CellText(row, 7)),
      parent_name := CellText(row, 8),
      parent_phone := CellText(row, 9),
      enrollment_date := ParseDate(CellText(row, 10)),
      is_active := true)
  }

  /** The parser's required-field test; the gender field is always set, so it never fails. */
  predicate HasRequiredFields(st: Student)
  {
    && st.student_id != ""
    && st.full_name != ""
    && st.birth_date != ""
    && st.birth_place != ""
    && st.address != ""
    && st.parent_name != ""
    && st.parent_phone != ""
    && st.enrollment_date != ""
  }

  /** Whether a row becomes a candidate: it is not the header row and its record has every required field. */
  predicate Accepted(row: SheetRow)
  {
    row.number != 1 && HasRequiredFields(RowToStudent(row))
  }

  /**
   * A row is accepted exactly when it is not row 1 and its eight required
   * cells (1, 2, 4, 5, 6, 8, 9, 10) are non-empty. The gender test always
   * passes: cell 3 always gives a gender, FEMALE when it is empty.
   */
  lemma AcceptedIffRequiredCells(row: SheetRow)
    ensures Accepted(row) <==>
      && row.number != 1
      && CellText(row, 1) != "" && CellText(row, 2) != ""
      && CellText(row, 4) != "" && CellText(row, 5) != "" && CellText(row, 6) != ""
      && CellText(row, 8) != "" && CellText(row, 9) != "" && CellText(row, 10) != ""
  {
  }

  // ---------------------------------------------------------------------
  // Keeping and converting the elements of a sequence that pass a test

  /** The images under `convert` of the elements of `xs` that pass `keep`, in order. */
  function FilterMap<A, B>(xs: seq<A>, keep: A -> bool, convert: A -> B): (ys: seq<B>)
    ensures |ys| <= |xs|
  {
    if |xs| == 0 then []
    else
      var last := xs[|xs| - 1];
      FilterMap(xs[..|xs| - 1], keep, convert) + (if keep(last) then [convert(last)] else [])
  }

  lemma {:induction false} FilterMapAppend<A, B>(a: seq<A>, b: seq<A>, keep: A -> bool, convert: A -> B)
    ensures FilterMap(a + b, keep, convert) == FilterMap(a, keep, convert) + FilterMap(b, keep, convert)
    decreases |b|
  {
    if |b| == 0 {
      assert a + b == a;
    } else {
      var b' := b[..|b| - 1];
      assert (a + b)[..|a + b| - 1] == a + b';
      assert (a + b)[|a + b| - 1] == b[|b| - 1];
      FilterMapAppend(a, b', keep, convert);
    }
  }

  lemma {:induction false} FilterMapMembership<A, B>(xs: seq<A>, keep: A -> bool, convert: A -> B, y: B)
    ensures y in FilterMap(xs, keep, convert) <==> exists k :: 0 <= k < |xs| && keep(xs[k]) && convert(xs[k]) == y
  {
    if |xs| > 0 {
      var init := xs[..|xs| - 1];
      var last := xs[|xs| - 1];
      FilterMapMembership(init, keep, convert, y);
      assert forall k :: 0 <= k < |init| ==> init[k] == xs[k];
    }
  }

  lemma {:induction false} FilterMapNone<A, B>(xs: seq<A>, keep: A -> bool, convert: A -> B)
    requires forall k :: 0 <= k < |xs| ==> !keep(xs[k])
    ensures FilterMap(xs, keep, convert) == []
  {
    if |xs| > 0 {
      FilterMapNone(xs[..|xs| - 1], keep, convert);
    }
  }

  lemma {:induction false} FilterMapAll<A, B>(xs: seq<A>, keep: A -> bool, convert: A -> B)
    requires forall k :: 0 <= k < |xs| ==> keep(xs[k])
    ensures |FilterMap(xs, keep, convert)| == |xs|
    ensures forall k :: 0 <= k < |xs| ==> FilterMap(xs, keep, convert)[k] == convert(xs[k])
  {
    if |xs| > 0 {
      FilterMapAll(xs[..|xs| - 1], keep, convert);
    }
  }

  // ---------------------------------------------------------------------
  // The parser

  /** The candidates the parser emits for a sequence of rows, in row order. */
  function ParsedStudents(rows: seq<SheetRow>): (students: seq<Student>)
    ensures |students| <= |rows|
  {
    FilterMap(rows, Accepted, RowToStudent)
  }

  /**
   * `parseStudentImport`: without a first worksheet it fails with
   * "Worksheet tidak ditemukan"; otherwise it visits the rows in order and
   * keeps the candidate of every accepted row.
   */
  method ParseStudentImport(wb: ImportWorkbook) returns (result: Result<seq<Student>>)
    ensures wb.sheets == [] ==> result == Err("Worksheet tidak ditemukan")
    ensures wb.sheets != [] ==> result == Ok(ParsedStudents(wb.sheets[0].rows))
  {
    if |wb.sheets| == 0 {
      return Err("Worksheet tidak ditemukan");
    }
    var rows := wb.sheets[0].rows;
    var students: seq<Student> := [];
    for k := 0 to |rows|
      invariant students == ParsedStudents(rows[..k])
    {
      assert rows[..k + 1][..k] == rows[..k];
      var row := rows[k];
      if row.number == 1 {
        continue;
      }
      var student := RowToStudent(row);
      if HasRequiredFields(student) {
        students := students + [student];
      }
    }
    assert rows[..|rows|] == rows;
    return Ok(students);
  }

  // ---------------------------------------------------------------------
  // Properties of the parser

  /** Parsing two runs of rows one after the other gives the candidates of the first run, then those of the second. */
  lemma ParsedAppend(a: seq<SheetRow>, b: seq<SheetRow>)
    ensures ParsedStudents(a + b) == ParsedStudents(a) + ParsedStudents(b)
  {
    FilterMapAppend(a, b, Accepted, RowToStudent);
  }

  /** Row `row` is accepted and its candidate is `st`. */
  predicate Emits(row: SheetRow, st: Student)
  {
    Accepted(row) && RowToStudent(row) == st
  }

  /** A candidate is emitted exactly when some row is accepted and yields it. */
  lemma ParsedMembership(rows: seq<SheetRow>, st: Student)
    ensures st in ParsedStudents(rows) <==> exists k :: 0 <= k < |rows| && Emits(rows[k], st)
  {
    FilterMapMembership(rows, Accepted, RowToStudent, st);
  }

  /** Every emitted candidate is active and carries every required field. */
  lemma ParsedAreActiveAndComplete(rows: seq<SheetRow>)
    ensures forall st :: st in ParsedStudents(rows) ==> st.is_active && HasRequiredFields(st)
  {
    forall st | st in ParsedStudents(rows)
      ensures st.is_active && HasRequiredFields(st)
    {
      ParsedMembership(rows, st);
    }
  }

  /** The header row alone, or any rows numbered 1, produce no candidate. */
  lemma HeaderNeverEmitted(rows: seq<SheetRow>)
    requires forall k :: 0 <= k < |rows| ==> rows[k].number == 1
    ensures ParsedStudents(rows) == []
  {
    FilterMapNone(rows, Accepted, RowToStudent);
  }

  /** A row numbered 1 in front of other rows adds no candidate: the result is that of the other rows. */
  lemma HeaderSkipped(header: SheetRow, rest: seq<SheetRow>)
    requires header.number == 1
    ensures ParsedStudents([header] + rest) == ParsedStudents(rest)
  {
    ParsedAppend([header], rest);
    HeaderNeverEmitted([header]);
  }

  /** When every row is an accepted data row, the candidates are the rows' records, one for one. */
  lemma ParsedAllAccepted(rows: seq<SheetRow>)
    requires forall k :: 0 <= k < |rows| ==> Accepted(rows[k])
    ensures |ParsedStudents(rows)| == |rows|
    ensures forall k :: 0 <= k < |rows| ==> ParsedStudents(rows)[k] == RowToStudent(rows[k])
  {
    FilterMapAll(rows, Accepted, RowToStudent);
  }

  /** The keys of the template's columns, in order. */
  lemma TemplateKeys()
    ensures |TemplateColumns| == 10
    ensures TemplateColumns[0].key == "student_id" && TemplateColumns[1].key == "full_name"
    ensures TemplateColumns[2].key == "gender" && TemplateColumns[3].key == "birth_date"
    ensures TemplateColumns[4].key == "birth_place" && TemplateColumns[5].key == "address"
    ensures TemplateColumns[6].key == "phone" && TemplateColumns[7].key == "parent_name"
    ensures TemplateColumns[8].key == "parent_phone" && TemplateColumns[9].key == "enrollment_date"
  {
  }

  /**
   * The template's column i names the field the parser fills from cell i:
   * text fields are copied, gender and the two dates are converted.
   */
  lemma TemplateColumnsMatchParser(row: SheetRow)
    ensures |TemplateColumns| == 10
    ensures var st := RowToStudent(row);
      && TemplateColumns[0].key == "student_id" && st.student_id == CellText(row, 1)
      && TemplateColumns[1].key == "full_name" && st.full_name == CellText(row, 2)
      && TemplateColumns[2].key == "gender" && st.gender == ParseGender(CellText(row, 3))
      && TemplateColumns[3].key == "birth_date" && st.birth_date == ParseDate(CellText(row, 4))
      && TemplateColumns[4].key == "birth_place" && st.birth_place == CellText(row, 5)
      && TemplateColumns[5].key == "address" && st.address == CellText(row, 6)
      && TemplateColumns[6].key == "phone" && st.phone == ParsePhone(CellText(row, 7))
      && TemplateColumns[7].key == "parent_name" && st.parent_name == CellText(row, 8)
      && TemplateColumns[8].key == "parent_phone" && st.parent_phone == CellText(row, 9)
      && TemplateColumns[9].key == "enrollment_date" && st.enrollment_date == ParseDate(CellText(row, 10))
  {
    TemplateKeys();
  }

  /** The template's columns carry the keys of the student export's first ten columns, in the same order. */
  lemma TemplateKeysMatchExport()
    ensures forall i :: 0 <= i < 10 ==> TemplateColumns[i].key == StudentColumns[i].key
  {
  }

  // ---------------------------------------------------------------------
  // Export and import agree

  /** A date in the id-ID short form the exports write: day/month/year without padding. */
  function IdDate(year: string, month: nat, day: nat): string
  {
    NatToString(day) + "/" + NatToString(month) + "/" + year
  }

  /** The same date as the parser stores it: year-month-day with two-digit day and month. */
  function IsoDate(year: string, month: nat, day: nat): string
  {
    year + "-" + PadStart2(NatToString(month)) + "-" + PadStart2(NatToString(day))
  }

  /** The parser turns an id-ID short date into the stored form of the same date. */
  lemma ParseIdDate(year: string, month: nat, day: nat)
    requires '/' !in year
    ensures ParseDate(IdDate(year, month, day)) == IsoDate(year, month, day)
  {
    var d, m := NatToString(day), NatToString(month);
    DigitsExclude(d, '/');
    DigitsExclude(m, '/');
    ParseDateOfParts(d, m, year);
  }

  /** The student export row, cell by cell. */
  lemma StudentExportRowCells(st: Student, localeDate: string -> string)
    ensures StudentExportRow(st, localeDate) == [
      Text(st.student_id), Text(st.full_name), Text(GenderLabel(st.gender)),
      Text(localeDate(st.birth_date)), Text(st.birth_place), Text(st.address),
      Text(st.phone.GetOr("")), Text(st.parent_name), Text(st.parent_phone),
      Text(localeDate(st.enrollment_date)), Text(ActiveLabel(st.is_active))]
  {
  }

  /** The texts of a row's first ten cells, read back as a worksheet row with the given number. */
  function ImportRowOf(number: nat, row: seq<CellValue>): SheetRow
    requires |row| >= 10 && forall i :: 0 <= i < 10 ==> row[i].Text?
  {
    SheetRow(number, seq(10, i requires 0 <= i < 10 => row[i].text))
  }

  /** The row read back from a student's export row: its first ten texts, in column order. */
  lemma ImportedExportCells(st: Student, localeDate: string -> string, number: nat)
    ensures ImportRowOf(number, StudentExportRow(st, localeDate)).cells == [
      st.student_id, st.full_name, GenderLabel(st.gender), localeDate(st.birth_date),
      st.birth_place, st.address, st.phone.GetOr(""), st.parent_name, st.parent_phone,
      localeDate(st.enrollment_date)]
  {
    StudentExportRowCells(st, localeDate);
  }

  /** A row holding a student's fields, with both dates in the id-ID short form, is accepted and gives that student. */
  lemma ImportOfFields(row: SheetRow, st: Student,
                       birthYear: string, birthMonth: nat, birthDay: nat,
                       entryYear: string, entryMonth: nat, entryDay: nat)
    requires row.number != 1
    requires st.is_active && HasRequiredFields(st) && st.phone != Some("")
    requires '/' !in birthYear && '/' !in entryYear
    requires st.birth_date == IsoDate(birthYear, birthMonth, birthDay)
    requires st.enrollment_date == IsoDate(entryYear, entryMonth, entryDay)
    requires row.cells == [
      st.student_id, st.full_name, GenderLabel(st.gender), IdDate(birthYear, birthMonth, birthDay),
      st.birth_place, st.address, st.phone.GetOr(""), st.parent_name, st.parent_phone,
      IdDate(entryYear, entryMonth, entryDay)]
    ensures Accepted(row) && RowToStudent(row) == st
  {
    ParseIdDate(birthYear, birthMonth, birthDay);
    ParseIdDate(entryYear, entryMonth, entryDay);
    var parsed := RowToStudent(row);
    assert parsed.gender == st.gender && parsed.phone == st.phone;
    assert parsed.birth_date == st.birth_date && parsed.enrollment_date == st.enrollment_date;
  }

  /**
   * Exporting a student and importing the first ten cells of its row gives
   * the student back, when the locale writes dates day/month/year, the
   * student is active, has every required field, and has no empty phone.
   */
  lemma ExportThenImport(st: Student, localeDate: string -> string, number: nat,
                         birthYear: string, birthMonth: nat, birthDay: nat,
                         entryYear: string, entryMonth: nat, entryDay: nat)
    requires number != 1
    requires st.is_active && HasRequiredFields(st) && st.phone != Some("")
    requires '/' !in birthYear && '/' !in entryYear
    requires st.birth_date == IsoDate(birthYear, birthMonth, birthDay)
    requires localeDate(st.birth_date) == IdDate(birthYear, birthMonth, birthDay)
    requires st.enrollment_date == IsoDate(entryYear, entryMonth, entryDay)
    requires localeDate(st.enrollment_date) == IdDate(entryYear, entryMonth, entryDay)
    ensures Accepted(ImportRowOf(number, StudentExportRow(st, localeDate)))
    ensures RowToStudent(ImportRowOf(number, StudentExportRow(st, localeDate))) == st
  {
    ImportedExportCells(st, localeDate, number);
    ImportOfFields(ImportRowOf(number, StudentExportRow(st, localeDate)), st,
                   birthYear, birthMonth, birthDay, entryYear, entryMonth, entryDay);
  }

  /**
   * The template's example row, if left in place, is imported like any
   * other row: it is accepted and yields an active male student "S001".
   */
  lemma TemplateSampleIsAccepted(row: SheetRow)
    requires row == ImportRowOf(2, RowFromKeys(TemplateColumns, SampleRowValues))
    ensures Accepted(row)
    ensures var st := RowToStudent(row);
      st.student_id == "S001" && st.full_name == "Ahmad Fauzi" && st.gender == MALE
      && st.phone == Some("081234567890") && st.is_active
  {
    assert RowFromKeys(TemplateColumns, SampleRowValues) == [
      Text("S001"), Text("Ahmad Fauzi"), Text("Laki-laki"), Text("01/01/2005"), Text("Jakarta"),
      Text("Jl. Contoh No. 123"), Text("081234567890"), Text("Budi Santoso"), Text("081234567891"),
      Text("01/07/2024")];
  }
}
