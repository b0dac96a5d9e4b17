/**
 * The attendance page (app/dashboard/attendance/page.tsx): the per-student
 * attendance map the page edits, the encoding of a UI status as three 0/1
 * counters and its decoding, the counters shown above the list, and the
 * reset of the map when a filter changes. Fetching and saving are not
 * modelled.
 */
module AttendancePage {
  import opened Records

  /** The status a teacher picks for a student. */
  datatype UiStatus = HADIR | SAKIT | IZIN | ABSEN

  datatype Siswa = Siswa(id: string, nama: string, nis: string)

  /** One entry of the attendance map; `id` is absent until the entry has been stored. */
  datatype KehadiranRecord = KehadiranRecord(
    id: Option<string>, siswaId: string, indikatorId: string,
    izin: int, sakit: int, absen: int, semester: string, tahunAjaran: string)

  const DefaultIndicator: string := "default-indicator-id"
  const DefaultSemester: string := "GANJIL"
  const DefaultAcademicYear: string := "2024/2025"

  /** `getStatusFromRecord`: no entry is HADIR; otherwise sakit, then izin, then absen decide, by priority. */
  function StatusFromRecord(record: Option<KehadiranRecord>): (status: UiStatus)
    ensures status == SAKIT <==> record.Some? && record.value.sakit > 0
    ensures status == IZIN <==> record.Some? && record.value.sakit <= 0 && record.value.izin > 0
    ensures status == ABSEN <==>
      record.Some? && record.value.sakit <= 0 && record.value.izin <= 0 && record.value.absen > 0
  {
    if record.None? then HADIR
    else if record.value.sakit > 0 then SAKIT
    else if record.value.izin > 0 then IZIN
    else if record.value.absen > 0 then ABSEN
    else HADIR
  }

  /**
   * The entry `updateAttendance` stores: the previous entry's fields
   * overwritten, so only its `id` survives, with the counter of the
   * chosen status at 1, the others at 0, and the placeholder indicator,
   * semester and academic year.
   */
  function UpdatedRecord(prev: Option<KehadiranRecord>, siswaId: string, status: UiStatus): (r: KehadiranRecord)
    ensures r.id == (if prev.Some? then prev.value.id else None)
    ensures r.siswaId == siswaId && r.indikatorId == DefaultIndicator
    ensures r.semester == DefaultSemester && r.tahunAjaran == DefaultAcademicYear
    ensures r.izin == (if status == IZIN then 1 else 0)
    ensures r.sakit == (if status == SAKIT then 1 else 0)
    ensures r.absen == (if status == ABSEN then 1 else 0)
  {
    KehadiranRecord(
      if prev.Some? then prev.value.id else None, siswaId, DefaultIndicator,
      if status == IZIN then 1 else 0, if status == SAKIT then 1 else 0, if status == ABSEN then 1 else 0,
      DefaultSemester, DefaultAcademicYear)
  }

  /** Each counter is 0 or 1 and at most one is 1: the shape every stored entry has. */
  predicate OneHot(r: KehadiranRecord)
  {
    0 <= r.izin && 0 <= r.sakit && 0 <= r.absen && r.izin + r.sakit + r.absen <= 1
  }

  /** Decoding the entry stored for a status gives that status back, and the entry is one-hot. */
  lemma EncodeThenDecode(prev: Option<KehadiranRecord>, siswaId: string, status: UiStatus)
    ensures StatusFromRecord(Some(UpdatedRecord(prev, siswaId, status))) == status
    ensures OneHot(UpdatedRecord(prev, siswaId, status))
  {
  }

  /** Storing the status a one-hot entry already shows leaves its counters as they were. */
  lemma DecodeThenEncode(r: KehadiranRecord)
    requires OneHot(r)
    ensures var u := UpdatedRecord(Some(r), r.siswaId, StatusFromRecord(Some(r)));
      u.izin == r.izin && u.sakit == r.sakit && u.absen == r.absen && u.id == r.id
  {
  }

  function Lookup(m: map<string, KehadiranRecord>, key: string): Option<KehadiranRecord>
  {
    if key in m then Some(m[key]) else None
  }

  /**
   * The shape of the page's map: `order` lists its keys once each in
   * insertion order, and each entry belongs to its key and is one-hot.
   */
  ghost predicate ValidEntries(order: seq<string>, attendance: map<string, KehadiranRecord>)
  {
    && (forall i, j :: 0 <= i < j < |order| ==> order[i] != order[j])
    && (forall key :: key in attendance <==> key in order)
    && (forall key :: key in attendance ==> attendance[key].siswaId == key && OneHot(attendance[key]))
  }

  /** `Object.values(attendance)`: the entries in key insertion order. */
  function Values(order: seq<string>, attendance: map<string, KehadiranRecord>): (values: seq<KehadiranRecord>)
    requires forall key :: key in order ==> key in attendance
    ensures |values| == |order|
    ensures forall i :: 0 <= i < |order| ==> values[i] == attendance[order[i]]
  {
    seq(|order|, i requires 0 <= i < |order| => attendance[order[i]])
  }

  // ---------------------------------------------------------------------
  // Counters shown above the list

  datatype Counter = Izin | Sakit | Absen

  function CounterOf(r: KehadiranRecord, c: Counter): int
  {
    match c
    case Izin => r.izin
    case Sakit => r.sakit
    case Absen => r.absen
  }

  /** The `reduce` over the entries: the sum of one counter. */
  function Sum(records: seq<KehadiranRecord>, c: Counter): int
  {
    if |records| == 0 then 0
    else Sum(records[..|records| - 1], c) + CounterOf(records[|records| - 1], c)
  }

  /** The number of entries that decode to a status other than HADIR. */
  function CountMarked(records: seq<KehadiranRecord>): (n: nat)
    ensures n <= |records|
  {
    if |records| == 0 then 0
    else CountMarked(records[..|records| - 1]) + (if StatusFromRecord(Some(records[|records| - 1])) != HADIR then 1 else 0)
  }

  datatype PageStats = PageStats(sakit: int, izin: int, absen: int, total: nat, present: int)

  /** `getAttendanceStats` and the present count: the three sums, the number of students, and what remains. */
  function StatsOf(records: seq<KehadiranRecord>, studentCount: nat): (stats: PageStats)
    ensures stats.sakit == Sum(records, Sakit) && stats.izin == Sum(records, Izin) && stats.absen == Sum(records, Absen)
    ensures stats.total == studentCount
    ensures stats.present + stats.sakit + stats.izin + stats.absen == stats.total
  {
    var sakit := Sum(records, Sakit);
    var izin := Sum(records, Izin);
    var absen := Sum(records, Absen);
    PageStats(sakit, izin, absen, studentCount, studentCount - (sakit + izin + absen))
  }

  /** Over one-hot entries the three sums together count the entries marked other than HADIR. */
  lemma {:induction false} SumsCountMarked(records: seq<KehadiranRecord>)
    requires forall i :: 0 <= i < |records| ==> OneHot(records[i])
    ensures Sum(records, Sakit) + Sum(records, Izin) + Sum(records, Absen) == CountMarked(records)
    ensures Sum(records, Sakit) >= 0 && Sum(records, Izin) >= 0 && Sum(records, Absen) >= 0
  {
    if |records| > 0 {
      SumsCountMarked(records[..|records| - 1]);
    }
  }

  /** The set of ids of a student list. */
  function StudentIds(students: seq<Siswa>): set<string>
  {
    set i | 0 <= i < |students| :: students[i].id
  }

  lemma {:induction false} StudentIdsBound(students: seq<Siswa>)
    ensures |StudentIds(students)| <= |students|
  {
    if |students| > 0 {
      var init := students[..|students| - 1];
      StudentIdsBound(init);
      assert StudentIds(students) == StudentIds(init) + {students[|students| - 1].id} by {
        forall x | x in StudentIds(students) ensures x in StudentIds(init) + {students[|students| - 1].id} {
          var i :| 0 <= i < |students| && students[i].id == x;
          if i < |students| - 1 {
            assert init[i] == students[i];
          }
        }
        forall x | x in StudentIds(init) ensures x in StudentIds(students) {
          var i :| 0 <= i < |init| && init[i].id == x;
          assert students[i] == init[i];
        }
      }
    }
  }

  lemma {:induction false} SubsetSize(a: set<string>, b: set<string>)
    requires a <= b
    ensures |a| <= |b|
    decreases |a|
  {
    if a != {} {
      var x :| x in a;
      SubsetSize(a - {x}, b - {x});
    }
  }

  lemma {:induction false} DistinctSize(order: seq<string>)
    requires forall i, j :: 0 <= i < j < |order| ==> order[i] != order[j]
    ensures |set key | key in order| == |order|
  {
    if |order| > 0 {
      var init := order[..|order| - 1];
      DistinctSize(init);
      var last := order[|order| - 1];
      assert (set key | key in order) == (set key | key in init) + {last} by {
        assert order == init + [last];
      }
      assert last !in init by {
        forall i | 0 <= i < |init| ensures init[i] != last {
          assert init[i] == order[i];
        }
      }
    }
  }

  /**
   * When every key of the map is the id of a listed student, the present
   * count is never negative: each student adds at most one to the three sums.
   */
  lemma PresentNonNegative(order: seq<string>, attendance: map<string, KehadiranRecord>, students: seq<Siswa>)
    requires ValidEntries(order, attendance)
    requires forall key :: key in attendance ==> key in StudentIds(students)
    ensures StatsOf(Values(order, attendance), |students|).present >= 0
  {
    var values := Values(order, attendance);
    SumsCountMarked(values);
    DistinctSize(order);
    var keys := set key | key in order;
    assert keys <= StudentIds(students);
    SubsetSize(keys, StudentIds(students));
    StudentIdsBound(students);
  }

  // ---------------------------------------------------------------------
  // The page's state

  class AttendancePageState {
    var selectedDate: string
    var selectedClass: string
    var selectedSubject: string
    var students: seq<Siswa>
    /** The map's keys in insertion order (the order `Object.values` follows). */
    var order: seq<string>
    var attendance: map<string, KehadiranRecord>

    ghost predicate Valid()
      reads this
    {
      ValidEntries(order, attendance)
    }

    /** The page on first render: today's date, no class, no subject, no students, an empty map. */
    constructor(today: string)
      ensures Valid()
      ensures selectedDate == today && selectedClass == "" && selectedSubject == ""
      ensures students == [] && order == [] && attendance == map[]
    {
      selectedDate := today;
      selectedClass := "";
      selectedSubject := "";
      students := [];
      order := [];
      attendance := map[];
    }

    /** The status shown for a student. */
    function StatusOf(siswaId: string): UiStatus
      reads this
    {
      StatusFromRecord(Lookup(attendance, siswaId))
    }

    /** The counters shown above the list. */
    function Stats(): PageStats
      reads this
      requires Valid()
    {
      StatsOf(Values(order, attendance), |students|)
    }

    /** The filter effect: a changed filter empties the map. */
    method ResetIfChanged(changed: bool)
      modifies this
      requires Valid()
      ensures Valid()
      ensures changed ==> order == [] && attendance == map[]
      ensures !changed ==> order == old(order) && attendance == old(attendance)
      ensures selectedDate == old(selectedDate) && selectedClass == old(selectedClass)
      ensures selectedSubject == old(selectedSubject) && students == old(students)
    {
      if changed {
        order := [];
        attendance := map[];
      }
    }

    /** Picking a date; a different date empties the map. */
    method SelectDate(date: string)
      modifies this
      requires Valid()
      ensures Valid()
      ensures selectedDate == date && selectedClass == old(selectedClass) && selectedSubject == old(selectedSubject)
      ensures students == old(students)
      ensures date != old(selectedDate) ==> order == [] && attendance == map[]
      ensures date == old(selectedDate) ==> order == old(order) && attendance == old(attendance)
    {
      var changed := date != selectedDate;
      selectedDate := date;
      ResetIfChanged(changed);
    }

    /** Picking a class; a different class empties the map. */
    method SelectClass(classId: string)
      modifies this
      requires Valid()
      ensures Valid()
      ensures selectedClass == classId && selectedDate == old(selectedDate) && selectedSubject == old(selectedSubject)
      ensures students == old(students)
      ensures classId != old(selectedClass) ==> order == [] && attendance == map[]
      ensures classId == old(selectedClass) ==> order == old(order) && attendance == old(attendance)
    {
      var changed := classId != selectedClass;
      selectedClass := classId;
      ResetIfChanged(changed);
    }

    /** Picking a subject; a different subject empties the map. */
    method SelectSubject(subjectId: string)
      modifies this
      requires Valid()
      ensures Valid()
      ensures selectedSubject == subjectId && selectedDate == old(selectedDate) && selectedClass == old(selectedClass)
      ensures students == old(students)
      ensures subjectId != old(selectedSubject) ==> order == [] && attendance == map[]
      ensures subjectId == old(selectedSubject) ==> order == old(order) && attendance == old(attendance)
    {
      var changed := subjectId != selectedSubject;
      selectedSubject := subjectId;
      ResetIfChanged(changed);
    }

    /** The student list fetched for the selected class replaces the previous one. */
    method SetStudents(fetched: seq<Siswa>)
      modifies this
      requires Valid()
      ensures Valid()
      ensures students == fetched
      ensures order == old(order) && attendance == old(attendance)
      ensures selectedDate == old(selectedDate) && selectedClass == old(selectedClass)
      ensures selectedSubject == old(selectedSubject)
    {
      students := fetched;
    }

    /**
     * `updateAttendance`: the student's entry is replaced by the encoding
     * of the status, keeping only its `id`; a new key joins the end of the
     * key order; every other entry stays as it was.
     */
    method UpdateAttendance(siswaId: string, status: UiStatus)
      modifies this
      requires Valid()
      ensures Valid()
      ensures attendance == old(attendance)[siswaId := UpdatedRecord(Lookup(old(attendance), siswaId), siswaId, status)]
      ensures order == if siswaId in old(attendance) then old(order) else old(order) + [siswaId]
      ensures StatusOf(siswaId) == status
      ensures forall other :: other != siswaId ==> Lookup(attendance, other) == Lookup(old(attendance), other)
      ensures selectedDate == old(selectedDate) && selectedClass == old(selectedClass)
      ensures selectedSubject == old(selectedSubject) && students == old(students)
    {
      var entry := UpdatedRecord(Lookup(attendance, siswaId), siswaId, status);
      EncodeThenDecode(Lookup(attendance, siswaId), siswaId, status);
      if siswaId !in attendance {
        order := order + [siswaId];
      }
      attendance := attendance[siswaId := entry];
    }
  }
}
