/**
 * The dashboard (app/dashboard/page.tsx): the status label of a recent
 * attendance row, the semester totals folded over all attendance rows,
 * and the four entity counters. The labels are kept exactly as the page
 * source spells them, including their mis-encoded emoji prefixes.
 */
module Dashboard {
  import opened Records
  import AttendancePage

  /** The three counters of an attendance row; a missing value is None. */
  datatype CounterRow = CounterRow(sakit: Option<int>, izin: Option<int>, absen: Option<int>)

  /** `x > 0` on a possibly missing counter (a missing value is not positive). */
  predicate Positive(x: Option<int>)
  {
    x.Some? && x.value > 0
  }

  const SickLabel: string := "\U{F8FF}\U{FC}\U{A7}\U{ED} Sakit"
  const PermissionLabel: string := "\U{F8FF}\U{FC}\U{EC}\U{F9} Izin"
  const AbsentLabel: string := "\U{201A}\U{F9}\U{E5} Tidak Hadir"
  const NeutralLabel: string := "Catatan Kehadiran"

  /** `getStatusFromKehadiran`: sakit, then izin, then absen decide by priority; no positive counter gives the neutral label. */
  function StatusLabel(r: CounterRow): (text: string)
    ensures text == SickLabel <==> Positive(r.sakit)
    ensures text == PermissionLabel <==> !Positive(r.sakit) && Positive(r.izin)
    ensures text == AbsentLabel <==> !Positive(r.sakit) && !Positive(r.izin) && Positive(r.absen)
    ensures text == NeutralLabel <==> !Positive(r.sakit) && !Positive(r.izin) && !Positive(r.absen)
  {
    LabelsDistinct();
    if Positive(r.sakit) then SickLabel
    else if Positive(r.izin) then PermissionLabel
    else if Positive(r.absen) then AbsentLabel
    else NeutralLabel
  }

  /** The four labels are pairwise different. */
  lemma LabelsDistinct()
    ensures SickLabel != PermissionLabel && SickLabel != AbsentLabel && SickLabel != NeutralLabel
    ensures PermissionLabel != AbsentLabel && PermissionLabel != NeutralLabel && AbsentLabel != NeutralLabel
  {
    assert SickLabel[2] != PermissionLabel[2];
    assert SickLabel[0] != AbsentLabel[0] && SickLabel[0] != NeutralLabel[0];
    assert PermissionLabel[0] != AbsentLabel[0] && PermissionLabel[0] != NeutralLabel[0];
    assert AbsentLabel[0] != NeutralLabel[0];
  }

  /** The label the dashboard shows for each status of the attendance page. */
  function LabelOfStatus(status: AttendancePage.UiStatus): string
  {
    match status
    case SAKIT => SickLabel
    case IZIN => PermissionLabel
    case ABSEN => AbsentLabel
    case HADIR => NeutralLabel
  }

  function RowOf(r: AttendancePage.KehadiranRecord): CounterRow
  {
    CounterRow(Some(r.sakit), Some(r.izin), Some(r.absen))
  }

  /** The dashboard and the attendance page read a stored row alike: the label is that of the page's status. */
  lemma LabelAgreesWithPage(r: AttendancePage.KehadiranRecord)
    ensures StatusLabel(RowOf(r)) == LabelOfStatus(AttendancePage.StatusFromRecord(Some(r)))
  {
  }

  // ---------------------------------------------------------------------
  // Semester totals

  datatype Totals = Totals(sakit: int, izin: int, absen: int)

  const NoTotals: Totals := Totals(0, 0, 0)

  function Plus(t: Totals, u: Totals): Totals
  {
    Totals(t.sakit + u.sakit, t.izin + u.izin, t.absen + u.absen)
  }

  /** Every counter that is present in the rows is at least 0. */
  predicate NoNegativeCounters(rows: seq<CounterRow>)
  {
    forall k :: 0 <= k < |rows| ==> rows[k].sakit.GetOr(0) >= 0 && rows[k].izin.GetOr(0) >= 0 && rows[k].absen.GetOr(0) >= 0
  }

  /** The `reduce`: each counter summed over all rows, a missing counter adding 0. */
  function SumTotals(rows: seq<CounterRow>): Totals
  {
    if |rows| == 0 then NoTotals
    else
      var r := rows[|rows| - 1];
      Plus(SumTotals(rows[..|rows| - 1]), Totals(r.sakit.GetOr(0), r.izin.GetOr(0), r.absen.GetOr(0)))
  }

  /** The totals shown: the fold over the rows, or all zeros when the query returned no data. */
  function AttendanceTotals(data: Option<seq<CounterRow>>): (totals: Totals)
    ensures data.None? ==> totals == NoTotals
    ensures data.Some? ==> totals == SumTotals(data.value)
    ensures data.Some? && |data.value| == 0 ==> totals == NoTotals
  {
    if data.Some? then SumTotals(data.value) else NoTotals
  }

  /** Rows whose present counters are never negative give totals that are never negative. */
  lemma {:induction false} TotalsNonNegative(rows: seq<CounterRow>)
    requires NoNegativeCounters(rows)
    ensures SumTotals(rows).sakit >= 0 && SumTotals(rows).izin >= 0 && SumTotals(rows).absen >= 0
  {
    if |rows| > 0 {
      var init := rows[..|rows| - 1];
      assert forall k :: 0 <= k < |init| ==> init[k] == rows[k];
      TotalsNonNegative(init);
    }
  }

  /** Totals are additive: the totals of two batches of rows add up. */
  lemma {:induction false} TotalsAppend(a: seq<CounterRow>, b: seq<CounterRow>)
    ensures SumTotals(a + b) == Plus(SumTotals(a), SumTotals(b))
  {
    if |b| > 0 {
      var init := b[..|b| - 1];
      assert (a + b)[..|a + b| - 1] == a + init;
      assert (a + b)[|a + b| - 1] == b[|b| - 1];
      TotalsAppend(a, init);
    } else {
      assert a + b == a;
    }
  }

  /** Rows with all counters missing add nothing. */
  lemma {:induction false} EmptyRowsAddNothing(rows: seq<CounterRow>)
    requires forall k :: 0 <= k < |rows| ==> rows[k] == CounterRow(None, None, None)
    ensures SumTotals(rows) == NoTotals
  {
    if |rows| > 0 {
      EmptyRowsAddNothing(rows[..|rows| - 1]);
    }
  }

  /** Over the page's stored rows the dashboard totals are the page's own counter sums. */
  lemma {:induction false} TotalsAgreeWithPage(records: seq<AttendancePage.KehadiranRecord>)
    ensures var t := SumTotals(seq(|records|, k requires 0 <= k < |records| => RowOf(records[k])));
      t.sakit == AttendancePage.Sum(records, AttendancePage.Sakit)
      && t.izin == AttendancePage.Sum(records, AttendancePage.Izin)
      && t.absen == AttendancePage.Sum(records, AttendancePage.Absen)
  {
    var rows := seq(|records|, k requires 0 <= k < |records| => RowOf(records[k]));
    if |records| > 0 {
      var init := records[..|records| - 1];
      TotalsAgreeWithPage(init);
      assert rows[..|rows| - 1] == seq(|init|, k requires 0 <= k < |init| => RowOf(init[k]));
    }
  }

  // ---------------------------------------------------------------------
  // Entity counters

  datatype StatCard = StatCard(title: string, value: int)

  /** The four cards: a count the query did not return shows as 0. */
  function StatCards(students: Option<int>, teachers: Option<int>, classes: Option<int>, subjects: Option<int>)
    : (cards: seq<StatCard>)
    ensures |cards| == 4
    ensures cards[0].title == "Total Siswa" && cards[1].title == "Total Guru"
    ensures cards[2].title == "Total Kelas" && cards[3].title == "Mata Pelajaran"
    ensures students.Some? ==> cards[0].value == students.value
    ensures teachers.Some? ==> cards[1].value == teachers.value
    ensures classes.Some? ==> cards[2].value == classes.value
    ensures subjects.Some? ==> cards[3].value == subjects.value
    ensures forall k :: 0 <= k < 4 && cards[k].value != 0 ==>
      [students, teachers, classes, subjects][k].Some?
  {
    [StatCard("Total Siswa", students.GetOr(0)), StatCard("Total Guru", teachers.GetOr(0)),
     StatCard("Total Kelas", classes.GetOr(0)), StatCard("Mata Pelajaran", subjects.GetOr(0))]
  }
}
