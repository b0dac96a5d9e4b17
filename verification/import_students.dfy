/**
 * The student bulk-import endpoint (app/api/import/students/route.ts):
 * authentication and upload guards, parsing, then one create call per
 * candidate with a running tally of successes, failures and per-row error
 * messages, and the summary message.
 *
 * The database insert is an oracle `create`, given the candidate's
 * position and the candidate, so an outcome may depend on what earlier
 * inserts did (a duplicate student code, say).
 */
module ImportStudents {
  import opened Text
  import opened Records
  import Excel

  /** What a failing create throws: an `Error` carrying a message, or any other value. */
  datatype Thrown = ErrorObject(message: string) | OtherValue

  datatype CreateOutcome = Created | Threw(thrown: Thrown)

  /** The counters and messages the endpoint accumulates. */
  datatype ImportResults = ImportResults(success: nat, failed: nat, errors: seq<string>)

  /** The uploaded form field: missing, a buffer the workbook reader rejects, or a readable workbook. */
  datatype Upload = NoFile | Unreadable | Workbook(book: Excel.ImportWorkbook)

  datatype Response =
    | Unauthorized            // 401
    | NoFileProvided          // 400
    | InternalServerError     // 500
    | Imported(message: string, results: ImportResults)

  /** The text reported for a thrown value; a non-Error value reads "Unknown error". */
  function ThrownMessage(t: Thrown): (message: string)
    ensures t.ErrorObject? ==> message == t.message
    ensures t.OtherValue? ==> message == "Unknown error"
  {
    match t
    case ErrorObject(m) => m
    case OtherValue => "Unknown error"
  }

  /** The error line for the candidate at 0-based position `index`: it is numbered `index + 2`. */
  function ErrorLine(index: nat, t: Thrown): (line: string)
    ensures StartsWith(line, "Baris ")
    ensures StartsWith(line, "Baris " + NatToString(index + 2) + ": ")
    ensures |line| == 8 + |NatToString(index + 2)| + |ThrownMessage(t)|
  {
    "Baris " + NatToString(index + 2) + ": " + ThrownMessage(t)
  }

  /** An error line ends with what was thrown, after the row number and ": ". */
  lemma ErrorLineCarriesMessage(index: nat, t: Thrown)
    ensures EndsWith(ErrorLine(index, t), ": " + ThrownMessage(t))
  {
    var head := "Baris " + NatToString(index + 2);
    assert ErrorLine(index, t) == head + (": " + ThrownMessage(t));
  }

  /** The results after the first `n` candidates have been attempted. */
  function Tally(candidates: seq<Student>, create: (nat, Student) -> CreateOutcome, n: nat): (r: ImportResults)
    requires n <= |candidates|
    ensures r.success + r.failed == n
    ensures |r.errors| == r.failed
  {
    if n == 0 then ImportResults(0, 0, [])
    else
      var prev := Tally(candidates, create, n - 1);
      match create(n - 1, candidates[n - 1])
      case Created => ImportResults(prev.success + 1, prev.failed, prev.errors)
      case Threw(t) => ImportResults(prev.success, prev.failed + 1, prev.errors + [ErrorLine(n - 1, t)])
  }

  /** "Import selesai. {success} berhasil, {failed} gagal." */
  function SummaryMessage(r: ImportResults): (message: string)
    ensures StartsWith(message, "Import selesai. " + NatToString(r.success) + " berhasil, ")
    ensures EndsWith(message, NatToString(r.failed) + " gagal.")
    ensures |message| == 16 + |NatToString(r.success)| + 11 + |NatToString(r.failed)| + 7
  {
    "Import selesai. " + NatToString(r.success) + " berhasil, " + NatToString(r.failed) + " gagal."
  }

  /**
   * The per-candidate loop: every candidate is attempted, in list order,
   * whatever happened to the ones before it.
   */
  method ProcessCandidates(candidates: seq<Student>, create: (nat, Student) -> CreateOutcome)
    returns (results: ImportResults)
    ensures results == Tally(candidates, create, |candidates|)
    ensures results.success + results.failed == |candidates|
    ensures |results.errors| == results.failed
  {
    var success, failed, errors := 0, 0, [];
    for index := 0 to |candidates|
      invariant ImportResults(success, failed, errors) == Tally(candidates, create, index)
    {
      var outcome := create(index, candidates[index]);
      match outcome {
        case Created =>
          success := success + 1;
        case Threw(t) =>
          failed := failed + 1;
          errors := errors + [ErrorLine(index, t)];
      }
    }
    results := ImportResults(success, failed, errors);
  }

  /**
   * `POST`: 401 without a user, then 400 without a file; 500 when the
   * workbook cannot be read or has no first worksheet; otherwise the tally
   * of the parsed candidates with its summary message.
   */
  method ImportStudentsRoute(user: bool, upload: Upload, create: (nat, Student) -> CreateOutcome)
    returns (response: Response)
    ensures !user ==> response == Unauthorized
    ensures user && upload.NoFile? ==> response == NoFileProvided
    ensures user && (upload.Unreadable? || (upload.Workbook? && upload.book.sheets == [])) ==>
      response == InternalServerError
    ensures user && upload.Workbook? && upload.book.sheets != [] ==>
      var candidates := Excel.ParsedStudents(upload.book.sheets[0].rows);
      var results := Tally(candidates, create, |candidates|);
      response == Imported(SummaryMessage(results), results)
  {
    if !user {
      return Unauthorized;
    }
    if upload.NoFile? {
      return NoFileProvided;
    }
    if upload.Unreadable? {
      return InternalServerError;
    }
    var parsed := Excel.ParseStudentImport(upload.book);
    if parsed.Err? {
      return InternalServerError;
    }
    var results := ProcessCandidates(parsed.value, create);
    response := Imported(SummaryMessage(results), results);
  }

  /** Attempting more candidates only appends: earlier counts and messages stay as they were. */
  lemma {:induction false} TallyExtends(candidates: seq<Student>, create: (nat, Student) -> CreateOutcome, m: nat, n: nat)
    requires m <= n <= |candidates|
    ensures Tally(candidates, create, m).success <= Tally(candidates, create, n).success
    ensures Tally(candidates, create, m).failed <= Tally(candidates, create, n).failed
    ensures Tally(candidates, create, m).errors <= Tally(candidates, create, n).errors
    decreases n - m
  {
    if m < n {
      TallyExtends(candidates, create, m, n - 1);
    }
  }

  /** Every failing candidate gets its line in the final error list, whatever failed before it. */
  lemma {:induction false} FailureIsReported(candidates: seq<Student>, create: (nat, Student) -> CreateOutcome, j: nat, n: nat)
    requires j < n <= |candidates|
    requires create(j, candidates[j]).Threw?
    ensures ErrorLine(j, create(j, candidates[j]).thrown) in Tally(candidates, create, n).errors
  {
    TallyExtends(candidates, create, j + 1, n);
    var errors := Tally(candidates, create, j + 1).errors;
    assert errors[|errors| - 1] == ErrorLine(j, create(j, candidates[j]).thrown);
    assert errors <= Tally(candidates, create, n).errors;
  }

  /** Every error line names a failing candidate, by its position plus two. */
  lemma {:induction false} ReportedIsFailure(candidates: seq<Student>, create: (nat, Student) -> CreateOutcome, n: nat, line: string)
    requires n <= |candidates|
    requires line in Tally(candidates, create, n).errors
    ensures exists j :: (0 <= j < n && create(j, candidates[j]).Threw? &&
                         line == ErrorLine(j, create(j, candidates[j]).thrown))
  {
    var prev := Tally(candidates, create, n - 1);
    var outcome := create(n - 1, candidates[n - 1]);
    if line in prev.errors {
      ReportedIsFailure(candidates, create, n - 1, line);
    } else {
      assert outcome.Threw? && line == ErrorLine(n - 1, outcome.thrown);
    }
  }

  /** When every create succeeds, everything is counted as a success and there are no error lines. */
  lemma {:induction false} AllCreated(candidates: seq<Student>, create: (nat, Student) -> CreateOutcome, n: nat)
    requires n <= |candidates|
    requires forall j :: 0 <= j < n ==> create(j, candidates[j]) == Created
    ensures Tally(candidates, create, n) == ImportResults(n, 0, [])
  {
    if n > 0 {
      AllCreated(candidates, create, n - 1);
    }
  }

  /** Different positions give different error lines, even for the same message. */
  lemma ErrorLinesDistinct(i: nat, j: nat, t: Thrown, u: Thrown)
    requires i != j
    ensures ErrorLine(i, t) != ErrorLine(j, u)
  {
    var ni, nj := NatToString(i + 2), NatToString(j + 2);
    if ErrorLine(i, t) == ErrorLine(j, u) {
      // The number runs up to the first ':' after "Baris ".
      assert ':' !in ni && ':' !in nj by {
        DigitsExclude(ni, ':');
        DigitsExclude(nj, ':');
      }
      NumberBeforeColon(ni, ThrownMessage(t), nj, ThrownMessage(u));
      NatToStringInjective(i + 2, j + 2);
    }
  }

  /** Two "Baris {number}: {rest}" texts that are equal have equal numbers, when neither number has a ':'. */
  lemma NumberBeforeColon(a: string, x: string, b: string, y: string)
    requires ':' !in a && ':' !in b
    requires "Baris " + a + ": " + x == "Baris " + b + ": " + y
    ensures a == b
  {
    var s := ("Baris " + a + ": " + x)[6..];
    assert s == a + (": " + x);
    assert s == b + (": " + y);
    IndexOfAfter(a, ": " + x, ':');
    IndexOfAfter(b, ": " + y, ':');
    assert a == s[..|a|] && b == s[..|b|];
  }
}
