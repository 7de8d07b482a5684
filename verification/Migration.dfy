/** The apply path of scripts/migrate-sqlite-to-postgres.mjs: import, reseed, verify, commit or roll back. */
module Migration {
  import opened Json
  import opened Wrappers
  import opened MigrationRows

  // ---------------------------------------------------------------- the three tables are well described

  /** Length and first letter tell the property names of each table apart. */
  function Mark(s: string): int {
    if s == [] then 0 else 1000 * |s| + (s[0] as int) % 0x1_0000
  }

  const WORKER_MARKS := [2105, 4110, 7118, 7098, 6115, 9100, 6108, 12099, 16097, 13097, 10119, 14109, 4103, 10108, 9099, 9117]
  const JOB_MARKS := [2105, 9112, 4116, 8112, 6115, 8103, 10109, 20114, 14114, 7112, 6114, 5101, 16097, 15097, 7108, 14108, 7097, 11109, 14105, 9099, 9117]

  lemma DifferentMarks(a: string, b: string)
    requires Mark(a) != Mark(b)
    ensures Units(a) != Units(b)
  {
    if a != [] && |a| == |b| {
      assert Units(a)[0] != Units(b)[0];
    }
  }

  lemma WorkerMark(i: int)
    requires 0 <= i < 16
    ensures Mark(WORKERS[i].property) == WORKER_MARKS[i]
  {
  }

  lemma JobMark(i: int)
    requires 0 <= i < 21
    ensures Mark(JOBS[i].property) == JOB_MARKS[i]
  {
  }

  lemma WorkerPair(i: int, j: int)
    requires 0 <= i < j < 16
    ensures Units(WORKERS[i].property) != Units(WORKERS[j].property)
  {
    WorkerMark(i);
    WorkerMark(j);
    assert WORKER_MARKS[i] != WORKER_MARKS[j];
    hide Units;
    DifferentMarks(WORKERS[i].property, WORKERS[j].property);
  }

  lemma WorkerColumns()
    ensures SoundColumns(WORKERS)
  {
    hide Units;
    forall i, j | 0 <= i < j < 16 ensures Units(WORKERS[i].property) != Units(WORKERS[j].property) {
      WorkerPair(i, j);
    }
  }

  lemma JobPair(i: int, j: int)
    requires 0 <= i < j < 21
    ensures Units(JOBS[i].property) != Units(JOBS[j].property)
  {
    JobMark(i);
    JobMark(j);
    assert JOB_MARKS[i] != JOB_MARKS[j];
    hide Units;
    DifferentMarks(JOBS[i].property, JOBS[j].property);
  }

  lemma JobColumns()
    ensures SoundColumns(JOBS)
  {
    hide Units;
    forall i, j | 0 <= i < j < 21 ensures Units(JOBS[i].property) != Units(JOBS[j].property) {
      JobPair(i, j);
    }
  }

  lemma EventColumns()
    ensures SoundColumns(EVENTS)
  {
    forall i, j | 0 <= i < j < 5 ensures Units(EVENTS[i].property) != Units(EVENTS[j].property) {
      assert Mark(EVENTS[i].property) != Mark(EVENTS[j].property);
      DifferentMarks(EVENTS[i].property, EVENTS[j].property);
    }
  }

  // ---------------------------------------------------------------- data and summaries

  datatype Data = Data(workers: seq<Row>, jobs: seq<Row>, events: seq<Row>)

  ghost predicate FitsTable(cols: seq<Column>, rows: seq<Row>) {
    forall i | 0 <= i < |rows| :: FitsRow(cols, rows[i])
  }

  ghost predicate FitsData(d: Data) {
    FitsTable(WORKERS, d.workers) && FitsTable(JOBS, d.jobs) && FitsTable(EVENTS, d.events)
  }

  const STATUS := 4   // the status column of workers and of jobs
  const SEQUENCE := 0 // the sequence column of events

  function Objects(cols: seq<Column>, rows: seq<Row>): (r: seq<Value>)
    requires forall i | 0 <= i < |rows| :: |rows[i]| == |cols|
    ensures |r| == |rows|
  {
    seq(|rows|, i requires 0 <= i < |rows| => RowObject(cols, rows[i]))
  }

  /** The hash of the canonical JSON text, taken to be injective: the canonical form itself. */
  function Fingerprint(cols: seq<Column>, rows: seq<Row>): Value
    requires forall i | 0 <= i < |rows| :: |rows[i]| == |cols|
  {
    Canonicalize(Arr(Objects(cols, rows)))
  }

  function Counted(counts: map<Value, nat>, v: Value): map<Value, nat> {
    counts[v := (if v in counts then counts[v] else 0) + 1]
  }

  function Statuses(rows: seq<Row>): map<Value, nat>
    requires forall i | 0 <= i < |rows| :: |rows[i]| > STATUS
  {
    if rows == [] then map[] else Counted(Statuses(rows[..|rows| - 1]), rows[|rows| - 1][STATUS])
  }

  function MaxSequence(rows: seq<Row>): Option<int>
    requires forall i | 0 <= i < |rows| :: |rows[i]| > SEQUENCE && rows[i][SEQUENCE].Num?
  {
    if rows == [] then None
    else
      var n, rest := rows[|rows| - 1][SEQUENCE].n, MaxSequence(rows[..|rows| - 1]);
      if rest.Some? && rest.value > n then rest else Some(n)
  }

  datatype Summary = Summary(
    counts: (nat, nat, nat),
    workerStatuses: map<Value, nat>,
    jobStatuses: map<Value, nat>,
    maxSequence: Option<int>,
    fingerprints: (Value, Value, Value))

  ghost predicate Shaped(d: Data) {
    && (forall i | 0 <= i < |d.workers| :: |d.workers[i]| == |WORKERS|)
    && (forall i | 0 <= i < |d.jobs| :: |d.jobs[i]| == |JOBS|)
    && (forall i | 0 <= i < |d.events| :: |d.events[i]| == |EVENTS| && d.events[i][SEQUENCE].Num?)
  }

  function Summarize(d: Data): Summary
    requires Shaped(d)
  {
    Summary((|d.workers|, |d.jobs|, |d.events|), Statuses(d.workers), Statuses(d.jobs), MaxSequence(d.events),
            (Fingerprint(WORKERS, d.workers), Fingerprint(JOBS, d.jobs), Fingerprint(EVENTS, d.events)))
  }

  function StatusColumn(rows: seq<Row>): (r: seq<Value>)
    requires forall i | 0 <= i < |rows| :: |rows[i]| > STATUS
  {
    seq(|rows|, i requires 0 <= i < |rows| => rows[i][STATUS])
  }

  function Tally(counts: map<Value, nat>, v: Value): nat {
    if v in counts then counts[v] else 0
  }

  /** countBy: how often each status occurs. */
  method CountByStatus(rows: seq<Row>) returns (counts: map<Value, nat>)
    requires forall i | 0 <= i < |rows| :: |rows[i]| > STATUS
    ensures counts == Statuses(rows)
    ensures forall v :: Tally(counts, v) == multiset(StatusColumn(rows))[v]
  {
    counts := map[];
    for i := 0 to |rows|
      invariant counts == Statuses(rows[..i])
    {
      counts := Counted(counts, rows[i][STATUS]);
      assert rows[..i + 1][..i] == rows[..i];
    }
    assert rows[..|rows|] == rows;
    forall v ensures Tally(counts, v) == multiset(StatusColumn(rows))[v] {
      StatusesCount(rows, v);
    }
  }

  lemma {:induction false} StatusesCount(rows: seq<Row>, v: Value)
    requires forall i | 0 <= i < |rows| :: |rows[i]| > STATUS
    ensures Tally(Statuses(rows), v) == multiset(StatusColumn(rows))[v]
  {
    if rows != [] {
      var n := |rows| - 1;
      StatusesCount(rows[..n], v);
      assert StatusColumn(rows) == StatusColumn(rows[..n]) + [rows[n][STATUS]];
    }
  }

  // ---------------------------------------------------------------- verification

  datatype Part = Counts | WorkerStatuses | JobStatuses | MaxEventSequence | Fingerprints

  const PARTS := [Counts, WorkerStatuses, JobStatuses, MaxEventSequence, Fingerprints]

  predicate SamePart(a: Summary, b: Summary, p: Part) {
    match p
    case Counts => a.counts == b.counts
    case WorkerStatuses => a.workerStatuses == b.workerStatuses
    case JobStatuses => a.jobStatuses == b.jobStatuses
    case MaxEventSequence => a.maxSequence == b.maxSequence
    case Fingerprints => a.fingerprints == b.fingerprints
  }

  /** verifyMigration: the first part that differs, if any. */
  method Verify(source: Summary, target: Summary) returns (failed: Option<Part>)
    ensures failed.None? <==> source == target
    ensures failed.Some? ==> !SamePart(source, target, failed.value)
  {
    for i := 0 to |PARTS|
      invariant forall j | 0 <= j < i :: SamePart(source, target, PARTS[j])
    {
      if !SamePart(source, target, PARTS[i]) { return Some(PARTS[i]); }
    }
    assert SamePart(source, target, PARTS[0]) && SamePart(source, target, PARTS[1]) && SamePart(source, target, PARTS[2]);
    assert SamePart(source, target, PARTS[3]) && SamePart(source, target, PARTS[4]);
    failed := None;
  }

  /** Row by row the same objects, up to key order at every depth. */
  ghost predicate SameRows(cols: seq<Column>, a: seq<Row>, b: seq<Row>) {
    |a| == |b| && forall i | 0 <= i < |a| ::
      |a[i]| == |b[i]| == |cols| && Equiv(RowObject(cols, a[i]), RowObject(cols, b[i]))
  }

  ghost predicate SameData(a: Data, b: Data) {
    SameRows(WORKERS, a.workers, b.workers) && SameRows(JOBS, a.jobs, b.jobs) && SameRows(EVENTS, a.events, b.events)
  }

  lemma FitsMeansWellFormed(cols: seq<Column>, row: Row)
    requires SoundColumns(cols) && FitsRow(cols, row)
    ensures WellFormed(RowObject(cols, row))
  {
    forall i | 0 <= i < |cols| ensures WellFormed(row[i]) {
      assert Fits(row[i], cols[i].kind);
    }
    RowsAreWellFormed(cols, row);
  }

  lemma SameRowsIsEquiv(cols: seq<Column>, a: seq<Row>, b: seq<Row>)
    requires FitsTable(cols, a) && FitsTable(cols, b)
    ensures Equiv(Arr(Objects(cols, a)), Arr(Objects(cols, b))) <==> SameRows(cols, a, b)
  {
    var xs, ys := Objects(cols, a), Objects(cols, b);
    hide RowObject;
    if Equiv(Arr(xs), Arr(ys)) {
      forall i | 0 <= i < |a| ensures |a[i]| == |b[i]| == |cols| && Equiv(RowObject(cols, a[i]), RowObject(cols, b[i])) {
        assert Equiv(xs[i], ys[i]);
      }
    }
    if SameRows(cols, a, b) {
      forall i | 0 <= i < |xs| ensures Equiv(xs[i], ys[i]) {
        assert Equiv(RowObject(cols, a[i]), RowObject(cols, b[i]));
      }
    }
  }

  /** Fingerprints agree exactly when the tables do. */
  lemma {:induction false} FingerprintsDecide(cols: seq<Column>, a: seq<Row>, b: seq<Row>)
    requires SoundColumns(cols) && FitsTable(cols, a) && FitsTable(cols, b)
    ensures Fingerprint(cols, a) == Fingerprint(cols, b) <==> SameRows(cols, a, b)
  {
    var xs, ys := Objects(cols, a), Objects(cols, b);
    forall i | 0 <= i < |a| ensures WellFormed(xs[i]) { FitsMeansWellFormed(cols, a[i]); }
    forall i | 0 <= i < |b| ensures WellFormed(ys[i]) { FitsMeansWellFormed(cols, b[i]); }
    CanonicalFormDecidesEquivalence(Arr(xs), Arr(ys));
    hide RowObject;
    hide Canonicalize;
    SameRowsIsEquiv(cols, a, b);
  }

  /** Scalars of equivalent rows are equal. */
  lemma SameScalars(cols: seq<Column>, a: seq<Row>, b: seq<Row>, c: nat)
    requires SoundColumns(cols) && FitsTable(cols, a) && FitsTable(cols, b) && SameRows(cols, a, b)
    requires c < |cols| && (cols[c].kind.Plain? || cols[c].kind.Number?)
    ensures forall i | 0 <= i < |a| :: a[i][c] == b[i][c]
  {
    forall i | 0 <= i < |a| ensures a[i][c] == b[i][c] {
      RowEquivIsPointwise(cols, a[i], b[i]);
      assert Fits(a[i][c], cols[c].kind);
    }
  }

  lemma {:induction false} SameStatuses(a: seq<Row>, b: seq<Row>)
    requires |a| == |b| && forall i | 0 <= i < |a| :: |a[i]| > STATUS && |b[i]| > STATUS && a[i][STATUS] == b[i][STATUS]
    ensures Statuses(a) == Statuses(b)
  {
    if a != [] { SameStatuses(a[..|a| - 1], b[..|b| - 1]); }
  }

  lemma {:induction false} SameMaximum(a: seq<Row>, b: seq<Row>)
    requires |a| == |b| && forall i | 0 <= i < |a| :: |a[i]| > SEQUENCE && |b[i]| > SEQUENCE && a[i][SEQUENCE] == b[i][SEQUENCE]
    requires forall i | 0 <= i < |a| :: a[i][SEQUENCE].Num?
    ensures MaxSequence(a) == MaxSequence(b)
  {
    if a != [] { SameMaximum(a[..|a| - 1], b[..|b| - 1]); }
  }

  lemma FitsIsShaped(d: Data)
    requires FitsData(d)
    ensures Shaped(d)
  {
    forall i | 0 <= i < |d.events| ensures d.events[i][SEQUENCE].Num? {
      assert Fits(d.events[i][SEQUENCE], EVENTS[SEQUENCE].kind);
    }
  }

  lemma SameDataSameCounts(a: Data, b: Data)
    requires FitsData(a) && FitsData(b) && SameData(a, b)
    ensures Statuses(a.workers) == Statuses(b.workers) && Statuses(a.jobs) == Statuses(b.jobs)
    ensures Shaped(a) && Shaped(b) && MaxSequence(a.events) == MaxSequence(b.events)
  {
    WorkerColumns();
    JobColumns();
    EventColumns();
    FitsIsShaped(a);
    FitsIsShaped(b);
    SameScalars(WORKERS, a.workers, b.workers, STATUS);
    SameScalars(JOBS, a.jobs, b.jobs, STATUS);
    SameScalars(EVENTS, a.events, b.events, SEQUENCE);
    SameStatuses(a.workers, b.workers);
    SameStatuses(a.jobs, b.jobs);
    SameMaximum(a.events, b.events);
  }

  /** verifyMigration accepts exactly equal canonical data; counts, statuses and the last sequence add nothing. */
  lemma {:induction false} SummariesDecide(a: Data, b: Data)
    requires FitsData(a) && FitsData(b)
    ensures Shaped(a) && Shaped(b)
    ensures Summarize(a) == Summarize(b) <==> SameData(a, b)
    ensures Summarize(a) == Summarize(b) <==> Summarize(a).fingerprints == Summarize(b).fingerprints
  {
    WorkerColumns();
    JobColumns();
    EventColumns();
    FitsIsShaped(a);
    FitsIsShaped(b);
    FingerprintsDecide(WORKERS, a.workers, b.workers);
    FingerprintsDecide(JOBS, a.jobs, b.jobs);
    FingerprintsDecide(EVENTS, a.events, b.events);
    if SameData(a, b) {
      SameDataSameCounts(a, b);
    }
  }
}
