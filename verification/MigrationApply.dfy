/** migrateSqliteToPostgres with --apply: refuse, import, reseed, read back, verify, commit or roll back. */
module MigrationApply {
  import opened Json
  import opened Wrappers
  import opened MigrationRows
  import opened Migration

  type PgRow = seq<PgCell>

  datatype Outcome = Committed | Refused | Failed

  /** Of the four tables none, some or all are there. */
  datatype Schema = Absent | Partial | Complete

  datatype CommitReply = Acknowledged | Denied | LostAfterCommit

  /** What PostgreSQL and the network decide. */
  datatype World = World(
    store: Value -> Value,  // how jsonb gives a document back
    failing: Option<nat>,   // the first statement that raises: the inserts in order, the reseed, the read
    workerOrder: seq<nat>,  // ORDER BY id under the target's collation
    jobOrder: seq<nat>,
    eventOrder: seq<nat>,   // ORDER BY sequence
    initializes: bool,      // the schema initialization succeeds
    spread: nat,            // how many arguments a call may spread, as Math.max(...) does with every sequence
    reply: CommitReply)

  // ---------------------------------------------------------------- the trip of a table

  function ImageRow(cols: seq<Column>, row: Row, store: Value -> Value): (r: PgRow)
    requires |row| == |cols|
    ensures |r| == |cols|
  {
    seq(|cols|, c requires 0 <= c < |cols| => Stored(ToPostgres(row[c], cols[c].kind), store))
  }

  /** What the target holds once every row is inserted. */
  function Image(cols: seq<Column>, rows: seq<Row>, store: Value -> Value): (r: seq<PgRow>)
    requires forall i | 0 <= i < |rows| :: |rows[i]| == |cols|
    ensures |r| == |rows| && forall i | 0 <= i < |rows| :: |r[i]| == |cols|
  {
    seq(|rows|, i requires 0 <= i < |rows| => ImageRow(cols, rows[i], store))
  }

  function ReadRow(cols: seq<Column>, row: PgRow): (r: Row)
    requires |row| == |cols|
    ensures |r| == |cols|
  {
    seq(|cols|, c requires 0 <= c < |cols| => FromPostgres(row[c], cols[c].kind))
  }

  ghost predicate IsOrder(order: seq<nat>, n: nat) {
    && |order| == n && (forall i | 0 <= i < n :: order[i] < n)
    && (forall i, j | 0 <= i < j < n :: order[i] != order[j])
  }

  function Identity(n: nat): (r: seq<nat>)
    ensures |r| == n
  {
    seq(n, i => i)
  }

  /** SELECT ... ORDER BY, mapped back to objects. */
  function ReadTable(cols: seq<Column>, rows: seq<PgRow>, order: seq<nat>): (r: seq<Row>)
    requires |order| == |rows| && (forall i | 0 <= i < |order| :: order[i] < |rows|)
    requires forall i | 0 <= i < |rows| :: |rows[i]| == |cols|
    ensures |r| == |rows|
  {
    seq(|order|, i requires 0 <= i < |order| => ReadRow(cols, rows[order[i]]))
  }

  lemma TripOfRow(cols: seq<Column>, row: Row, store: Value -> Value)
    requires |row| == |cols|
    ensures ReadRow(cols, ImageRow(cols, row, store)) == ArrivedRow(cols, row, store)
  {
  }

  lemma ArrivedRowFits(cols: seq<Column>, row: Row, store: Value -> Value)
    requires KeepsDocuments(store) && SoundColumns(cols) && FitsRow(cols, row)
    ensures FitsRow(cols, ArrivedRow(cols, row, store))
  {
    forall c | 0 <= c < |cols| ensures Fits(Arrived(row[c], cols[c].kind, store), cols[c].kind) {
      assert Fits(row[c], cols[c].kind);
      if WellFormed(row[c]) { assert WellFormed(store(row[c])); }
    }
  }

  lemma TripOfTable(cols: seq<Column>, rows: seq<Row>, store: Value -> Value, order: seq<nat>)
    requires KeepsDocuments(store) && SoundColumns(cols) && FitsTable(cols, rows) && IsOrder(order, |rows|)
    ensures var back := ReadTable(cols, Image(cols, rows, store), order);
      FitsTable(cols, back) && forall i | 0 <= i < |rows| :: back[i] == ArrivedRow(cols, rows[order[i]], store)
  {
    var back := ReadTable(cols, Image(cols, rows, store), order);
    forall i | 0 <= i < |rows| ensures back[i] == ArrivedRow(cols, rows[order[i]], store) && FitsRow(cols, back[i]) {
      TripOfRow(cols, rows[order[i]], store);
      ArrivedRowFits(cols, rows[order[i]], store);
    }
  }

  /** The first column is the primary key. */
  ghost predicate Keyed(cols: seq<Column>, rows: seq<Row>) {
    && cols != [] && (cols[0].kind.Plain? || cols[0].kind.Number?)
    && (forall i | 0 <= i < |rows| :: |rows[i]| == |cols|)
    && (forall i, j | 0 <= i < j < |rows| :: rows[i][0] != rows[j][0])
  }

  predicate LosesNulls(cols: seq<Column>, rows: seq<Row>)
    requires forall i | 0 <= i < |rows| :: |rows[i]| == |cols|
  {
    exists i | 0 <= i < |rows| :: LosesNull(cols, rows[i])
  }

  /** A key keeps its value, so the same object at two places means the same place. */
  lemma KeyPins(cols: seq<Column>, a: Row, b: Row, store: Value -> Value)
    requires KeepsDocuments(store) && SoundColumns(cols) && FitsRow(cols, a) && FitsRow(cols, b)
    requires cols != [] && (cols[0].kind.Plain? || cols[0].kind.Number?)
    requires Equiv(RowObject(cols, a), RowObject(cols, ArrivedRow(cols, b, store)))
    ensures a[0] == b[0]
  {
    RowEquivIsPointwise(cols, a, ArrivedRow(cols, b, store));
    hide RowObject;
    assert Equiv(a[0], ArrivedRow(cols, b, store)[0]);
    assert Fits(a[0], cols[0].kind) && Fits(b[0], cols[0].kind);
  }

  /** A table reads back as it was exactly when the target sorts it as the source did and no null gives way to a default. */
  lemma {:induction false} TableSurvives(cols: seq<Column>, rows: seq<Row>, store: Value -> Value, order: seq<nat>)
    requires KeepsDocuments(store) && SoundColumns(cols) && FitsTable(cols, rows) && IsOrder(order, |rows|) && Keyed(cols, rows)
    ensures SameRows(cols, rows, ReadTable(cols, Image(cols, rows, store), order))
      <==> order == Identity(|rows|) && !LosesNulls(cols, rows)
  {
    TripOfTable(cols, rows, store, order);
    var back := ReadTable(cols, Image(cols, rows, store), order);
    hide RowObject, ArrivedRow, ReadTable, Image, LosesNull;
    if SameRows(cols, rows, back) {
      forall i | 0 <= i < |rows| ensures order[i] == i && !LosesNull(cols, rows[i]) {
        assert Equiv(RowObject(cols, rows[i]), RowObject(cols, back[i]));
        KeyPins(cols, rows[i], rows[order[i]], store);
        RowRoundTrip(cols, rows[i], store);
      }
    }
    if order == Identity(|rows|) && !LosesNulls(cols, rows) {
      forall i | 0 <= i < |rows| ensures |back[i]| == |rows[i]| == |cols| && Equiv(RowObject(cols, rows[i]), RowObject(cols, back[i])) {
        RowRoundTrip(cols, rows[i], store);
      }
    }
  }

  // ---------------------------------------------------------------- the identity sequence

  ghost predicate Increasing(events: seq<Row>) {
    && (forall i | 0 <= i < |events| :: |events[i]| == |EVENTS| && events[i][SEQUENCE].Num?)
    && (forall i, j | 0 <= i < j < |events| :: events[i][SEQUENCE].n < events[j][SEQUENCE].n)
  }

  /** ORDER BY sequence in the target. */
  ghost predicate OrdersBySequence(events: seq<Row>, order: seq<nat>)
    requires Increasing(events)
  {
    IsOrder(order, |events|) && forall i, j | 0 <= i < j < |events| :: events[order[i]][SEQUENCE].n < events[order[j]][SEQUENCE].n
  }

  lemma {:induction false} AtLeast(order: seq<nat>, i: nat)
    requires i < |order| && forall a, b | 0 <= a < b < |order| :: order[a] < order[b]
    ensures order[i] >= i
  {
    if i > 0 { AtLeast(order, i - 1); }
  }

  lemma {:induction false} AtMost(order: seq<nat>, i: nat)
    requires i < |order| && (forall a, b | 0 <= a < b < |order| :: order[a] < order[b]) && forall a | 0 <= a < |order| :: order[a] < |order|
    ensures order[i] <= i
    decreases |order| - i
  {
    if i + 1 < |order| { AtMost(order, i + 1); }
  }

  lemma SequenceOrderIsIdentity(events: seq<Row>, order: seq<nat>)
    requires Increasing(events) && OrdersBySequence(events, order)
    ensures order == Identity(|events|)
  {
    forall a, b | 0 <= a < b < |order| ensures order[a] < order[b] {
      assert order[a] != order[b];
    }
    forall i | 0 <= i < |order| ensures order[i] == i {
      AtLeast(order, i);
      AtMost(order, i);
    }
  }

  /** setval with MAX(sequence); an identity column starts at 1 and takes nothing less. */
  function Reseeded(max: Option<int>): Option<int> {
    match max
    case None => Some(1)
    case Some(m) => if m < 1 then None else Some(m + 1)
  }

  lemma {:induction false} MaximumIsLast(events: seq<Row>)
    requires Increasing(events)
    ensures MaxSequence(events) == if events == [] then None else Some(events[|events| - 1][SEQUENCE].n)
  {
    if events != [] { MaximumIsLast(events[..|events| - 1]); }
  }

  // ---------------------------------------------------------------- what a source needs to migrate

  /** What the source's primary keys and ORDER BY clauses give. */
  ghost predicate IsSource(d: Data) {
    FitsData(d) && Keyed(WORKERS, d.workers) && Keyed(JOBS, d.jobs) && Keyed(EVENTS, d.events) && Increasing(d.events)
  }

  ghost predicate IsWorld(w: World, d: Data)
    requires Increasing(d.events)
  {
    && KeepsDocuments(w.store) && IsOrder(w.workerOrder, |d.workers|) && IsOrder(w.jobOrder, |d.jobs|)
    && OrdersBySequence(d.events, w.eventOrder)
  }

  ghost predicate SameOrder(w: World, d: Data) {
    w.workerOrder == Identity(|d.workers|) && w.jobOrder == Identity(|d.jobs|)
  }

  predicate LosesSomething(d: Data)
    requires Shaped(d)
  {
    LosesNulls(WORKERS, d.workers) || LosesNulls(JOBS, d.jobs) || LosesNulls(EVENTS, d.events)
  }

  function Total(d: Data): nat { |d.workers| + |d.jobs| + |d.events| }

  /** Every statement up to the read succeeds. */
  predicate Runs(w: World, d: Data) { w.failing.None? || w.failing.value > Total(d) + 1 }

  predicate Reseeds(d: Data)
    requires Shaped(d)
  {
    d.events == [] || d.events[|d.events| - 1][SEQUENCE].n >= 1
  }

  /** The two data sets that the tool compares. */
  function ReadBack(d: Data, w: World): Data
    requires IsSource(d) && IsWorld(w, d)
  {
    Data(ReadTable(WORKERS, Image(WORKERS, d.workers, w.store), w.workerOrder),
         ReadTable(JOBS, Image(JOBS, d.jobs, w.store), w.jobOrder),
         ReadTable(EVENTS, Image(EVENTS, d.events, w.store), w.eventOrder))
  }

  lemma ReadBackFits(d: Data, w: World)
    requires IsSource(d) && IsWorld(w, d)
    ensures FitsData(ReadBack(d, w))
  {
    WorkerColumns();
    JobColumns();
    EventColumns();
    TripOfTable(WORKERS, d.workers, w.store, w.workerOrder);
    TripOfTable(JOBS, d.jobs, w.store, w.jobOrder);
    TripOfTable(EVENTS, d.events, w.store, w.eventOrder);
  }

  /** The read-back data is the same exactly when both databases sort alike and no literal null meets a default. */
  lemma {:induction false} ReadBackIsSame(d: Data, w: World)
    requires IsSource(d) && IsWorld(w, d)
    ensures Shaped(d)
    ensures SameData(d, ReadBack(d, w)) <==> SameOrder(w, d) && !LosesSomething(d)
  {
    WorkerColumns();
    JobColumns();
    EventColumns();
    FitsIsShaped(d);
    SequenceOrderIsIdentity(d.events, w.eventOrder);
    TableSurvives(WORKERS, d.workers, w.store, w.workerOrder);
    TableSurvives(JOBS, d.jobs, w.store, w.jobOrder);
    TableSurvives(EVENTS, d.events, w.store, w.eventOrder);
  }

  // ---------------------------------------------------------------- the target database

  /** Everything up to COMMIT goes through. */
  ghost predicate Passes(d: Data, w: World)
    requires IsSource(d) && IsWorld(w, d)
  {
    FitsIsShaped(d);
    Runs(w, d) && Reseeds(d) && SameOrder(w, d) && !LosesSomething(d)
  }

  /** Where the sequence stands after an attempt; setval is not undone by ROLLBACK. */
  ghost function NextAfter(d: Data, w: World, was: int): int
    requires IsSource(d)
  {
    FitsIsShaped(d);
    SetTo(d, w, was)
  }

  function SetTo(d: Data, w: World, was: int): int
    requires Shaped(d)
  {
    var value := Reseeded(MaxSequence(d.events));
    if (w.failing.None? || w.failing.value > Total(d)) && value.Some? then value.value else was
  }

  lemma VerificationDecides(d: Data, w: World)
    requires IsSource(d) && IsWorld(w, d)
    ensures Shaped(d) && Shaped(ReadBack(d, w))
    ensures Summarize(d) == Summarize(ReadBack(d, w)) <==> SameData(d, ReadBack(d, w))
  {
    ReadBackFits(d, w);
    assert FitsData(d);
    hide *;
    FitsIsShaped(d);
    FitsIsShaped(ReadBack(d, w));
    SummariesDecide(d, ReadBack(d, w));
  }

  lemma ReseedDecides(events: seq<Row>)
    requires Increasing(events)
    ensures Reseeded(MaxSequence(events)).Some? <==> events == [] || events[|events| - 1][SEQUENCE].n >= 1
    ensures Reseeded(MaxSequence(events)).Some? ==> forall i | 0 <= i < |events| :: events[i][SEQUENCE].n < Reseeded(MaxSequence(events)).value
  {
    MaximumIsLast(events);
  }

  /** Everything up to COMMIT goes through exactly when the checks the tool makes do. */
  lemma {:induction false} PassesMeans(d: Data, w: World)
    requires IsSource(d) && IsWorld(w, d)
    ensures Shaped(d) && Shaped(ReadBack(d, w))
    ensures Passes(d, w) <==> Runs(w, d) && Reseeds(d) && Summarize(d) == Summarize(ReadBack(d, w))
    ensures Passes(d, w) ==> SameData(d, ReadBack(d, w))
    ensures Reseeds(d) <==> Reseeded(MaxSequence(d.events)).Some?
  {
    VerificationDecides(d, w);
    ReadBackIsSame(d, w);
    ReseedDecides(d.events);
    hide SameData, Summarize, ReadBack, SameOrder, LosesSomething, FitsData, Keyed, IsWorld;
  }

  /** After a successful import, new events get sequences above every imported one. */
  lemma {:induction false} NewSequencesAreAhead(d: Data, w: World, was: int)
    requires IsSource(d) && IsWorld(w, d) && Passes(d, w)
    ensures forall i | 0 <= i < |d.events| :: d.events[i][SEQUENCE].n < NextAfter(d, w, was)
  {
    ReseedDecides(d.events);
  }

  lemma SameReadBack(d: Data, w: World, workers: seq<PgRow>, jobs: seq<PgRow>, events: seq<PgRow>)
    requires IsSource(d) && IsWorld(w, d)
    requires workers == Image(WORKERS, d.workers, w.store) && jobs == Image(JOBS, d.jobs, w.store) && events == Image(EVENTS, d.events, w.store)
    ensures Data(ReadTable(WORKERS, workers, w.workerOrder), ReadTable(JOBS, jobs, w.jobOrder), ReadTable(EVENTS, events, w.eventOrder)) == ReadBack(d, w)
  {
  }

  class Target {
    var workers: seq<PgRow>
    var jobs: seq<PgRow>
    var events: seq<PgRow>
    var next: int // what the identity column hands out next
    var schema: Schema

    predicate Valid()
      reads this
    {
      schema.Absent? ==> Empty() && next == 1
    }

    /** inspectPostgresTarget finds a whole schema or none, and no row. */
    predicate Ready()
      reads this
    {
      !schema.Partial? && Empty()
    }

    predicate Empty()
      reads this
    {
      workers == [] && jobs == [] && events == []
    }

    ghost predicate Holds(d: Data, store: Value -> Value)
      requires Shaped(d)
      reads this`workers, this`jobs, this`events
    {
      workers == Image(WORKERS, d.workers, store) && jobs == Image(JOBS, d.jobs, store) && events == Image(EVENTS, d.events, store)
    }

    ghost predicate Copied(d: Data, w: World)
      requires IsSource(d)
      reads this
    {
      FitsIsShaped(d);
      Holds(d, w.store)
    }

    constructor ()
      ensures Valid() && schema == Absent
    {
      workers, jobs, events, next, schema := [], [], [], 1, Absent;
    }

    /** The three insert loops of the transaction; false once a statement raises. */
    method Insert(d: Data, w: World) returns (ok: bool)
      requires Empty() && Shaped(d)
      modifies this`workers, this`jobs, this`events
      ensures ok <==> w.failing.None? || w.failing.value >= Total(d)
      ensures ok ==> Holds(d, w.store)
    {
      for i := 0 to |d.workers|
        invariant workers == Image(WORKERS, d.workers[..i], w.store) && jobs == [] && events == []
        invariant w.failing.None? || w.failing.value >= i
      {
        if w.failing == Some(i) { return false; }
        workers := workers + [ImageRow(WORKERS, d.workers[i], w.store)];
      }
      assert d.workers[..|d.workers|] == d.workers;
      for i := 0 to |d.jobs|
        invariant workers == Image(WORKERS, d.workers, w.store)
        invariant jobs == Image(JOBS, d.jobs[..i], w.store) && events == []
        invariant w.failing.None? || w.failing.value >= |d.workers| + i
      {
        if w.failing == Some(|d.workers| + i) { return false; }
        jobs := jobs + [ImageRow(JOBS, d.jobs[i], w.store)];
      }
      assert d.jobs[..|d.jobs|] == d.jobs;
      for i := 0 to |d.events|
        invariant workers == Image(WORKERS, d.workers, w.store) && jobs == Image(JOBS, d.jobs, w.store)
        invariant events == Image(EVENTS, d.events[..i], w.store)
        invariant w.failing.None? || w.failing.value >= |d.workers| + |d.jobs| + i
      {
        if w.failing == Some(|d.workers| + |d.jobs| + i) { return false; }
        events := events + [ImageRow(EVENTS, d.events[i], w.store)];
      }
      assert d.events[..|d.events|] == d.events;
      ok := true;
    }

    /** setval, which ROLLBACK does not undo. */
    method Reseed(d: Data) returns (ok: bool)
      requires Shaped(d)
      modifies this`next
      ensures ok <==> Reseeded(MaxSequence(d.events)).Some?
      ensures next == if ok then Reseeded(MaxSequence(d.events)).value else old(next)
    {
      var value := Reseeded(MaxSequence(d.events));
      ok := value.Some?;
      if ok { next := value.value; }
    }

    /** SELECT everything and map it. */
    method Read(d: Data, w: World) returns (back: Data)
      requires IsSource(d) && IsWorld(w, d) && Shaped(d) && Holds(d, w.store)
      ensures back == ReadBack(d, w)
    {
      SameReadBack(d, w, workers, jobs, events);
      back := Data(ReadTable(WORKERS, workers, w.workerOrder), ReadTable(JOBS, jobs, w.jobOrder), ReadTable(EVENTS, events, w.eventOrder));
    }

    /** The inserts and the reseed; false once a statement raises. */
    method Load(d: Data, w: World) returns (ok: bool)
      requires Empty() && Shaped(d)
      modifies this`workers, this`jobs, this`events, this`next
      ensures ok <==> Runs(w, d) && Reseeded(MaxSequence(d.events)).Some?
      ensures ok ==> Holds(d, w.store)
      ensures next == SetTo(d, w, old(next))
    {
      hide Shaped, MaxSequence, Reseeded, Empty;
      var inserted := Insert(d, w);
      if !inserted || w.failing == Some(Total(d)) { return false; }
      var reseeded := Reseed(d);
      ok := reseeded && w.failing != Some(Total(d) + 1);
    }

    /** From BEGIN to just before COMMIT. */
    method Transact(d: Data, w: World) returns (ok: bool)
      requires Empty() && IsSource(d) && IsWorld(w, d)
      modifies this`workers, this`jobs, this`events, this`next
      ensures ok <==> Passes(d, w)
      ensures ok ==> Copied(d, w) && SameData(d, ReadBack(d, w))
      ensures next == NextAfter(d, w, old(next))
    {
      PassesMeans(d, w);
      hide Passes, Summarize, IsSource, IsWorld, SameData, ReadBack, Reseeds, Holds, Empty, Shaped, MaxSequence, Runs, SetTo;
      var loaded := Load(d, w);
      if !loaded { return false; }
      var back := Read(d, w);
      var failed := Verify(Summarize(d), Summarize(back));
      ok := failed.None?;
    }

    /** inspectPostgresTarget: refused, or an exception when even counting the rows fails. */
    method Inspect(w: World) returns (verdict: Option<Outcome>)
      requires Valid()
      ensures verdict == None <==> Ready() && |events| <= w.spread
      ensures verdict == Some(Failed) <==> schema.Complete? && |events| > w.spread
      ensures verdict == None || verdict == Some(Failed) || verdict == Some(Refused)
    {
      if schema.Partial? { return Some(Refused); }
      if schema.Complete? && |events| > w.spread { return Some(Failed); }
      verdict := if Empty() then None else Some(Refused);
    }

    /** The apply path: all of the source or none of it, and a success is a verified copy. */
    method Apply(d: Data, w: World) returns (o: Outcome)
      requires Valid() && IsSource(d) && IsWorld(w, d)
      modifies this
      ensures Valid()
      ensures o == Refused <==> |d.events| <= w.spread && !old(Ready()) && (old(schema).Partial? || |old(events)| <= w.spread)
      ensures o == Committed <==>
        |d.events| <= w.spread && old(Ready()) && w.initializes && Passes(d, w) && w.reply == Acknowledged
      ensures if |d.events| <= w.spread && old(Ready()) && w.initializes && Passes(d, w) && w.reply != Denied then Copied(d, w)
              else workers == old(workers) && jobs == old(jobs) && events == old(events)
      ensures o == Committed ==> SameData(d, ReadBack(d, w))
      ensures var started := |d.events| <= w.spread && old(Ready()) && w.initializes;
        && next == (if started then NextAfter(d, w, old(next)) else old(next))
        && schema == (if started then Complete else old(schema))
    {
      hide Copied, Passes, SameData, NextAfter, IsWorld, IsSource, ReadBack;
      if |d.events| > w.spread { return Failed; }
      var verdict := Inspect(w);
      if verdict.Some? { return verdict.value; }
      if !w.initializes { return Failed; }
      schema := Complete;
      o := RunTransaction(d, w);
    }

    /** BEGIN, then COMMIT or ROLLBACK. */
    method RunTransaction(d: Data, w: World) returns (o: Outcome)
      requires Empty() && IsSource(d) && IsWorld(w, d)
      modifies this`workers, this`jobs, this`events, this`next
      ensures o == if Passes(d, w) && w.reply == Acknowledged then Committed else Failed
      ensures if Passes(d, w) && w.reply != Denied then Copied(d, w)
              else workers == old(workers) && jobs == old(jobs) && events == old(events)
      ensures o == Committed ==> SameData(d, ReadBack(d, w))
      ensures next == NextAfter(d, w, old(next))
    {
      hide Copied, Passes, SameData, NextAfter, IsWorld, IsSource, ReadBack, Empty;
      var before := (workers, jobs, events);
      var ok := Transact(d, w);
      if !ok || w.reply == Denied {
        workers, jobs, events := before.0, before.1, before.2;
      }
      o := if ok && w.reply == Acknowledged then Committed else Failed;
    }
  }

  // ---------------------------------------------------------------- back to the SQLite rows

  /** mapSqliteWorker, mapSqliteJob, mapSqliteEvent. */
  function MapRow(cols: seq<Column>, cells: seq<SqliteCell>): (r: Option<Row>)
    requires |cells| == |cols|
    ensures r.Some? <==> forall c | 0 <= c < |cols| :: FromSqlite(cells[c], cols[c].kind).Some?
    ensures r.Some? ==> |r.value| == |cols| && forall c | 0 <= c < |cols| :: r.value[c] == FromSqlite(cells[c], cols[c].kind).value
  {
    if forall c | 0 <= c < |cols| :: FromSqlite(cells[c], cols[c].kind).Some?
    then Some(seq(|cols|, c requires 0 <= c < |cols| && FromSqlite(cells[c], cols[c].kind).Some? => FromSqlite(cells[c], cols[c].kind).value))
    else None
  }

  /** The rows that stop a migration are those with the text of a JSON null in a column that has a default. */
  lemma {:induction false} LiteralNullsFailClosed(cols: seq<Column>, cells: seq<SqliteCell>)
    requires SoundColumns(cols) && |cells| == |cols| && MapRow(cols, cells).Some?
    requires forall c | 0 <= c < |cells| && cells[c].SqlText? && cells[c].parsed.Some? :: WellFormed(cells[c].parsed.value)
    ensures FitsRow(cols, MapRow(cols, cells).value)
    ensures LosesNull(cols, MapRow(cols, cells).value)
      <==> exists c | 0 <= c < |cols| :: cols[c].kind.Defaulted? && cells[c].SqlText? && cells[c].parsed == Some(Null)
  {
    var row := MapRow(cols, cells).value;
    forall c | 0 <= c < |cols|
      ensures Fits(row[c], cols[c].kind)
      ensures LostNull(row[c], cols[c].kind) <==> cols[c].kind.Defaulted? && cells[c].SqlText? && cells[c].parsed == Some(Null)
    {
      MappedValuesFit(cells[c], cols[c].kind);
    }
  }
}
