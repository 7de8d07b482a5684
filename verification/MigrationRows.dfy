/**
 * Row mapping of scripts/migrate-sqlite-to-postgres.mjs: SQLite cells to JavaScript
 * values, bound parameters to PostgreSQL cells, and back.
 */
module MigrationRows {
  import opened Json
  import opened Wrappers

  /** What the three row mappers do with a column. */
  datatype Kind =
    | Plain                      // passed through: text, or NULL
    | Flag                       // Boolean(...)
    | Number                     // Number(...)
    | OptionalNumber             // null or Number(...)
    | Defaulted(fallback: Value) // parseJson with a default; `?? default` on the way back
    | OptionalJson               // parseJson with null; bound as NULL when null

  datatype Column = Column(property: string, kind: Kind)

  const WORKERS := [
    Column("id", Plain), Column("name", Plain), Column("version", Plain), Column("baseUrl", Plain), Column("status", Plain),
    Column("drainMode", Flag), Column("labels", Defaulted(Obj([]))), Column("capabilities", Defaulted(Arr([]))),
    Column("adapterManifests", Defaulted(Arr([]))), Column("adapterHealth", Defaulted(Arr([]))),
    Column("warmModels", Defaulted(Arr([]))), Column("modelInventory", Defaulted(Arr([]))), Column("gpus", Defaulted(Arr([]))),
    Column("lastSeenAt", Number), Column("createdAt", Number), Column("updatedAt", Number)]

  const JOBS := [
    Column("id", Plain), Column("projectId", Plain), Column("type", Plain), Column("priority", Number), Column("status", Plain),
    Column("gpuCount", Number), Column("minVramMiB", Number), Column("requiredCapabilities", Defaulted(Arr([]))),
    Column("requestedModel", Plain), Column("payload", Defaulted(Obj([]))), Column("result", OptionalJson),
    Column("error", OptionalJson), Column("assignedWorkerId", Plain), Column("assignedGpuUuid", Plain), Column("leaseId", Plain),
    Column("leaseExpiresAt", OptionalNumber), Column("attempt", Number), Column("maxAttempts", Number),
    Column("idempotencyKey", Plain), Column("createdAt", Number), Column("updatedAt", Number)]

  const EVENTS := [
    Column("sequence", Number), Column("type", Plain), Column("subjectId", Plain), Column("payload", Defaulted(Obj([]))),
    Column("createdAt", Number)]

  // ---------------------------------------------------------------- cells

  /** A stored SQLite value; text comes with what JSON.parse makes of it. */
  datatype SqliteCell = SqlNull | SqlInteger(n: int) | SqlText(text: Text, parsed: Option<Value>)

  datatype PgCell = PgNull | PgScalar(value: Value) | PgJson(value: Value)

  /** mapSqlite*, cell by cell; None is an exception or a value no column accepts. */
  function FromSqlite(c: SqliteCell, k: Kind): Option<Value> {
    match k
    case Plain => (match c case SqlNull => Some(Null) case SqlInteger(n) => Some(Num(n)) case SqlText(t, _) => Some(Str(t)))
    case Flag => Some(Bool(match c case SqlNull => false case SqlInteger(n) => n != 0 case SqlText(t, _) => t != []))
    case Number => (match c case SqlNull => Some(Num(0)) case SqlInteger(n) => Some(Num(n)) case SqlText(_, _) => None)
    case OptionalNumber => (match c case SqlNull => Some(Null) case SqlInteger(n) => Some(Num(n)) case SqlText(_, _) => None)
    case Defaulted(fallback) => (match c case SqlNull => Some(fallback) case SqlInteger(n) => Some(Num(n)) case SqlText(_, p) => p)
    case OptionalJson => (match c case SqlNull => Some(Null) case SqlInteger(n) => Some(Num(n)) case SqlText(_, p) => p)
  }

  /** The parameter that insert* binds for a value. */
  function ToPostgres(v: Value, k: Kind): PgCell {
    match k
    case Defaulted(_) => PgJson(v)
    case OptionalJson => if v.Null? then PgNull else PgJson(v)
    case _ => if v.Null? then PgNull else PgScalar(v)
  }

  /** mapPostgres*, cell by cell. */
  function FromPostgres(c: PgCell, k: Kind): Value {
    match k
    case Defaulted(fallback) => if c.PgNull? || c.value.Null? then fallback else c.value
    case Flag => Bool(!c.PgNull? && c.value == Bool(true))
    case Number => if c.PgNull? then Num(0) else c.value
    case _ => if c.PgNull? then Null else c.value
  }

  /** Values that FromSqlite can produce for a column. */
  ghost predicate Fits(v: Value, k: Kind) {
    match k
    case Plain => v.Null? || v.Num? || v.Str?
    case Flag => v.Bool?
    case Number => v.Num?
    case OptionalNumber => v.Null? || v.Num?
    case _ => WellFormed(v)
  }

  /** jsonb keeps a document up to the order of its keys. */
  ghost predicate KeepsDocuments(store: Value -> Value) {
    forall v | WellFormed(v) :: WellFormed(store(v)) && Equiv(v, store(v))
  }

  function Stored(c: PgCell, store: Value -> Value): PgCell {
    if c.PgJson? then PgJson(store(c.value)) else c
  }

  /** A value after the trip through the target. */
  function Arrived(v: Value, k: Kind, store: Value -> Value): Value {
    FromPostgres(Stored(ToPostgres(v, k), store), k)
  }

  /** The one value that does not survive: a literal JSON null in a column with a default. */
  predicate LostNull(v: Value, k: Kind) {
    k.Defaulted? && v.Null? && !k.fallback.Null?
  }

  lemma {:induction false} CellRoundTrip(v: Value, k: Kind, store: Value -> Value)
    requires KeepsDocuments(store) && Fits(v, k)
    ensures Equiv(v, Arrived(v, k, store)) <==> !LostNull(v, k)
  {
    if WellFormed(v) {
      assert Equiv(v, store(v));
    }
  }

  lemma MappedValuesFit(c: SqliteCell, k: Kind)
    requires c.SqlText? && c.parsed.Some? ==> WellFormed(c.parsed.value)
    requires k.Defaulted? ==> WellFormed(k.fallback)
    requires FromSqlite(c, k).Some?
    ensures Fits(FromSqlite(c, k).value, k)
    ensures LostNull(FromSqlite(c, k).value, k) <==> k.Defaulted? && !k.fallback.Null? && c.SqlText? && c.parsed == Some(Null)
  {
  }

  /** The cell that a source database holds for a value; `text` serializes documents. */
  function ToSqlite(v: Value, k: Kind, text: Value -> Text): SqliteCell {
    match k
    case Flag => SqlInteger(if v == Bool(true) then 1 else 0)
    case Defaulted(_) => SqlText(text(v), Some(v))
    case OptionalJson => if v.Null? then SqlNull else SqlText(text(v), Some(v))
    case _ => match v case Num(n) => SqlInteger(n) case Str(t) => SqlText(t, None) case _ => SqlNull
  }

  /** Mapping a stored value gives the value back, and an absent one its default. */
  lemma {:induction false} SqliteRoundTrip(v: Value, k: Kind, text: Value -> Text)
    requires Fits(v, k)
    ensures FromSqlite(ToSqlite(v, k, text), k) == Some(v)
    ensures k.Defaulted? ==> FromSqlite(SqlNull, k) == Some(k.fallback)
  {
  }

  // ---------------------------------------------------------------- rows

  type Row = seq<Value>

  function Units(s: string): (t: Text)
    ensures |t| == |s|
  {
    seq(|s|, i requires 0 <= i < |s| => (s[i] as int) % 0x1_0000)
  }

  /** The JavaScript object for a row. */
  function RowObject(cols: seq<Column>, row: Row): Value
    requires |row| == |cols|
  {
    Obj(seq(|cols|, i requires 0 <= i < |cols| => Field(Units(cols[i].property), row[i])))
  }

  ghost predicate DistinctColumns(cols: seq<Column>) {
    forall i, j | 0 <= i < j < |cols| :: Units(cols[i].property) != Units(cols[j].property)
  }

  /** A fallback is never null in the three tables. */
  ghost predicate SoundColumns(cols: seq<Column>) {
    DistinctColumns(cols) && forall i | 0 <= i < |cols| && cols[i].kind.Defaulted? :: !cols[i].kind.fallback.Null? && WellFormed(cols[i].kind.fallback)
  }

  ghost predicate FitsRow(cols: seq<Column>, row: Row) {
    |row| == |cols| && forall i | 0 <= i < |cols| :: Fits(row[i], cols[i].kind)
  }

  function ArrivedRow(cols: seq<Column>, row: Row, store: Value -> Value): (r: Row)
    requires |row| == |cols|
    ensures |r| == |cols|
  {
    seq(|cols|, i requires 0 <= i < |cols| => Arrived(row[i], cols[i].kind, store))
  }

  predicate LosesNull(cols: seq<Column>, row: Row)
    requires |row| == |cols|
  {
    exists i | 0 <= i < |cols| :: LostNull(row[i], cols[i].kind)
  }

  lemma {:induction false} RowEquivIsPointwise(cols: seq<Column>, a: Row, b: Row)
    requires |a| == |b| == |cols| && DistinctColumns(cols)
    ensures Equiv(RowObject(cols, a), RowObject(cols, b)) <==> forall i | 0 <= i < |cols| :: Equiv(a[i], b[i])
  {
    var fs, gs := RowObject(cols, a).fields, RowObject(cols, b).fields;
    forall k ensures k in Keys(fs) <==> k in Keys(gs) {
      if k in Keys(fs) {
        var f :| f in fs && f.key == k;
        var i :| 0 <= i < |fs| && fs[i] == f;
        assert gs[i] in gs && gs[i].key == k;
      }
      if k in Keys(gs) {
        var f :| f in gs && f.key == k;
        var i :| 0 <= i < |gs| && gs[i] == f;
        assert fs[i] in fs && fs[i].key == k;
      }
    }
    if Equiv(Obj(fs), Obj(gs)) {
      forall i | 0 <= i < |cols| ensures Equiv(a[i], b[i]) {
        assert Equiv(fs[i].value, gs[i].value);
      }
    }
  }

  /** A row survives the trip exactly when it holds no null that a default would replace. */
  lemma {:induction false} RowRoundTrip(cols: seq<Column>, row: Row, store: Value -> Value)
    requires KeepsDocuments(store) && SoundColumns(cols) && FitsRow(cols, row)
    ensures Equiv(RowObject(cols, row), RowObject(cols, ArrivedRow(cols, row, store))) <==> !LosesNull(cols, row)
  {
    RowEquivIsPointwise(cols, row, ArrivedRow(cols, row, store));
    forall i | 0 <= i < |cols| ensures Equiv(row[i], ArrivedRow(cols, row, store)[i]) <==> !LostNull(row[i], cols[i].kind) {
      CellRoundTrip(row[i], cols[i].kind, store);
    }
  }

  lemma RowsAreWellFormed(cols: seq<Column>, row: Row)
    requires DistinctColumns(cols) && |row| == |cols| && forall i | 0 <= i < |cols| :: WellFormed(row[i])
    ensures WellFormed(RowObject(cols, row))
  {
  }
}
