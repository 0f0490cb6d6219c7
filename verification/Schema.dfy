/** The part of a relational database that the migrations can see: tables with columns, keys,
    foreign keys and rows, plus named indexes.  Every operation either takes effect or raises. */
module Schema {
  import opened Options
  import opened Names

  datatype Value =
    | Null | Label(family: FamilyId) | Text(text: string) | Json(json: string) | Float(number: real)
    | Boolean(truth: bool)

  datatype Column = NotNull | Nullable

  type Row = map<ColumnName, Value>

  /** A single-column foreign key: `column` points at column `target` of `table`. */
  datatype ForeignKey = ForeignKey(column: ColumnName, table: TableName, target: ColumnName)

  datatype Table = Table(
    columns: map<ColumnName, Column>, keys: set<seq<ColumnName>>, references: set<ForeignKey>, rows: seq<Row>)

  datatype Index = Index(table: TableName, columns: seq<ColumnName>)

  datatype Database = Database(tables: map<TableName, Table>, indexes: map<IndexName, Index>)

  datatype Op =
    | CreateTable(table: TableName, declared: Table)
    | DropTable(table: TableName)
    | CreateIndex(name: IndexName, index: Index)
    | DropIndex(name: IndexName, on: TableName)
    | AddColumn(on: TableName, column: ColumnName, kind: Column, fill: Value)
    | DropColumn(on: TableName, column: ColumnName)
    | Update(on: TableName, column: ColumnName, before: FamilyId, after: FamilyId)

  // ----- integrity -----

  /** Two rows violate a unique key when they agree on it; NULL never agrees with anything. */
  predicate SameKey(r: Row, s: Row, key: seq<ColumnName>) {
    forall c | c in key :: c in r && c in s && r[c] == s[c] && r[c] != Null
  }

  predicate KeysHold(t: Table) {
    forall key, i, j | key in t.keys && 0 <= i < j < |t.rows| :: !SameKey(t.rows[i], t.rows[j], key)
  }

  predicate RowFits(r: Row, columns: map<ColumnName, Column>) {
    && r.Keys == columns.Keys
    && forall c | c in columns && columns[c] == NotNull :: r[c] != Null
  }

  predicate TableOk(t: Table) {
    && (forall key | key in t.keys :: key != [] && forall c | c in key :: c in t.columns)
    && (forall f | f in t.references :: f.column in t.columns)
    && (forall r | r in t.rows :: RowFits(r, t.columns))
    && KeysHold(t)
  }

  /** A foreign key may only point at a unique column of a table that exists. */
  predicate Resolves(f: ForeignKey, tables: map<TableName, Table>) {
    f.table in tables && [f.target] in tables[f.table].keys
  }

  predicate IndexOk(x: Index, tables: map<TableName, Table>) {
    && x.table in tables
    && x.columns != []
    && forall c | c in x.columns :: c in tables[x.table].columns
  }

  ghost predicate Wf(db: Database) {
    && (forall n | n in db.tables :: TableOk(db.tables[n]))
    && (forall n, f | n in db.tables && f in db.tables[n].references :: Resolves(f, db.tables))
    && (forall n | n in db.indexes :: IndexOk(db.indexes[n], db.tables))
  }

  // ----- operations -----

  function ReplaceIn(r: Row, column: ColumnName, before: FamilyId, after: FamilyId): Row {
    if column in r && r[column] == Label(before) then r[column := Label(after)] else r
  }

  function UpdateRows(t: Table, column: ColumnName, before: FamilyId, after: FamilyId): Table {
    t.(rows := seq(|t.rows|, i requires 0 <= i < |t.rows| => ReplaceIn(t.rows[i], column, before, after)))
  }

  function Widen(t: Table, column: ColumnName, kind: Column, fill: Value): Table {
    t.(columns := t.columns[column := kind],
       rows := seq(|t.rows|, i requires 0 <= i < |t.rows| => t.rows[i][column := fill]))
  }

  function Narrow(t: Table, column: ColumnName): Table {
    t.(columns := t.columns - {column},
       rows := seq(|t.rows|, i requires 0 <= i < |t.rows| => t.rows[i] - {column}))
  }

  predicate Constrained(t: Table, column: ColumnName) {
    || (exists key | key in t.keys :: column in key)
    || (exists f | f in t.references :: f.column == column)
  }

  /** True when the operation does not raise. */
  predicate Legal(op: Op, db: Database) {
    match op
    case CreateTable(n, t) =>
      && n !in db.tables
      && t.rows == [] && TableOk(t)
      && forall f | f in t.references :: Resolves(f, db.tables[n := t])
    case DropTable(n) =>
      && n in db.tables
      && forall m, f | m in db.tables && m != n && f in db.tables[m].references :: f.table != n
    case CreateIndex(n, x) =>
      n !in db.indexes && IndexOk(x, db.tables)
    case DropIndex(n, on) =>
      n in db.indexes && db.indexes[n].table == on
    case AddColumn(on, c, kind, fill) =>
      && on in db.tables && c !in db.tables[on].columns
      && (kind == NotNull ==> fill != Null || db.tables[on].rows == [])
    case DropColumn(on, c) =>
      on in db.tables && c in db.tables[on].columns && !Constrained(db.tables[on], c)
    case Update(on, c, before, after) =>
      on in db.tables && c in db.tables[on].columns && KeysHold(UpdateRows(db.tables[on], c, before, after))
  }

  /** The effect of a legal operation.  Dropping a table or a column also drops the indexes on it. */
  function Effect(op: Op, db: Database): Database
    requires Legal(op, db)
  {
    match op
    case CreateTable(n, t) => db.(tables := db.tables[n := t])
    case DropTable(n) =>
      Database(db.tables - {n}, map x | x in db.indexes && db.indexes[x].table != n :: db.indexes[x])
    case CreateIndex(n, x) => db.(indexes := db.indexes[n := x])
    case DropIndex(n, _) => db.(indexes := db.indexes - {n})
    case AddColumn(on, c, kind, fill) =>
      db.(tables := db.tables[on := Widen(db.tables[on], c, kind, fill)])
    case DropColumn(on, c) =>
      Database(
        db.tables[on := Narrow(db.tables[on], c)],
        map x | x in db.indexes && !(db.indexes[x].table == on && c in db.indexes[x].columns) :: db.indexes[x])
    case Update(on, c, before, after) =>
      db.(tables := db.tables[on := UpdateRows(db.tables[on], c, before, after)])
  }

  function Apply(op: Op, db: Database): Option<Database> {
    if Legal(op, db) then Some(Effect(op, db)) else None
  }

  /** A migration program; the first operation that raises ends it. */
  function Run(ops: seq<Op>, db: Database): Option<Database> {
    if ops == [] then Some(db)
    else match Apply(ops[0], db)
         case None => None
         case Some(next) => Run(ops[1..], next)
  }

  function Bind(start: Option<Database>, ops: seq<Op>): Option<Database> {
    match start
    case None => None
    case Some(db) => Run(ops, db)
  }

  lemma {:induction false} RunAppend(a: seq<Op>, b: seq<Op>, db: Database)
    ensures Run(a + b, db) == Bind(Run(a, db), b)
  {
    if a == [] {
      assert a + b == b;
    } else {
      assert (a + b)[1..] == a[1..] + b;
      if Legal(a[0], db) { RunAppend(a[1..], b, Effect(a[0], db)); }
    }
  }

  lemma RunNothing(db: Database)
    ensures Run([], db) == Some(db)
  {}

  lemma RunOne(op: Op, db: Database)
    ensures Run([op], db) == Apply(op, db)
  {
    assert Legal(op, db) ==> Run([op][1..], Effect(op, db)) == Some(Effect(op, db));
  }

  lemma BindAppend(start: Option<Database>, a: seq<Op>, b: seq<Op>)
    ensures Bind(start, a + b) == Bind(Bind(start, a), b)
  {
    if start.Some? { RunAppend(a, b, start.value); }
  }

  // ----- undoing -----

  predicate Reversible(op: Op) { op.CreateTable? || op.CreateIndex? || op.AddColumn? }

  function Undo(op: Op): Op
    requires Reversible(op)
  {
    match op
    case CreateTable(n, _) => DropTable(n)
    case CreateIndex(n, x) => DropIndex(n, x.table)
    case AddColumn(on, c, _, _) => DropColumn(on, c)
  }

  function UndoAll(ops: seq<Op>): seq<Op>
    requires forall op | op in ops :: Reversible(op)
  {
    if ops == [] then [] else UndoAll(ops[1..]) + [Undo(ops[0])]
  }

  lemma {:induction false} UndoAllAppend(a: seq<Op>, b: seq<Op>)
    requires forall op | op in a + b :: Reversible(op)
    ensures forall op | op in a :: op in a + b
    ensures forall op | op in b :: op in a + b
    ensures UndoAll(a + b) == UndoAll(b) + UndoAll(a)
  {
    assert forall op | op in a :: op in a + b;
    assert forall op | op in b :: op in a + b;
    if a == [] {
      assert a + b == b;
    } else {
      assert (a + b)[1..] == a[1..] + b;
      UndoAllAppend(a[1..], b);
    }
  }

  lemma CreateTableUndone(n: TableName, t: Table, db: Database)
    requires Wf(db) && Legal(CreateTable(n, t), db)
    ensures var next := Effect(CreateTable(n, t), db);
            Wf(next) && Apply(DropTable(n), next) == Some(db)
  {
    var next := Effect(CreateTable(n, t), db);
    forall m, f | m in next.tables && f in next.tables[m].references ensures Resolves(f, next.tables) {
      if m != n { assert Resolves(f, db.tables); }
    }
    forall x | x in db.indexes ensures IndexOk(next.indexes[x], next.tables) && db.indexes[x].table != n {
      assert IndexOk(db.indexes[x], db.tables);
    }
    assert Legal(DropTable(n), next) by {
      forall m, f | m in next.tables && m != n && f in next.tables[m].references ensures f.table != n {
        assert Resolves(f, db.tables);
      }
    }
    var back := Effect(DropTable(n), next);
    assert back.tables == db.tables;
    assert back.indexes == db.indexes;
  }

  lemma CreateIndexUndone(n: IndexName, x: Index, db: Database)
    requires Wf(db) && Legal(CreateIndex(n, x), db)
    ensures var next := Effect(CreateIndex(n, x), db);
            Wf(next) && Apply(DropIndex(n, x.table), next) == Some(db)
  {
    var next := Effect(CreateIndex(n, x), db);
    assert (next.indexes - {n}) == db.indexes;
  }

  lemma WidenedRowsFit(t: Table, c: ColumnName, kind: Column, fill: Value)
    requires TableOk(t) && c !in t.columns
    requires kind == NotNull ==> fill != Null || t.rows == []
    ensures var w := Widen(t, c, kind, fill);
            forall r | r in w.rows :: RowFits(r, w.columns)
    ensures Narrow(Widen(t, c, kind, fill), c) == t
  {
    var w := Widen(t, c, kind, fill);
    forall i | 0 <= i < |t.rows| ensures RowFits(w.rows[i], w.columns) && w.rows[i] - {c} == t.rows[i] {
      assert t.rows[i] in t.rows;
    }
    assert Narrow(w, c).columns == t.columns;
    assert Narrow(w, c).rows == t.rows;
  }

  lemma WidenedKeysHold(t: Table, c: ColumnName, kind: Column, fill: Value)
    requires TableOk(t) && c !in t.columns
    ensures KeysHold(Widen(t, c, kind, fill))
  {
    var w := Widen(t, c, kind, fill);
    forall key, i, j | key in t.keys && 0 <= i < j < |t.rows| ensures !SameKey(w.rows[i], w.rows[j], key) {
      assert RowFits(t.rows[i], t.columns) && RowFits(t.rows[j], t.columns);
      assert !SameKey(t.rows[i], t.rows[j], key);
      var d :| d in key && !(t.rows[i][d] == t.rows[j][d] && t.rows[i][d] != Null);
      assert w.rows[i][d] == t.rows[i][d] && w.rows[j][d] == t.rows[j][d];
    }
  }

  lemma WidenNarrow(t: Table, c: ColumnName, kind: Column, fill: Value)
    requires TableOk(t) && c !in t.columns
    requires kind == NotNull ==> fill != Null || t.rows == []
    ensures TableOk(Widen(t, c, kind, fill))
    ensures !Constrained(t, c)
    ensures Narrow(Widen(t, c, kind, fill), c) == t
  {
    WidenedRowsFit(t, c, kind, fill);
    WidenedKeysHold(t, c, kind, fill);
  }

  lemma AddColumnUndone(on: TableName, c: ColumnName, kind: Column, fill: Value, db: Database)
    requires Wf(db) && Legal(AddColumn(on, c, kind, fill), db)
    ensures var next := Effect(AddColumn(on, c, kind, fill), db);
            Wf(next) && Apply(DropColumn(on, c), next) == Some(db)
  {
    var next := Effect(AddColumn(on, c, kind, fill), db);
    var t := db.tables[on];
    WidenNarrow(t, c, kind, fill);
    forall m, f | m in next.tables && f in next.tables[m].references ensures Resolves(f, next.tables) {
      assert Resolves(f, db.tables);
    }
    forall x | x in db.indexes
      ensures IndexOk(next.indexes[x], next.tables)
      ensures !(next.indexes[x].table == on && c in next.indexes[x].columns)
    {
      assert IndexOk(db.indexes[x], db.tables);
    }
    var back := Effect(DropColumn(on, c), next);
    assert back.tables == db.tables;
    assert back.indexes == db.indexes;
  }

  lemma StepUndone(op: Op, db: Database)
    requires Wf(db) && Reversible(op) && Legal(op, db)
    ensures Wf(Effect(op, db)) && Apply(Undo(op), Effect(op, db)) == Some(db)
  {
    match op
    case CreateTable(n, t) => CreateTableUndone(n, t, db);
    case CreateIndex(n, x) => CreateIndexUndone(n, x, db);
    case AddColumn(on, c, kind, fill) => AddColumnUndone(on, c, kind, fill, db);
  }

  /** Whatever a program of creations built, undoing it backwards never raises and restores
      the database exactly: tables, columns, rows and indexes. */
  lemma {:induction false} RoundTrip(ops: seq<Op>, db: Database)
    requires Wf(db) && forall op | op in ops :: Reversible(op)
    requires Run(ops, db).Some?
    ensures Wf(Run(ops, db).value)
    ensures Run(UndoAll(ops), Run(ops, db).value) == Some(db)
  {
    if ops != [] {
      var next := Effect(ops[0], db);
      StepUndone(ops[0], db);
      RoundTrip(ops[1..], next);
      RunAppend(UndoAll(ops[1..]), [Undo(ops[0])], Run(ops, db).value);
      RunOne(Undo(ops[0]), next);
    }
  }
}
