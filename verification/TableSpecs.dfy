/** What one `create_table` call and the index loop after it declare, and the programs they stand for. */
module TableSpecs {
  import opened Names
  import opened Schema

  datatype NamedIndex = NamedIndex(name: IndexName, columns: seq<ColumnName>)

  /** `required` and `optional` are the NOT NULL and the nullable columns; `indexed` is the list the
      upgrade loops over and `dropped` the separately written list the downgrade loops over. */
  datatype TableSpec = TableSpec(
    name: TableName,
    required: seq<ColumnName>, optional: seq<ColumnName>,
    keys: seq<seq<ColumnName>>, references: seq<ForeignKey>,
    indexed: seq<ColumnName>, dropped: seq<ColumnName>,
    composite: seq<NamedIndex> := [], overrides: map<ColumnName, IndexName> := map[])
  {
    predicate Has(c: ColumnName) { c in required || c in optional }

    function ToTable(): Table {
      Table(
        (map c | c in optional :: Nullable) + (map c | c in required :: NotNull),
        set k | k in keys :: k,
        set f | f in references :: f,
        [])
    }

    function NameOf(c: ColumnName): IndexName {
      if c in overrides then overrides[c] else Indexed(name, c)
    }

    function Named(columns: seq<ColumnName>): seq<NamedIndex> {
      if columns == [] then []
      else [NamedIndex(NameOf(columns[0]), [columns[0]])] + Named(columns[1..])
    }

    function Indexes(): seq<NamedIndex> { Named(indexed) + composite }

    function Up(): seq<Op> {
      [CreateTable(name, ToTable())] + CreateIndexOps(name, Indexes())
    }

    function Down(): seq<Op> {
      DropIndexOps(name, Named(dropped) + composite) + [DropTable(name)]
    }

    function IndexNames(): set<IndexName> { set x | x in Indexes() :: x.name }

    /** The index named n, on x, is one of those the declaration asks for: one on each listed column, named after
        it unless there is an override, and the composite ones. */
    ghost predicate Declares(n: IndexName, x: Index) {
      || (exists c :: c in indexed && n == (if c in overrides then overrides[c] else Indexed(name, c)) &&
            x == Index(name, [c]))
      || (exists y :: y in composite && n == y.name && x == Index(name, y.columns))
    }

    /** The table t is as declared and empty. */
    ghost predicate DeclaresTable(t: Table) {
      && (forall c :: c in t.columns <==> c in required || c in optional)
      && (forall c | c in t.columns :: t.columns[c] == NotNull <==> c in required)
      && (forall k :: k in t.keys <==> k in keys)
      && (forall f :: f in t.references <==> f in references)
      && t.rows == []
    }

    /** Keys, foreign keys and indexes only use columns of the table. */
    ghost predicate ColumnsExist() {
      && (forall k | k in keys :: k != [] && forall c | c in k :: Has(c))
      && (forall f | f in references :: Has(f.column))
      && (forall c | c in indexed :: Has(c))
      && (forall x | x in composite :: x.columns != [] && forall c | c in x.columns :: Has(c))
    }

    /** The downgrade drops what the upgrade created, and no two indexes of the table share a name. */
    ghost predicate IndexesMatch() {
      && dropped == indexed && Unrepeated(indexed)
      && (forall x | x in composite :: !x.name.Indexed?)
      && (forall c | c in overrides :: !overrides[c].Indexed?)
      && |composite| <= 1 && |overrides| <= 1
      && (forall x, c | x in composite && c in overrides :: x.name != overrides[c])
    }

    /** Everything that can be said of the declaration on its own. */
    ghost predicate Coherent() { ColumnsExist() && IndexesMatch() }
  }

  predicate Unrepeated<T(==)>(s: seq<T>) {
    forall i, j | 0 <= i < j < |s| :: s[i] != s[j]
  }

  lemma UnrepeatedJoin<T>(a: seq<T>, b: seq<T>)
    requires Unrepeated(a) && Unrepeated(b) && forall x | x in a :: x !in b
    ensures Unrepeated(a + b)
  {
    forall i, j | 0 <= i < j < |a + b| ensures (a + b)[i] != (a + b)[j] {
      if i < |a| <= j { assert a[i] in a && b[j - |a|] in b; }
    }
  }

  function CreateIndexOps(table: TableName, xs: seq<NamedIndex>): seq<Op> {
    if xs == [] then []
    else [CreateIndex(xs[0].name, Index(table, xs[0].columns))] + CreateIndexOps(table, xs[1..])
  }

  /** The loop over `reversed(...)`. */
  function DropIndexOps(table: TableName, xs: seq<NamedIndex>): seq<Op> {
    if xs == [] then [] else DropIndexOps(table, xs[1..]) + [DropIndex(xs[0].name, table)]
  }

  lemma {:induction false} DropsUndoCreates(table: TableName, xs: seq<NamedIndex>)
    ensures forall op | op in CreateIndexOps(table, xs) :: Reversible(op)
    ensures UndoAll(CreateIndexOps(table, xs)) == DropIndexOps(table, xs)
  {
    if xs != [] {
      DropsUndoCreates(table, xs[1..]);
      var ops := CreateIndexOps(table, xs);
      assert ops[1..] == CreateIndexOps(table, xs[1..]);
    }
  }

  lemma DownUndoesUp(t: TableSpec)
    requires t.dropped == t.indexed
    ensures forall op | op in t.Up() :: Reversible(op)
    ensures UndoAll(t.Up()) == t.Down()
  {
    var create := [CreateTable(t.name, t.ToTable())];
    DropsUndoCreates(t.name, t.Indexes());
    assert UndoAll(create) == [DropTable(t.name)] by { assert create[1..] == []; }
    UndoAllAppend(create, CreateIndexOps(t.name, t.Indexes()));
  }

  // ----- creating a table with its indexes never raises where its names are free -----

  ghost predicate IndexesFit(table: TableName, xs: seq<NamedIndex>, db: Database) {
    && (forall x | x in xs ::
          x.name !in db.indexes && IndexOk(Index(table, x.columns), db.tables))
    && forall i, j | 0 <= i < j < |xs| :: xs[i].name != xs[j].name
  }

  lemma IndexesFitNext(table: TableName, xs: seq<NamedIndex>, db: Database)
    requires xs != [] && IndexesFit(table, xs, db)
    ensures var first := CreateIndex(xs[0].name, Index(table, xs[0].columns));
            Legal(first, db) && IndexesFit(table, xs[1..], Effect(first, db))
  {
    assert xs[0] in xs;
    forall j | 1 <= j < |xs| ensures xs[j] in xs && xs[0].name != xs[j].name {}
  }

  /** The database has the index. */
  predicate Stands(db: Database, n: IndexName, x: Index) { n in db.indexes && db.indexes[n] == x }

  ghost predicate Listed(table: TableName, xs: seq<NamedIndex>, n: IndexName, x: Index) {
    exists y :: y in xs && n == y.name && x == Index(table, y.columns)
  }

  /** Exactly the listed indexes come in, each on its own columns, and the others stay. */
  lemma {:induction false} IndexesRun(table: TableName, xs: seq<NamedIndex>, db: Database)
    requires IndexesFit(table, xs, db)
    ensures var out := Run(CreateIndexOps(table, xs), db);
            out.Some? && out.value.tables == db.tables &&
            out.value.indexes.Keys == (db.indexes.Keys + set x | x in xs :: x.name) &&
            forall n, x :: Stands(out.value, n, x) <==> Stands(db, n, x) || Listed(table, xs, n, x)
  {
    if xs != [] {
      var ops := CreateIndexOps(table, xs);
      assert ops[1..] == CreateIndexOps(table, xs[1..]);
      IndexesFitNext(table, xs, db);
      IndexesRun(table, xs[1..], Effect(ops[0], db));
      ListedFirst(table, xs);
      assert xs == [xs[0]] + xs[1..];
      assert xs[0].name !in db.indexes by { assert xs[0] in xs; }
      hide Listed, IndexesFit, IndexOk, CreateIndexOps;
    }
  }

  lemma ListedFirst(table: TableName, xs: seq<NamedIndex>)
    requires xs != []
    ensures forall n, x :: Listed(table, xs, n, x) <==>
              (n == xs[0].name && x == Index(table, xs[0].columns)) || Listed(table, xs[1..], n, x)
  {
    assert forall y :: y in xs <==> y == xs[0] || y in xs[1..];
  }

  lemma {:induction false} NamedContents(t: TableSpec, columns: seq<ColumnName>)
    ensures |t.Named(columns)| == |columns|
    ensures forall i | 0 <= i < |columns| :: t.Named(columns)[i] == NamedIndex(t.NameOf(columns[i]), [columns[i]])
  {
    if columns != [] { NamedContents(t, columns[1..]); }
  }

  lemma IndexNamesDiffer(t: TableSpec, c: ColumnName, d: ColumnName)
    requires t.Coherent() && c in t.indexed && d in t.indexed && c != d
    ensures t.NameOf(c) != t.NameOf(d)
  {
    if c in t.overrides && d in t.overrides {
      assert {c, d} <= t.overrides.Keys;
      assert |{c, d}| == 2;
      Cardinality({c, d}, t.overrides.Keys);
    }
  }

  lemma Cardinality<T>(a: set<T>, b: set<T>)
    requires a <= b
    ensures |a| <= |b|
  {
    assert b == a + (b - a);
  }

  /** The database the declaration can be added to: free names and resolvable foreign keys. */
  ghost predicate Accepts(db: Database, t: TableSpec) {
    && t.name !in db.tables && t.IndexNames() !! db.indexes.Keys
    && forall f | f in t.references :: Resolves(f, db.tables[t.name := t.ToTable()])
  }

  lemma DeclaredIndexesOk(t: TableSpec, tables: map<TableName, Table>)
    requires t.ColumnsExist() && t.name in tables && tables[t.name] == t.ToTable()
    ensures forall x | x in t.Indexes() :: IndexOk(Index(t.name, x.columns), tables)
  {
    var xs := t.Indexes();
    NamedContents(t, t.indexed);
    forall i | 0 <= i < |xs| ensures IndexOk(Index(t.name, xs[i].columns), tables) {
      if i < |t.indexed| { assert t.indexed[i] in t.indexed; } else { assert xs[i] in t.composite; }
    }
  }

  lemma DeclaredNamesDiffer(t: TableSpec)
    requires t.Coherent()
    ensures var xs := t.Indexes(); forall i, j | 0 <= i < j < |xs| :: xs[i].name != xs[j].name
  {
    hide TableSpec.ColumnsExist;
    var xs := t.Indexes();
    NamedContents(t, t.indexed);
    forall i, j | 0 <= i < j < |xs| ensures xs[i].name != xs[j].name {
      if j < |t.indexed| {
        IndexNamesDiffer(t, t.indexed[i], t.indexed[j]);
      } else {
        assert xs[j] in t.composite && t.indexed[i] in t.indexed;
      }
    }
  }

  lemma IndexesDeclared(t: TableSpec, db: Database)
    requires t.Coherent() && t.name in db.tables && db.tables[t.name] == t.ToTable()
    requires t.IndexNames() !! db.indexes.Keys
    ensures IndexesFit(t.name, t.Indexes(), db)
  {
    DeclaredIndexesOk(t, db.tables);
    DeclaredNamesDiffer(t);
    hide TableSpec.Indexes, TableSpec.ToTable, TableSpec.ColumnsExist, TableSpec.IndexesMatch, IndexOk;
    forall x | x in t.Indexes() ensures x.name !in db.indexes { assert x.name in t.IndexNames(); }
  }

  lemma IndexesMeaning(t: TableSpec)
    ensures forall n, x :: Listed(t.name, t.Indexes(), n, x) <==> t.Declares(n, x)
  {
    NamedContents(t, t.indexed);
    var xs := t.Named(t.indexed);
    forall n, x ensures Listed(t.name, t.Indexes(), n, x) <==> t.Declares(n, x) {
      if y :| y in t.Indexes() && n == y.name && x == Index(t.name, y.columns) && y !in t.composite {
        var i :| 0 <= i < |xs| && xs[i] == y;
        assert t.indexed[i] in t.indexed;
      }
      if c :| c in t.indexed && n == t.NameOf(c) && x == Index(t.name, [c]) {
        var i :| 0 <= i < |xs| && t.indexed[i] == c;
        assert t.Indexes()[i] == NamedIndex(n, [c]);
      }
    }
  }

  lemma TableMeaning(t: TableSpec)
    ensures t.DeclaresTable(t.ToTable())
  {}

  /** Creating what is declared never raises where its names are free; it adds the table with exactly the
      declared columns, keys and foreign keys and exactly the declared indexes, and leaves all else alone. */
  lemma SpecRuns(t: TableSpec, db: Database)
    requires Wf(db) && t.Coherent() && Accepts(db, t)
    ensures var out := Run(t.Up(), db);
            out.Some? && Wf(out.value) &&
            out.value.tables == db.tables[t.name := t.ToTable()] && t.DeclaresTable(t.ToTable()) &&
            out.value.indexes.Keys == db.indexes.Keys + t.IndexNames() &&
            forall n, x :: Stands(out.value, n, x) <==> Stands(db, n, x) || t.Declares(n, x)
  {
    hide TableSpec.Declares, TableSpec.DeclaresTable, Listed;
    TableMeaning(t);
    IndexesMeaning(t);
    var create := CreateTable(t.name, t.ToTable());
    assert Legal(create, db);
    var next := Effect(create, db);
    RunOne(create, db);
    IndexesDeclared(t, next);
    IndexesRun(t.name, t.Indexes(), next);
    RunAppend([create], CreateIndexOps(t.name, t.Indexes()), db);
    DownUndoesUp(t);
    RoundTrip(t.Up(), db);
  }
}
