/** What holds of every chain of table declarations whose names and foreign keys are in place. */
module ChainTheory {
  import opened Options
  import opened Names
  import opened Schema
  import opened TableSpecs
  import opened Positions

  /** Declaration k creates table k. */
  ghost predicate IsChain(chain: seq<TableSpec>) {
    |chain| == LENGTH && forall k | 0 <= k < |chain| :: Placed(chain[k], k)
  }

  // ----- programs over a range of tables -----

  function UpRange(chain: seq<TableSpec>, a: nat, b: nat): seq<Op>
    requires a <= b <= |chain|
    decreases b - a
  {
    if a == b then [] else chain[a].Up() + UpRange(chain, a + 1, b)
  }

  function DownRange(chain: seq<TableSpec>, a: nat, b: nat): seq<Op>
    requires a <= b <= |chain|
    decreases b - a
  {
    if a == b then [] else DownRange(chain, a + 1, b) + chain[a].Down()
  }

  /** The downgrade as written: for each listed table its indexes, then the table. */
  function DropTables(chain: seq<TableSpec>, names: seq<TableName>): seq<Op>
    requires forall n | n in names :: n < |chain|
  {
    if names == [] then []
    else
      var n := names[0];
      assert n in names && forall m | m in names[1..] :: m in names;
      chain[n].Down() + DropTables(chain, names[1..])
  }

  lemma {:induction false} DownRangeUndoes(chain: seq<TableSpec>, a: nat, b: nat)
    requires IsChain(chain) && a <= b <= |chain|
    ensures forall op | op in UpRange(chain, a, b) :: Reversible(op)
    ensures UndoAll(UpRange(chain, a, b)) == DownRange(chain, a, b)
    decreases b - a
  {
    if a < b {
      DownUndoesUp(chain[a]);
      DownRangeUndoes(chain, a + 1, b);
      UndoAllAppend(chain[a].Up(), UpRange(chain, a + 1, b));
    }
  }

  lemma {:induction false} RangeJoin(chain: seq<TableSpec>, a: nat, b: nat, c: nat)
    requires a <= b <= c <= |chain|
    ensures UpRange(chain, a, c) == UpRange(chain, a, b) + UpRange(chain, b, c)
    ensures DownRange(chain, a, c) == DownRange(chain, b, c) + DownRange(chain, a, b)
    decreases b - a
  {
    hide TableSpec.Up, TableSpec.Down;
    if a < b { RangeJoin(chain, a + 1, b, c); }
  }

  lemma {:induction false} DownRangeLast(chain: seq<TableSpec>, a: nat, b: nat)
    requires a < b <= |chain|
    ensures DownRange(chain, a, b) == chain[b - 1].Down() + DownRange(chain, a, b - 1)
    decreases b - a
  {
    hide TableSpec.Down;
    if a < b - 1 { DownRangeLast(chain, a + 1, b); }
  }

  /** Dropping a list of tables that runs backwards through a range undoes the range. */
  lemma {:induction false} DropTablesIsDownRange(chain: seq<TableSpec>, names: seq<TableName>, a: nat, b: nat)
    requires a <= b <= |chain| && |names| == b - a
    requires forall i | 0 <= i < |names| :: names[i] == b - 1 - i
    ensures forall n | n in names :: n < |chain|
    ensures DropTables(chain, names) == DownRange(chain, a, b)
    decreases b - a
  {
    hide TableSpec.Down;
    if a < b {
      var rest := names[1..];
      assert forall i | 0 <= i < |rest| :: rest[i] == names[i + 1];
      DropTablesIsDownRange(chain, rest, a, b - 1);
      DownRangeLast(chain, a, b);
    }
  }

  // ----- the starting schema -----

  /** None of the new names is taken, and every referenced table that the range does not itself create
      is there with the referenced column unique. */
  ghost predicate Ready(chain: seq<TableSpec>, db: Database, a: nat, b: nat)
    requires a <= b <= |chain|
  {
    && (forall n | n in db.tables :: !(a <= n < b))
    && (forall n | n in db.indexes :: !(a <= IndexPosition(n) < b))
    && (forall k, f | a <= k < b && f in chain[k].references :: a <= f.table < b || Resolves(f, db.tables))
  }

  lemma ReadyAccepts(chain: seq<TableSpec>, db: Database, a: nat, b: nat)
    requires IsChain(chain) && a < b <= |chain| && Ready(chain, db, a, b)
    ensures Accepts(db, chain[a])
  {
    var t := chain[a];
    forall n | n in t.IndexNames() ensures n !in db.indexes { IndexPlaced(t, a, n); }
    forall f | f in t.references ensures Resolves(f, db.tables[a := t.ToTable()]) {
      if f.table != a { assert Resolves(f, db.tables); }
    }
  }

  lemma ResolvesNext(chain: seq<TableSpec>, f: ForeignKey, k: nat, tables: map<TableName, Table>, a: nat)
    requires IsChain(chain) && a < k < |chain| && f in chain[k].references
    requires a !in tables && (f.table == a || Resolves(f, tables))
    ensures Resolves(f, tables[a := chain[a].ToTable()])
  {
    hide TableSpec.Coherent;
    assert Placed(chain[k], k) && Placed(chain[a], a);
  }

  lemma ReadyNext(chain: seq<TableSpec>, db: Database, next: Database, a: nat, b: nat)
    requires IsChain(chain) && a < b <= |chain| && Ready(chain, db, a, b)
    requires next.tables == db.tables[a := chain[a].ToTable()]
    requires next.indexes.Keys == db.indexes.Keys + chain[a].IndexNames()
    ensures Ready(chain, next, a + 1, b)
  {
    hide TableSpec.Coherent, TableSpec.IndexNames, TableSpec.ToTable, IndexPosition, Resolves;
    forall n | n in next.indexes ensures !(a + 1 <= IndexPosition(n) < b) {
      if n in chain[a].IndexNames() { IndexPlaced(chain[a], a, n); }
    }
    forall k, f | a + 1 <= k < b && f in chain[k].references
      ensures a + 1 <= f.table < b || Resolves(f, next.tables)
    {
      if !(a + 1 <= f.table < b) { ResolvesNext(chain, f, k, db.tables, a); }
    }
  }

  /** What the upgrade of a range makes of a database. */
  ghost predicate Extends(chain: seq<TableSpec>, db: Database, out: Database, a: nat, b: nat)
    requires a <= b <= |chain|
  {
    && (forall n | n in db.tables :: n in out.tables && out.tables[n] == db.tables[n])
    && (forall k | a <= k < b :: k in out.tables && out.tables[k] == chain[k].ToTable())
    && (forall n | n in out.tables :: n in db.tables || a <= n < b)
    && (forall n | n in out.indexes :: n in db.indexes || a <= IndexPosition(n) < b)
  }

  lemma RangeStep(chain: seq<TableSpec>, db: Database, a: nat, b: nat)
    requires IsChain(chain) && a < b <= |chain| && Wf(db) && Ready(chain, db, a, b)
    ensures var next := Run(chain[a].Up(), db);
            && next.Some? && Wf(next.value)
            && Ready(chain, next.value, a + 1, b) && Extends(chain, db, next.value, a, a + 1)
  {
    hide Wf, Run, TableSpec.Up, TableSpec.ToTable, TableSpec.IndexNames, TableSpec.Coherent, Accepts;
    var t := chain[a];
    ReadyAccepts(chain, db, a, b);
    SpecRuns(t, db);
    var next := Run(t.Up(), db).value;
    ReadyNext(chain, db, next, a, b);
    forall n | n in next.indexes ensures n in db.indexes || a <= IndexPosition(n) < a + 1 {
      if n in t.IndexNames() { IndexPlaced(t, a, n); }
    }
  }

  /** Upgrading never raises; it adds the tables of the range, empty, and leaves all others alone. */
  lemma {:induction false} RangeRuns(chain: seq<TableSpec>, db: Database, a: nat, b: nat)
    requires IsChain(chain) && a <= b <= |chain| && Wf(db) && Ready(chain, db, a, b)
    ensures var out := Run(UpRange(chain, a, b), db);
            out.Some? && Wf(out.value) && Extends(chain, db, out.value, a, b)
    decreases b - a
  {
    hide Wf, Placed, Ready, Run, TableSpec.Up, TableSpec.ToTable, IndexPosition;
    RunNothing(db);
    if a < b {
      RangeStep(chain, db, a, b);
      RangeRuns(chain, Run(chain[a].Up(), db).value, a + 1, b);
      RunAppend(chain[a].Up(), UpRange(chain, a + 1, b), db);
    }
  }

  /** Some declaration of the range asks for the index. */
  ghost predicate DeclaredIn(chain: seq<TableSpec>, a: nat, b: nat, n: IndexName, x: Index)
    requires a <= b <= |chain|
  {
    exists k :: a <= k < b && chain[k].Declares(n, x)
  }

  /** The tables and indexes of the range are there exactly as declared, and all others as they were. */
  ghost predicate Built(chain: seq<TableSpec>, db: Database, out: Database, a: nat, b: nat)
    requires a <= b <= |chain|
  {
    && (forall n | n in db.tables :: n in out.tables && out.tables[n] == db.tables[n])
    && (forall k | a <= k < b :: k in out.tables && chain[k].DeclaresTable(out.tables[k]))
    && (forall n | n in out.tables :: n in db.tables || a <= n < b)
    && forall n, x :: Stands(out, n, x) <==> Stands(db, n, x) || DeclaredIn(chain, a, b, n, x)
  }

  lemma DeclaredFirst(chain: seq<TableSpec>, a: nat, b: nat)
    requires a < b <= |chain|
    ensures forall n, x :: DeclaredIn(chain, a, b, n, x) <==>
              chain[a].Declares(n, x) || DeclaredIn(chain, a + 1, b, n, x)
  {
    hide TableSpec.Declares;
  }

  ghost predicate BuiltOne(t: TableSpec, db: Database, next: Database) {
    && t.name !in db.tables && t.name in next.tables
    && next.tables == db.tables[t.name := next.tables[t.name]] && t.DeclaresTable(next.tables[t.name])
    && forall n, x :: Stands(next, n, x) <==> Stands(db, n, x) || t.Declares(n, x)
  }

  lemma BuiltStep(chain: seq<TableSpec>, db: Database, a: nat, b: nat)
    requires IsChain(chain) && a < b <= |chain| && Wf(db) && Ready(chain, db, a, b)
    ensures Run(chain[a].Up(), db).Some? && BuiltOne(chain[a], db, Run(chain[a].Up(), db).value)
    ensures chain[a].name == a
  {
    hide Wf, Run, TableSpec.Up, TableSpec.ToTable, TableSpec.IndexNames, TableSpec.Coherent, Ready;
    hide TableSpec.Declares, TableSpec.DeclaresTable, Stands, IndexPosition;
    ReadyAccepts(chain, db, a, b);
    SpecRuns(chain[a], db);
  }

  /** Upgrading a range puts every declared table there, with the declared columns, keys and foreign keys, and
      every declared index, on the declared columns, and nothing else. */
  lemma {:induction false} RangeBuilds(chain: seq<TableSpec>, db: Database, a: nat, b: nat)
    requires IsChain(chain) && a <= b <= |chain| && Wf(db) && Ready(chain, db, a, b)
    ensures var out := Run(UpRange(chain, a, b), db); out.Some? && Built(chain, db, out.value, a, b)
    decreases b - a
  {
    hide Wf, Placed, Ready, Run, TableSpec.Up, TableSpec.ToTable, TableSpec.Declares, TableSpec.DeclaresTable, Stands;
    hide DeclaredIn, IsChain, Extends;
    RunNothing(db);
    if a < b {
      RangeStep(chain, db, a, b);
      BuiltStep(chain, db, a, b);
      RangeBuilds(chain, Run(chain[a].Up(), db).value, a + 1, b);
      RunAppend(chain[a].Up(), UpRange(chain, a + 1, b), db);
      DeclaredFirst(chain, a, b);
    } else {
      NothingDeclared(chain, a);
    }
  }

  lemma NothingDeclared(chain: seq<TableSpec>, a: nat)
    requires a <= |chain|
    ensures forall n, x :: !DeclaredIn(chain, a, a, n, x)
  {}

  /** Upgrading a range and then downgrading it gives back the starting database exactly. */
  lemma RangeRoundTrip(chain: seq<TableSpec>, db: Database, a: nat, b: nat)
    requires IsChain(chain) && a <= b <= |chain| && Wf(db) && Ready(chain, db, a, b)
    ensures Run(UpRange(chain, a, b), db).Some?
    ensures Bind(Run(UpRange(chain, a, b), db), DownRange(chain, a, b)) == Some(db)
  {
    RangeRuns(chain, db, a, b);
    DownRangeUndoes(chain, a, b);
    RoundTrip(UpRange(chain, a, b), db);
  }
}
