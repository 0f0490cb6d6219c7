/** Revision 0024 on a database in use: the schema is the one the upgrade leaves, the rows are anything. */
module InUse {
  import opened Options
  import opened Names
  import opened Schema
  import opened Renaming
  import opened Integrity
  import opened FamilyRewrite
  import opened Revision0024

  // ----- dropping columns from arbitrary rows -----

  function NameSet(names: seq<ColumnName>): set<ColumnName> { set c | c in names }

  function NarrowRow(r: Row, names: seq<ColumnName>): Row { r - NameSet(names) }

  /** The table without the named columns. */
  function NarrowedTable(t: Table, names: seq<ColumnName>): Table {
    t.(columns := t.columns - NameSet(names),
       rows := seq(|t.rows|, i requires 0 <= i < |t.rows| => NarrowRow(t.rows[i], names)))
  }

  predicate Different(names: seq<ColumnName>) {
    forall i, j | 0 <= i < j < |names| :: names[i] != names[j]
  }

  predicate Free(x: Index, on: TableName, names: seq<ColumnName>) {
    x.table == on ==> forall c | c in names :: c !in x.columns
  }

  /** The columns are there, and no key, foreign key or index is on them. */
  ghost predicate Droppable(db: Database, on: TableName, names: seq<ColumnName>) {
    && on in db.tables && Different(names)
    && (forall c | c in names :: c in db.tables[on].columns && !Constrained(db.tables[on], c))
    && (forall x | x in db.indexes :: Free(db.indexes[x], on, names))
  }

  lemma NarrowedByNothing(t: Table)
    ensures NarrowedTable(t, []) == t
  {
    var u := NarrowedTable(t, []);
    assert u.columns == t.columns;
    assert forall i | 0 <= i < |t.rows| :: NarrowRow(t.rows[i], []) == t.rows[i];
    assert u.rows == t.rows;
  }

  lemma NarrowedStep(t: Table, names: seq<ColumnName>)
    requires names != []
    ensures Narrow(NarrowedTable(t, names[1..]), names[0]) == NarrowedTable(t, names)
  {
    var rest := names[1..];
    assert NameSet(names) == NameSet(rest) + {names[0]} by {
      assert forall c :: c in names <==> c == names[0] || c in rest;
    }
    hide NameSet;
    var a, b := Narrow(NarrowedTable(t, rest), names[0]), NarrowedTable(t, names);
    assert a.columns == b.columns;
    assert forall i | 0 <= i < |t.rows| :: NarrowRow(t.rows[i], rest) - {names[0]} == NarrowRow(t.rows[i], names);
    assert a.rows == b.rows;
  }

  lemma LastDropped(db: Database, on: TableName, names: seq<ColumnName>)
    requires names != [] && Droppable(db, on, names)
    ensures var mid := db.(tables := db.tables[on := NarrowedTable(db.tables[on], names[1..])]);
            Apply(DropColumn(on, names[0]), mid) ==
            Some(db.(tables := db.tables[on := NarrowedTable(db.tables[on], names)]))
  {
    var t := db.tables[on];
    var mid := db.(tables := db.tables[on := NarrowedTable(t, names[1..])]);
    assert names[0] in names && names[0] !in NameSet(names[1..]);
    assert Constrained(mid.tables[on], names[0]) <==> Constrained(t, names[0]);
    NarrowedStep(t, names);
    hide Constrained, NarrowedTable, Narrow;
    var out := Effect(DropColumn(on, names[0]), mid);
    assert forall x | x in db.indexes :: Free(db.indexes[x], on, names);
    assert out.indexes == db.indexes;
    assert out.tables == db.tables[on := NarrowedTable(t, names)];
  }

  lemma {:induction false} DropsRun(on: TableName, names: seq<ColumnName>, db: Database)
    requires Droppable(db, on, names)
    ensures Run(DropOps(on, names), db) == Some(db.(tables := db.tables[on := NarrowedTable(db.tables[on], names)]))
  {
    if names == [] {
      NarrowedByNothing(db.tables[on]);
      assert db.tables[on := db.tables[on]] == db.tables;
    } else {
      var rest := names[1..];
      assert Droppable(db, on, rest) by { DroppableRest(db, on, names); }
      LastDropped(db, on, names);
      hide Droppable, NarrowedTable, Apply;
      DropsRun(on, rest, db);
      var mid := db.(tables := db.tables[on := NarrowedTable(db.tables[on], rest)]);
      RunAppend(DropOps(on, rest), [DropColumn(on, names[0])], db);
      RunOne(DropColumn(on, names[0]), mid);
    }
  }

  lemma DroppableRest(db: Database, on: TableName, names: seq<ColumnName>)
    requires names != [] && Droppable(db, on, names)
    ensures Droppable(db, on, names[1..])
  {
    hide Constrained;
    var rest := names[1..];
    assert forall c | c in rest :: c in names;
    forall x | x in db.indexes ensures Free(db.indexes[x], on, rest) { assert Free(db.indexes[x], on, names); }
  }

  // ----- filling the columns again -----

  /** The table has all the columns, as 0024 declares them. */
  ghost predicate Wide(t: Table, columns: seq<NewColumn>) {
    forall i | 0 <= i < |columns| :: columns[i].name in t.columns && t.columns[columns[i].name] == columns[i].kind
  }

  predicate Named(columns: seq<NewColumn>, names: seq<ColumnName>) {
    |names| == |columns| && forall i | 0 <= i < |names| :: names[i] == columns[i].name
  }

  /** The row holds the defaults in the new columns. */
  ghost predicate HoldsDefaults(r: Row, columns: seq<NewColumn>) {
    forall i | 0 <= i < |columns| :: columns[i].name in r && r[columns[i].name] == columns[i].fill
  }

  lemma {:induction false} FillsKeys(columns: seq<NewColumn>, names: seq<ColumnName>)
    requires Named(columns, names)
    ensures Fills(columns).Keys == NameSet(names) && Kinds(columns).Keys == NameSet(names)
  {
    if columns != [] {
      FillsKeys(columns[1..], names[1..]);
      assert NameSet(names) == {names[0]} + NameSet(names[1..]) by {
        assert forall c :: c in names <==> c == names[0] || c in names[1..];
      }
    }
  }

  lemma {:induction false} FillsFresh(columns: seq<NewColumn>, c: ColumnName)
    requires forall i | 0 <= i < |columns| :: columns[i].name != c
    ensures c !in Fills(columns) && c !in Kinds(columns)
  {
    if columns != [] { FillsFresh(columns[1..], c); }
  }

  lemma {:induction false} FillsAt(columns: seq<NewColumn>, k: nat)
    requires Sensible(columns) && k < |columns|
    ensures columns[k].name in Fills(columns) && Fills(columns)[columns[k].name] == columns[k].fill
    ensures columns[k].name in Kinds(columns) && Kinds(columns)[columns[k].name] == columns[k].kind
    decreases k
  {
    var rest := columns[1..];
    assert forall i | 0 <= i < |rest| :: rest[i] == columns[i + 1];
    if k == 0 { FillsFresh(rest, columns[0].name); } else { FillsAt(rest, k - 1); }
  }

  lemma FillsMeaning(columns: seq<NewColumn>, names: seq<ColumnName>)
    requires Sensible(columns) && Named(columns, names)
    ensures Fills(columns).Keys == NameSet(names) && HoldsDefaults(Fills(columns), columns)
    ensures Kinds(columns).Keys == NameSet(names)
    ensures forall i | 0 <= i < |columns| ::
              columns[i].name in Kinds(columns) && Kinds(columns)[columns[i].name] == columns[i].kind
  {
    FillsKeys(columns, names);
    hide Fills, Kinds, Sensible;
    forall i | 0 <= i < |columns|
      ensures columns[i].name in Fills(columns) && Fills(columns)[columns[i].name] == columns[i].fill
      ensures columns[i].name in Kinds(columns) && Kinds(columns)[columns[i].name] == columns[i].kind
    {
      FillsAt(columns, i);
    }
  }

  lemma RefilledRow(r: Row, columns: seq<NewColumn>, names: seq<ColumnName>)
    requires Sensible(columns) && Named(columns, names) && forall c | c in names :: c in r
    ensures CompleteRow(NarrowRow(r, names), columns) == r <==> HoldsDefaults(r, columns)
  {
    FillsMeaning(columns, names);
    var s := CompleteRow(NarrowRow(r, names), columns);
    assert forall i | 0 <= i < |columns| :: names[i] in names;
    assert forall i | 0 <= i < |columns| :: s[columns[i].name] == columns[i].fill;
    hide Fills, Kinds, Sensible;
    if HoldsDefaults(r, columns) {
      assert s.Keys == r.Keys;
      forall c | c in r ensures s[c] == r[c] {
        if c in names { var i :| 0 <= i < |names| && names[i] == c; assert columns[i].name == c; }
      }
    }
  }

  /** Taking the new columns away and adding them again gives the table back exactly when all its rows hold
      the defaults. */
  lemma RefilledTable(t: Table, columns: seq<NewColumn>, names: seq<ColumnName>)
    requires TableOk(t) && Sensible(columns) && Named(columns, names) && Wide(t, columns)
    ensures Completed(NarrowedTable(t, names), columns) == t <==> forall r | r in t.rows :: HoldsDefaults(r, columns)
  {
    hide HoldsDefaults, CompleteRow, NarrowRow, TableOk, Wide, Named, Sensible, NameSet, Kinds, Fills;
    var u := Completed(NarrowedTable(t, names), columns);
    RefilledColumns(t, columns, names);
    NamesInTable(t, columns, names);
    RefilledRows(t, columns, names);
    assert u.keys == t.keys && u.references == t.references;
    hide Completed, NarrowedTable;
    if forall r | r in t.rows :: HoldsDefaults(r, columns) {
      assert u.rows == t.rows;
    } else {
      var r :| r in t.rows && !HoldsDefaults(r, columns);
      var i :| 0 <= i < |t.rows| && t.rows[i] == r;
      assert u.rows[i] != t.rows[i];
    }
  }

  lemma RefilledRows(t: Table, columns: seq<NewColumn>, names: seq<ColumnName>)
    requires TableOk(t) && Sensible(columns) && Named(columns, names) && forall c | c in names :: c in t.columns
    ensures var u := Completed(NarrowedTable(t, names), columns);
            && |u.rows| == |t.rows|
            && forall i | 0 <= i < |t.rows| :: u.rows[i] == t.rows[i] <==> HoldsDefaults(t.rows[i], columns)
  {
    hide HoldsDefaults, CompleteRow, NarrowRow, KeysHold, Sensible, Named;
    forall i | 0 <= i < |t.rows|
      ensures CompleteRow(NarrowRow(t.rows[i], names), columns) == t.rows[i] <==> HoldsDefaults(t.rows[i], columns)
    {
      assert RowFits(t.rows[i], t.columns);
      RefilledRow(t.rows[i], columns, names);
    }
  }

  lemma NamesInTable(t: Table, columns: seq<NewColumn>, names: seq<ColumnName>)
    requires Wide(t, columns) && Named(columns, names)
    ensures forall c | c in names :: c in t.columns
  {
    forall c | c in names ensures c in t.columns { var i :| 0 <= i < |names| && names[i] == c; }
  }

  lemma RefilledMap<V>(m: map<ColumnName, V>, rest: map<ColumnName, V>)
    requires forall c | c in rest :: c in m && rest[c] == m[c]
    ensures m - rest.Keys + rest == m
  {}

  lemma RefilledColumns(t: Table, columns: seq<NewColumn>, names: seq<ColumnName>)
    requires Sensible(columns) && Named(columns, names) && Wide(t, columns)
    ensures Completed(NarrowedTable(t, names), columns).columns == t.columns
  {
    FillsMeaning(columns, names);
    var kinds := Kinds(columns);
    hide Fills, Kinds, Sensible, HoldsDefaults;
    forall c | c in kinds ensures c in t.columns && kinds[c] == t.columns[c] {
      assert c in names;
      var i :| 0 <= i < |names| && names[i] == c;
      assert columns[i].name == c;
    }
    RefilledMap(t.columns, kinds);
  }

  // ----- the completed schema -----

  /** The schema the upgrade leaves, whatever the rows: both tables have the new columns as declared, nothing
      but the two new indexes is on them, and the rewritten tables are there. */
  ghost predicate Complete(db: Database) {
    && COMMERCIAL_SIGNALS in db.tables && ORGANIZATION_ID in db.tables[COMMERCIAL_SIGNALS].columns
    && NEED_HYPOTHESES in db.tables && ORGANIZATION_ID in db.tables[NEED_HYPOTHESES].columns
    && Wide(db.tables[COMMERCIAL_SIGNALS], SIGNAL_COLUMNS) && Wide(db.tables[NEED_HYPOTHESES], HYPOTHESIS_COLUMNS)
    && SIGNAL_INDEX in db.indexes && db.indexes[SIGNAL_INDEX] == Index(COMMERCIAL_SIGNALS, SIGNAL_INDEXED)
    && HYPOTHESIS_INDEX in db.indexes && db.indexes[HYPOTHESIS_INDEX] == Index(NEED_HYPOTHESES, HYPOTHESIS_INDEXED)
    && Unbound(db.tables[COMMERCIAL_SIGNALS], SIGNAL_DROPS) && Unbound(db.tables[NEED_HYPOTHESES], HYPOTHESIS_DROPS)
    && (forall x | x in db.indexes && x != SIGNAL_INDEX :: Free(db.indexes[x], COMMERCIAL_SIGNALS, SIGNAL_DROPS))
    && (forall x | x in db.indexes && x != HYPOTHESIS_INDEX :: Free(db.indexes[x], NEED_HYPOTHESES, HYPOTHESIS_DROPS))
    && Rewritable(db)
  }

  /** No key and no foreign key is on the columns. */
  ghost predicate Unbound(t: Table, names: seq<ColumnName>) { forall c | c in names :: !Constrained(t, c) }

  /** The database without the new columns and indexes. */
  function Narrowed(db: Database): Database
    requires COMMERCIAL_SIGNALS in db.tables && NEED_HYPOTHESES in db.tables
  {
    Database(
      db.tables[NEED_HYPOTHESES := NarrowedTable(db.tables[NEED_HYPOTHESES], HYPOTHESIS_DROPS)]
               [COMMERCIAL_SIGNALS := NarrowedTable(db.tables[COMMERCIAL_SIGNALS], SIGNAL_DROPS)],
      db.indexes - {HYPOTHESIS_INDEX, SIGNAL_INDEX})
  }

  ghost predicate Defaults(db: Database)
    requires COMMERCIAL_SIGNALS in db.tables && NEED_HYPOTHESES in db.tables
  {
    && (forall r | r in db.tables[COMMERCIAL_SIGNALS].rows :: HoldsDefaults(r, SIGNAL_COLUMNS))
    && (forall r | r in db.tables[NEED_HYPOTHESES].rows :: HoldsDefaults(r, HYPOTHESIS_COLUMNS))
  }

  lemma SignalNames()
    ensures Named(SIGNAL_COLUMNS, SIGNAL_DROPS) && Different(SIGNAL_DROPS) && ORGANIZATION_ID !in SIGNAL_DROPS
  {}

  lemma HypothesisNames()
    ensures Named(HYPOTHESIS_COLUMNS, HYPOTHESIS_DROPS) && Different(HYPOTHESIS_DROPS)
    ensures ORGANIZATION_ID !in HYPOTHESIS_DROPS
  {}

  lemma NarrowRuns(db: Database, on: TableName, columns: seq<NewColumn>, names: seq<ColumnName>, index: IndexName)
    requires on in db.tables && Wide(db.tables[on], columns) && Named(columns, names) && Different(names)
    requires Unbound(db.tables[on], names) && index in db.indexes && db.indexes[index].table == on
    requires forall x | x in db.indexes && x != index :: Free(db.indexes[x], on, names)
    ensures Run(NarrowOps(on, names, index), db) ==
            Some(Database(db.tables[on := NarrowedTable(db.tables[on], names)], db.indexes - {index}))
  {
    NamesInTable(db.tables[on], columns, names);
    var drop := DropIndex(index, on);
    var mid := db.(indexes := db.indexes - {index});
    hide Constrained, NarrowedTable, Different, Free;
    assert Apply(drop, db) == Some(mid);
    assert Droppable(mid, on, names);
    hide Droppable, Unbound;
    RunOne(drop, db);
    RunAppend([drop], DropOps(on, names), db);
    DropsRun(on, names, mid);
  }

  lemma HypothesesNarrowed(db: Database)
    requires Complete(db)
    ensures Run(NarrowOps(NEED_HYPOTHESES, HYPOTHESIS_DROPS, HYPOTHESIS_INDEX), db) ==
            Some(Database(
              db.tables[NEED_HYPOTHESES := NarrowedTable(db.tables[NEED_HYPOTHESES], HYPOTHESIS_DROPS)],
              db.indexes - {HYPOTHESIS_INDEX}))
  {
    hide SIGNAL_COLUMNS, HYPOTHESIS_COLUMNS, SIGNAL_DROPS, HYPOTHESIS_DROPS, SIGNAL_INDEX, HYPOTHESIS_INDEX;
    hide NarrowOps, NarrowedTable, Wide, Named, Different, Unbound, Free, Run;
    HypothesisNames();
    NarrowRuns(db, NEED_HYPOTHESES, HYPOTHESIS_COLUMNS, HYPOTHESIS_DROPS, HYPOTHESIS_INDEX);
  }

  lemma SignalsNarrowed(db: Database, mid: Database)
    requires Complete(db) && COMMERCIAL_SIGNALS in mid.tables && mid.indexes == db.indexes - {HYPOTHESIS_INDEX}
    requires mid.tables[COMMERCIAL_SIGNALS] == db.tables[COMMERCIAL_SIGNALS]
    ensures Run(NarrowOps(COMMERCIAL_SIGNALS, SIGNAL_DROPS, SIGNAL_INDEX), mid) ==
            Some(Database(
              mid.tables[COMMERCIAL_SIGNALS := NarrowedTable(db.tables[COMMERCIAL_SIGNALS], SIGNAL_DROPS)],
              mid.indexes - {SIGNAL_INDEX}))
  {
    hide SIGNAL_COLUMNS, HYPOTHESIS_COLUMNS, SIGNAL_DROPS, HYPOTHESIS_DROPS, SIGNAL_INDEX, HYPOTHESIS_INDEX;
    hide NarrowOps, NarrowedTable, Wide, Named, Different, Unbound, Free, Run;
    SignalNames();
    IndexNamesDiffer();
    NarrowRuns(mid, COMMERCIAL_SIGNALS, SIGNAL_COLUMNS, SIGNAL_DROPS, SIGNAL_INDEX);
  }

  /** The column half of the downgrade never raises on the completed schema. */
  lemma ColumnsDownRun(db: Database)
    requires Complete(db)
    ensures Run(ColumnsDown(), db) == Some(Narrowed(db)) && Ready(Narrowed(db))
  {
    NarrowedWidenable(db);
    HypothesesNarrowed(db);
    CompleteRewritable(db);
    hide SIGNAL_COLUMNS, HYPOTHESIS_COLUMNS, SIGNAL_DROPS, HYPOTHESIS_DROPS, SIGNAL_INDEX, HYPOTHESIS_INDEX;
    hide NarrowOps, NarrowedTable, Complete, Run, Ready;
    var hypotheses := NarrowOps(NEED_HYPOTHESES, HYPOTHESIS_DROPS, HYPOTHESIS_INDEX);
    var signals := NarrowOps(COMMERCIAL_SIGNALS, SIGNAL_DROPS, SIGNAL_INDEX);
    SignalsNarrowed(db, Run(hypotheses, db).value);
    RunAppend(hypotheses, signals, db);
    assert (db.indexes - {HYPOTHESIS_INDEX}) - {SIGNAL_INDEX} == db.indexes - {HYPOTHESIS_INDEX, SIGNAL_INDEX};
  }

  lemma NarrowedLacks(t: Table, columns: seq<NewColumn>, names: seq<ColumnName>)
    requires Named(columns, names)
    ensures forall i | 0 <= i < |columns| :: columns[i].name !in NarrowedTable(t, names).columns
    ensures ORGANIZATION_ID in t.columns && ORGANIZATION_ID !in names ==>
              ORGANIZATION_ID in NarrowedTable(t, names).columns
  {
    assert forall i | 0 <= i < |columns| :: names[i] in names;
  }

  lemma NarrowedWidenable(db: Database)
    requires Complete(db)
    ensures Ready(Narrowed(db))
  {
    SignalNames();
    HypothesisNames();
    NarrowedLacks(db.tables[COMMERCIAL_SIGNALS], SIGNAL_COLUMNS, SIGNAL_DROPS);
    NarrowedLacks(db.tables[NEED_HYPOTHESES], HYPOTHESIS_COLUMNS, HYPOTHESIS_DROPS);
    hide SIGNAL_COLUMNS, HYPOTHESIS_COLUMNS, SIGNAL_DROPS, HYPOTHESIS_DROPS, SIGNAL_INDEX, HYPOTHESIS_INDEX;
    hide NarrowedTable, Wide, Named, Different, Unbound, Free;
  }

  lemma CompletedWide(t: Table, columns: seq<NewColumn>, names: seq<ColumnName>)
    requires TableOk(t) && Addable(t, columns) && Named(columns, names)
    ensures Wide(Completed(t, columns), columns) && Unbound(Completed(t, columns), names)
    ensures forall c | c in names :: c !in t.columns
    ensures forall c | c in t.columns :: c in Completed(t, columns).columns
  {
    FillsMeaning(columns, names);
    forall c | c in names ensures c !in t.columns { var i :| 0 <= i < |names| && names[i] == c; }
    hide Fills, Kinds, Sensible, RowFits, KeysHold;
    forall c | c in names ensures !Constrained(Completed(t, columns), c) {
      assert forall key | key in t.keys :: c !in key;
    }
  }

  lemma IndexesFree(db: Database, on: TableName, names: seq<ColumnName>)
    requires Wf(db) && on in db.tables && forall c | c in names :: c !in db.tables[on].columns
    ensures forall x | x in db.indexes :: Free(db.indexes[x], on, names)
  {
    hide TableOk;
    forall x | x in db.indexes ensures Free(db.indexes[x], on, names) { assert IndexOk(db.indexes[x], db.tables); }
  }

  lemma NewTablesOk(db: Database)
    requires Wf(db) && Ready(db)
    ensures Rewritable(db) && Widenable(db) && TableOk(db.tables[COMMERCIAL_SIGNALS])
    ensures TableOk(db.tables[NEED_HYPOTHESES])
    ensures Addable(db.tables[COMMERCIAL_SIGNALS], SIGNAL_COLUMNS)
    ensures Addable(db.tables[NEED_HYPOTHESES], HYPOTHESIS_COLUMNS)
  {
    SignalColumnsSensible();
    HypothesisColumnsSensible();
    hide SIGNAL_COLUMNS, HYPOTHESIS_COLUMNS, SIGNAL_INDEX, HYPOTHESIS_INDEX, TableOk, Sensible;
  }

  /** The upgrade leaves the completed schema. */
  lemma WidenedComplete(db: Database)
    requires Wf(db) && Ready(db)
    ensures Complete(Widened(db))
  {
    hide SIGNAL_COLUMNS, HYPOTHESIS_COLUMNS, SIGNAL_DROPS, HYPOTHESIS_DROPS, SIGNAL_INDEX, HYPOTHESIS_INDEX;
    hide TableOk, Sensible, Named, Wide, Unbound, Completed, Different, Addable, Free, Wf;
    SignalNames();
    HypothesisNames();
    IndexNamesDiffer();
    NewTablesOk(db);
    CompletedWide(db.tables[COMMERCIAL_SIGNALS], SIGNAL_COLUMNS, SIGNAL_DROPS);
    CompletedWide(db.tables[NEED_HYPOTHESES], HYPOTHESIS_COLUMNS, HYPOTHESIS_DROPS);
    IndexesFree(db, COMMERCIAL_SIGNALS, SIGNAL_DROPS);
    IndexesFree(db, NEED_HYPOTHESES, HYPOTHESIS_DROPS);
    OtherTable(NEED_HYPOTHESES, HYPOTHESIS_INDEXED, COMMERCIAL_SIGNALS, SIGNAL_DROPS);
    OtherTable(COMMERCIAL_SIGNALS, SIGNAL_INDEXED, NEED_HYPOTHESES, HYPOTHESIS_DROPS);
  }

  lemma OtherTable(table: TableName, columns: seq<ColumnName>, on: TableName, names: seq<ColumnName>)
    requires table != on
    ensures Free(Index(table, columns), on, names)
  {}

  // ----- the downgrade, and the upgrade after it -----

  /** The rewrite and the columns are on different tables. */
  lemma RenamedAlike(d: Dictionary, db: Database)
    requires Complete(db)
    ensures Complete(Renamed(d, db))
    ensures Narrowed(Renamed(d, db)) == Renamed(d, Narrowed(db))
    ensures Defaults(Renamed(d, db)) <==> Defaults(db)
    ensures Rewritable(Narrowed(db)) && (Clashes(d, Narrowed(db)) <==> Clashes(d, db))
  {
    assert Rewritable(Renamed(d, db));
    hide SIGNAL_COLUMNS, HYPOTHESIS_COLUMNS, SIGNAL_DROPS, HYPOTHESIS_DROPS, SIGNAL_INDEX, HYPOTHESIS_INDEX;
    hide NarrowedTable, RenameTable, Wide, Unbound, Free, Clash, HoldsDefaults;
    assert Narrowed(Renamed(d, db)).tables == Renamed(d, Narrowed(db)).tables;
  }

  lemma CompleteRewritable(db: Database)
    requires Complete(db)
    ensures Rewritable(db) && COMMERCIAL_SIGNALS in db.tables && NEED_HYPOTHESES in db.tables
  {}

  /** Whatever the rows, the downgrade raises exactly where the inverse rewrite meets a clash, and otherwise
      renames the ids back and takes the new columns and indexes away. */
  lemma DowngradeRuns(back: seq<Entry>, used: Database)
    requires Wf(used) && Complete(used) && Lists(back, CanonicalToLegacy())
    ensures var e := CanonicalToLegacy();
            && Rewritable(used) && Complete(Renamed(e, used))
            && (Run(Downgrade(back), used).Some? <==> !Clashes(e, used))
            && (!Clashes(e, used) ==>
                  && Run(Downgrade(back), used) == Some(Narrowed(Renamed(e, used)))
                  && Wf(Narrowed(Renamed(e, used))) && Ready(Narrowed(Renamed(e, used))))
  {
    hide CanonicalToLegacy, LEGACY_TO_CANONICAL, Inverse, Separate, Lists, Wf, Run, Clashes, Renamed, Narrowed;
    hide ColumnsDown, RewriteOps, Complete, Ready, Rewritable;
    var e := CanonicalToLegacy();
    CanonicalToLegacyInverts();
    CompleteRewritable(used);
    RenamedAlike(e, used);
    RewriteRuns(back, e, used);
    RunAppend(RewriteOps(back), ColumnsDown(), used);
    if !Clashes(e, used) {
      var mid := Renamed(e, used);
      ColumnsDownRun(mid);
      var ops := ColumnsDown();
      assert ops[..|ops|] == ops;
      EveryStatementKeepsWf(ops, |ops|, mid);
    }
  }

  /** Widening what was narrowed gives the database back exactly when all rows hold the defaults. */
  lemma WidenedNarrowed(db: Database)
    requires Wf(db) && Complete(db)
    ensures Widened(Narrowed(db)) == db <==> Defaults(db)
  {
    hide SIGNAL_COLUMNS, HYPOTHESIS_COLUMNS, SIGNAL_DROPS, HYPOTHESIS_DROPS, SIGNAL_INDEX, HYPOTHESIS_INDEX;
    hide NarrowedTable, Completed, Wide, Unbound, Free, HoldsDefaults, TableOk, Named, Sensible, Rewritable;
    SignalNames();
    HypothesisNames();
    SignalColumnsSensible();
    HypothesisColumnsSensible();
    IndexNamesDiffer();
    var signals, hypotheses := db.tables[COMMERCIAL_SIGNALS], db.tables[NEED_HYPOTHESES];
    RefilledTable(signals, SIGNAL_COLUMNS, SIGNAL_DROPS);
    RefilledTable(hypotheses, HYPOTHESIS_COLUMNS, HYPOTHESIS_DROPS);
    WidenedShape(db);
    hide Wf, Complete, Widened, Narrowed;
    if Defaults(db) { assert Widened(Narrowed(db)).tables == db.tables; }
  }

  lemma WidenedShape(db: Database)
    requires Complete(db)
    ensures var out := Widened(Narrowed(db));
            && out.indexes == db.indexes
            && out.tables == db.tables[
                 COMMERCIAL_SIGNALS :=
                   Completed(NarrowedTable(db.tables[COMMERCIAL_SIGNALS], SIGNAL_DROPS), SIGNAL_COLUMNS)][
                 NEED_HYPOTHESES :=
                   Completed(NarrowedTable(db.tables[NEED_HYPOTHESES], HYPOTHESIS_DROPS), HYPOTHESIS_COLUMNS)]
  {
    hide SIGNAL_COLUMNS, HYPOTHESIS_COLUMNS, SIGNAL_DROPS, HYPOTHESIS_DROPS, SIGNAL_INDEX, HYPOTHESIS_INDEX;
    hide NarrowedTable, Completed, Wide, Unbound, Free;
    IndexNamesDiffer();
    var out := Widened(Narrowed(db));
    assert out.indexes == db.indexes;
  }

  /** The rewritten tables. */
  predicate SameFamilies(a: Database, b: Database)
    requires Rewritable(a) && Rewritable(b)
  {
    a.tables[CLASSIFICATIONS] == b.tables[CLASSIFICATIONS] && a.tables[MAPPINGS] == b.tables[MAPPINGS]
  }

  lemma RenamedSame(d: Dictionary, e: Dictionary, db: Database)
    requires Rewritable(db) && Rewritable(Renamed(e, db))
    ensures var out := Renamed(d, Renamed(e, db)); Rewritable(out) && (SameFamilies(out, db) <==> out == db)
  {
    assert Rewritable(Renamed(d, Renamed(e, db)));
    hide RenameTable;
    var out := Renamed(d, Renamed(e, db));
    if SameFamilies(out, db) { assert out.tables == db.tables; }
  }

  lemma WidenedFamilies(db: Database)
    requires Complete(db)
    ensures Rewritable(Widened(Narrowed(db))) && SameFamilies(Widened(Narrowed(db)), db)
  {
    hide NarrowedTable, Completed, SIGNAL_COLUMNS, HYPOTHESIS_COLUMNS, SIGNAL_DROPS, HYPOTHESIS_DROPS;
    hide SIGNAL_INDEX, HYPOTHESIS_INDEX, Wide, Unbound, Free;
  }

  /** What downgrading and upgrading again make of a database in use: ids renamed there and back, and the new
      columns filled with the defaults. */
  ghost function Again(used: Database): (out: Database)
    requires Complete(used)
    ensures Rewritable(out) && Rewritable(used)
  {
    var (d, e) := (LEGACY_TO_CANONICAL, CanonicalToLegacy());
    RenamedAlike(e, used);
    RenamedAlike(d, Renamed(e, used));
    WidenedFamilies(Renamed(d, Renamed(e, used)));
    Widened(Narrowed(Renamed(d, Renamed(e, used))))
  }

  lemma AgainSame(used: Database)
    requires Wf(used) && Complete(used)
    ensures SameFamilies(Again(used), used) <==> !HoldsTargets(CanonicalToLegacy(), used)
    ensures Again(used) == used <==> !HoldsTargets(CanonicalToLegacy(), used) && Defaults(used)
  {
    var d, e := LEGACY_TO_CANONICAL, CanonicalToLegacy();
    var mid := Renamed(e, used);
    CanonicalToLegacyInverts();
    RenamedRoundTrip(e, used);
    RenamedAlike(e, used);
    RenamedAlike(d, mid);
    RenamedSame(d, e, used);
    WidenedFamilies(Renamed(d, mid));
    WidenedNarrowed(used);
    hide CanonicalToLegacy, LEGACY_TO_CANONICAL, Inverse, Separate, Wf, Renamed, Narrowed;
    hide Complete, HoldsTargets, Widened, Defaults, Rewritable;
  }

  lemma UpgradeOfDowngraded(order: seq<Entry>, used: Database)
    requires Complete(used) && Lists(order, LEGACY_TO_CANONICAL)
    requires Rewritable(used) && Complete(Renamed(CanonicalToLegacy(), used))
    requires Wf(Narrowed(Renamed(CanonicalToLegacy(), used))) && Ready(Narrowed(Renamed(CanonicalToLegacy(), used)))
    ensures Run(Upgrade(order), Narrowed(Renamed(CanonicalToLegacy(), used))) == Some(Again(used))
  {
    var d, e := LEGACY_TO_CANONICAL, CanonicalToLegacy();
    var mid := Renamed(e, used);
    CanonicalToLegacyInverts();
    RenamedRoundTrip(e, used);
    RenamedAlike(d, mid);
    NoTargetsNoClashes(d, mid);
    hide CanonicalToLegacy, LEGACY_TO_CANONICAL, Inverse, Separate, Lists, Wf, Run, Clashes, Renamed, Narrowed;
    hide Upgrade, Complete, Ready, HoldsTargets, Widened, Rewritable;
    UpgradeRuns(order, Narrowed(mid));
  }

  /** Downgrading a database in use and upgrading it again raises exactly where the inverse rewrite meets a
      clash.  The family ids come back exactly when no row held a legacy id, and the whole database exactly
      when in addition every row holds the defaults in the new columns. */
  lemma DowngradeThenUpgrade(order: seq<Entry>, back: seq<Entry>, used: Database)
    requires Wf(used) && Complete(used)
    requires Lists(order, LEGACY_TO_CANONICAL) && Lists(back, CanonicalToLegacy())
    ensures Bind(Run(Downgrade(back), used), Upgrade(order)) ==
            if Clashes(CanonicalToLegacy(), used) then None else Some(Again(used))
    ensures SameFamilies(Again(used), used) <==> !HoldsTargets(CanonicalToLegacy(), used)
    ensures Bind(Run(Downgrade(back), used), Upgrade(order)) == Some(used) <==>
            !HoldsTargets(CanonicalToLegacy(), used) && Defaults(used)
  {
    var e := CanonicalToLegacy();
    CompleteRewritable(used);
    hide CanonicalToLegacy, LEGACY_TO_CANONICAL, Lists, Wf, Run, Clashes, Renamed, Narrowed;
    hide Upgrade, Downgrade, Complete, Ready, Rewritable, HoldsTargets, Defaults, Again, SameFamilies;
    DowngradeRuns(back, used);
    AgainSame(used);
    if !HoldsTargets(e, used) { NoTargetsNoClashes(e, used); }
    if !Clashes(e, used) { UpgradeOfDowngraded(order, used); }
  }
}
