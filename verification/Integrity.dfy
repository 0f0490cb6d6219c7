/** What every operation keeps, so what holds after every single statement of every program. */
module Integrity {
  import opened Names
  import opened Schema
  import opened Renaming

  lemma DropTableKeepsWf(n: TableName, db: Database)
    requires Wf(db) && Legal(DropTable(n), db)
    ensures Wf(Effect(DropTable(n), db))
  {
    hide TableOk;
    var next := Effect(DropTable(n), db);
    forall m, f | m in next.tables && f in next.tables[m].references ensures Resolves(f, next.tables) {
      assert Resolves(f, db.tables) && f.table != n;
    }
    forall x | x in next.indexes ensures IndexOk(next.indexes[x], next.tables) {
      assert IndexOk(db.indexes[x], db.tables);
    }
  }

  lemma NarrowedRowsFit(t: Table, c: ColumnName)
    requires TableOk(t)
    ensures forall r | r in Narrow(t, c).rows :: RowFits(r, Narrow(t, c).columns)
  {
    forall i | 0 <= i < |t.rows| ensures RowFits(t.rows[i] - {c}, t.columns - {c}) {
      assert RowFits(t.rows[i], t.columns);
    }
  }

  lemma NarrowedKeysHold(t: Table, c: ColumnName)
    requires TableOk(t) && !Constrained(t, c)
    ensures KeysHold(Narrow(t, c))
  {
    var w := Narrow(t, c);
    forall key, i, j | key in t.keys && 0 <= i < j < |t.rows| ensures !SameKey(w.rows[i], w.rows[j], key) {
      assert !SameKey(t.rows[i], t.rows[j], key);
      assert RowFits(t.rows[i], t.columns) && RowFits(t.rows[j], t.columns);
      var d :| d in key && !(t.rows[i][d] == t.rows[j][d] && t.rows[i][d] != Null);
      assert d != c;
    }
  }

  lemma NarrowKeepsTable(t: Table, c: ColumnName)
    requires TableOk(t) && !Constrained(t, c)
    ensures TableOk(Narrow(t, c))
  {
    NarrowedRowsFit(t, c);
    NarrowedKeysHold(t, c);
    hide KeysHold, RowFits;
    forall key, d | key in t.keys && d in key ensures d in Narrow(t, c).columns { assert c !in key; }
    forall f | f in t.references ensures f.column in Narrow(t, c).columns { assert f.column != c; }
  }

  lemma DropColumnKeepsWf(on: TableName, c: ColumnName, db: Database)
    requires Wf(db) && Legal(DropColumn(on, c), db)
    ensures Wf(Effect(DropColumn(on, c), db))
  {
    var next := Effect(DropColumn(on, c), db);
    NarrowKeepsTable(db.tables[on], c);
    hide TableOk, Constrained;
    forall m, f | m in next.tables && f in next.tables[m].references ensures Resolves(f, next.tables) {
      assert f in db.tables[m].references && Resolves(f, db.tables);
    }
    forall x | x in next.indexes ensures IndexOk(next.indexes[x], next.tables) {
      assert IndexOk(db.indexes[x], db.tables);
    }
  }

  lemma UpdateKeepsWf(op: Op, db: Database)
    requires Wf(db) && op.Update? && Legal(op, db)
    ensures Wf(Effect(op, db))
  {
    var t, next := db.tables[op.on], Effect(op, db);
    UpdateKeepsTable(t, op.column, op.before, op.after);
    hide TableOk, UpdateRows;
    assert next.tables[op.on].columns == t.columns && next.tables[op.on].keys == t.keys by { UpdateShape(t, op); }
    assert next.tables[op.on].references == t.references by { UpdateShape(t, op); }
    forall n, f | n in next.tables && f in next.tables[n].references ensures Resolves(f, next.tables) {
      assert f in db.tables[n].references && Resolves(f, db.tables);
    }
    forall n | n in next.indexes ensures IndexOk(next.indexes[n], next.tables) {
      assert IndexOk(db.indexes[n], db.tables);
    }
  }

  lemma UpdateShape(t: Table, op: Op)
    requires op.Update?
    ensures var u := UpdateRows(t, op.column, op.before, op.after);
            u.columns == t.columns && u.keys == t.keys && u.references == t.references
  {}

  lemma StepKeepsWf(op: Op, db: Database)
    requires Wf(db) && Legal(op, db)
    ensures Wf(Effect(op, db))
  {
    match op
    case CreateTable(n, t) => CreateTableUndone(n, t, db);
    case DropTable(n) => DropTableKeepsWf(n, db);
    case CreateIndex(n, x) => CreateIndexUndone(n, x, db);
    case DropIndex(_, _) =>
    case AddColumn(on, c, kind, fill) => AddColumnUndone(on, c, kind, fill, db);
    case DropColumn(on, c) => DropColumnKeepsWf(on, c, db);
    case Update(_, _, _, _) => UpdateKeepsWf(op, db);
  }

  /** After every single statement of every program that has not raised: rows fit their columns, no two rows
      agree on a unique key, every foreign key points at a unique column that exists, and every index is on
      columns that exist. */
  lemma {:induction false} EveryStatementKeepsWf(ops: seq<Op>, n: nat, db: Database)
    requires Wf(db) && n <= |ops| && Run(ops[..n], db).Some?
    ensures Wf(Run(ops[..n], db).value)
  {
    hide Wf, Legal, Effect;
    if n > 0 {
      assert ops[..n][0] == ops[0] && ops[..n][1..] == ops[1..][..n - 1];
      StepKeepsWf(ops[0], db);
      EveryStatementKeepsWf(ops[1..], n - 1, Effect(ops[0], db));
    } else {
      assert ops[..n] == [];
    }
  }

  /** A program that does not raise has no prefix that does. */
  lemma PrefixRuns(ops: seq<Op>, n: nat, db: Database)
    requires n <= |ops| && Run(ops, db).Some?
    ensures Run(ops[..n], db).Some?
  {
    assert ops == ops[..n] + ops[n..];
    RunAppend(ops[..n], ops[n..], db);
  }
}
