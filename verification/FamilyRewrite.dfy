/** `_rewrite_service_family_ids` of revision 0024: for every dictionary entry one UPDATE on each of
    two tables whose keys contain the rewritten column. */
module FamilyRewrite {
  import opened Options
  import opened Names
  import opened Schema
  import opened Integrity
  import opened Renaming

  const CLASSIFICATIONS := PROCUREMENT_SERVICE_CLASSIFICATIONS
  const MAPPINGS := CORPORATE_CHANGE_SERVICE_MAPPINGS

  function RewriteOne(e: Entry): seq<Op> {
    [Update(CLASSIFICATIONS, FAMILY, e.before, e.after), Update(MAPPINGS, SERVICE_FAMILY, e.before, e.after)]
  }

  function RewriteOps(m: seq<Entry>): seq<Op> {
    if m == [] then [] else RewriteOne(m[0]) + RewriteOps(m[1..])
  }

  predicate Rewritable(db: Database) {
    && CLASSIFICATIONS in db.tables && FAMILY in db.tables[CLASSIFICATIONS].columns
    && MAPPINGS in db.tables && SERVICE_FAMILY in db.tables[MAPPINGS].columns
  }

  /** The database after replacing all ids at once. */
  function Renamed(d: Dictionary, db: Database): Database
    requires Rewritable(db)
  {
    db.(tables := db.tables[CLASSIFICATIONS := RenameTable(d, FAMILY, db.tables[CLASSIFICATIONS])]
                           [MAPPINGS := RenameTable(d, SERVICE_FAMILY, db.tables[MAPPINGS])])
  }

  ghost predicate Clashes(d: Dictionary, db: Database)
    requires Rewritable(db)
  {
    Clash(d, FAMILY, db.tables[CLASSIFICATIONS]) || Clash(d, SERVICE_FAMILY, db.tables[MAPPINGS])
  }

  predicate HoldsTargets(d: Dictionary, db: Database)
    requires Rewritable(db)
  {
    HoldsTarget(d, FAMILY, db.tables[CLASSIFICATIONS]) || HoldsTarget(d, SERVICE_FAMILY, db.tables[MAPPINGS])
  }

  lemma NoTargetsNoClashes(d: Dictionary, db: Database)
    requires Rewritable(db) && !HoldsTargets(d, db)
    ensures !Clashes(d, db)
  {
    NoTargetNoClash(d, FAMILY, db.tables[CLASSIFICATIONS]);
    NoTargetNoClash(d, SERVICE_FAMILY, db.tables[MAPPINGS]);
  }

  // ----- single updates -----

  function UpdatedOne(e: Entry, db: Database): Database
    requires Rewritable(db)
  {
    db.(tables := db.tables[CLASSIFICATIONS := UpdateRows(db.tables[CLASSIFICATIONS], FAMILY, e.before, e.after)]
                           [MAPPINGS := UpdateRows(db.tables[MAPPINGS], SERVICE_FAMILY, e.before, e.after)])
  }

  lemma OneStatement(op: Op, db: Database)
    requires Wf(db) && op.Update? && op.on in db.tables && op.column in db.tables[op.on].columns
    requires op.before != op.after
    ensures Apply(op, db).Some? <==> !ClashOne(op.column, db.tables[op.on], op.before, op.after)
    ensures Apply(op, db).Some? ==>
              var u := UpdateRows(db.tables[op.on], op.column, op.before, op.after);
              && Apply(op, db).value == db.(tables := db.tables[op.on := u]) && Wf(Apply(op, db).value)
              && u.columns == db.tables[op.on].columns
  {
    UpdateLegalIff(db.tables[op.on], op.column, op.before, op.after);
    UpdateShape(db.tables[op.on], op);
    if Legal(op, db) { UpdateKeepsWf(op, db); }
    hide ClashOne, KeysHold, UpdateRows, Wf;
  }

  lemma OneEntry(e: Entry, db: Database)
    requires Wf(db) && Rewritable(db) && e.before != e.after
    ensures Run(RewriteOne(e), db).Some? <==>
            !ClashOne(FAMILY, db.tables[CLASSIFICATIONS], e.before, e.after) &&
            !ClashOne(SERVICE_FAMILY, db.tables[MAPPINGS], e.before, e.after)
    ensures Run(RewriteOne(e), db).Some? ==>
              && Run(RewriteOne(e), db).value == UpdatedOne(e, db)
              && Wf(UpdatedOne(e, db)) && Rewritable(UpdatedOne(e, db))
  {
    hide Wf, ClashOne, UpdateRows, Run, Apply;
    var first := Update(CLASSIFICATIONS, FAMILY, e.before, e.after);
    var second := Update(MAPPINGS, SERVICE_FAMILY, e.before, e.after);
    assert RewriteOne(e) == [first] + [second];
    RunAppend([first], [second], db);
    RunOne(first, db);
    OneStatement(first, db);
    if Apply(first, db).Some? {
      RunOne(second, Apply(first, db).value);
      OneStatement(second, Apply(first, db).value);
    }
  }

  // ----- all updates -----

  lemma ListsRest(m: seq<Entry>, d: Dictionary)
    requires m != [] && Lists(m, d) && Separate(d)
    ensures m[0].before in d && d[m[0].before] == m[0].after && m[0].before != m[0].after
    ensures Lists(m[1..], d - {m[0].before}) && Separate(d - {m[0].before})
  {
    assert m[0] in m;
    assert d[m[0].before] !in d;
    forall f | f in d - {m[0].before} ensures Entry(f, d[f]) in m[1..] {
      var i :| 0 <= i < |m| && m[i] == Entry(f, d[f]);
      assert m[1..][i - 1] == m[i];
    }
    forall e | e in m[1..] ensures e.before in d - {m[0].before} {
      var i :| 1 <= i < |m| && m[i] == e;
      assert e in m && m[0].before != m[i].before;
    }
  }

  lemma NothingToRename(m: seq<Entry>, d: Dictionary, db: Database)
    requires m == [] && Lists(m, d) && Rewritable(db)
    ensures Renamed(d, db) == db && !Clashes(d, db)
  {
    assert forall f :: f !in d;
    forall n, c | n in db.tables ensures RenameTable(d, c, db.tables[n]) == db.tables[n] {
      forall i | 0 <= i < |db.tables[n].rows| ensures RenameRow(d, c, db.tables[n].rows[i]) == db.tables[n].rows[i] {}
      assert RenameTable(d, c, db.tables[n]).rows == db.tables[n].rows;
    }
  }

  lemma EntryThenRest(e: Entry, d: Dictionary, db: Database)
    requires Rewritable(db) && Separate(d) && e.before in d && d[e.before] == e.after
    ensures Rewritable(UpdatedOne(e, db))
    ensures Renamed(d - {e.before}, UpdatedOne(e, db)) == Renamed(d, db)
    ensures Clashes(d, db) <==>
            ClashOne(FAMILY, db.tables[CLASSIFICATIONS], e.before, e.after) ||
            ClashOne(SERVICE_FAMILY, db.tables[MAPPINGS], e.before, e.after) ||
            Clashes(d - {e.before}, UpdatedOne(e, db))
  {
    var t, u := db.tables[CLASSIFICATIONS], db.tables[MAPPINGS];
    RenameAfterUpdate(d, FAMILY, t, e.before);
    RenameAfterUpdate(d, SERVICE_FAMILY, u, e.before);
    ClashAfterUpdate(d, FAMILY, t, e.before);
    ClashAfterUpdate(d, SERVICE_FAMILY, u, e.before);
    hide ClashOne, Clash, RenameTable, UpdateRows, Separate;
    assert Renamed(d - {e.before}, UpdatedOne(e, db)).tables == Renamed(d, db).tables;
  }

  /** In whatever order the loop visits the entries, the statements succeed exactly when no two rows
      with the same other key columns hold a source and its target, and then they replace all ids at
      once. */
  lemma {:induction false} RewriteRuns(m: seq<Entry>, d: Dictionary, db: Database)
    requires Wf(db) && Rewritable(db) && Lists(m, d) && Separate(d)
    ensures Run(RewriteOps(m), db).Some? <==> !Clashes(d, db)
    ensures Run(RewriteOps(m), db).Some? ==>
              Run(RewriteOps(m), db).value == Renamed(d, db) && Wf(Renamed(d, db)) && Rewritable(Renamed(d, db))
    decreases |m|
  {
    hide Wf, Lists, Separate, Clashes, Renamed, Clash, ClashOne, UpdatedOne, Rewritable, RewriteOne;
    if m == [] {
      NothingToRename(m, d, db);
    } else {
      var e := m[0];
      ListsRest(m, d);
      OneEntry(e, db);
      EntryThenRest(e, d, db);
      RunAppend(RewriteOne(e), RewriteOps(m[1..]), db);
      if Run(RewriteOne(e), db).Some? {
        RewriteRuns(m[1..], d - {e.before}, UpdatedOne(e, db));
      }
    }
  }

  // ----- uniqueness at every single statement -----

  /** The same tables with the same keys. */
  predicate SameKeys(db: Database, out: Database) {
    db.tables.Keys == out.tables.Keys && forall n | n in db.tables :: out.tables[n].keys == db.tables[n].keys
  }

  lemma {:induction false} UpdatesKeepKeys(ops: seq<Op>, n: nat, db: Database)
    requires n <= |ops| && (forall op | op in ops :: op.Update?) && Run(ops[..n], db).Some?
    ensures SameKeys(db, Run(ops[..n], db).value)
  {
    hide KeysHold, UpdateRows;
    if n > 0 {
      assert ops[..n][0] == ops[0] && ops[0] in ops;
      UpdateShape(db.tables[ops[0].on], ops[0]);
      assert ops[..n][1..] == ops[1..][..n - 1];
      UpdatesKeepKeys(ops[1..], n - 1, Effect(ops[0], db));
    }
  }

  lemma {:induction false} RewriteOpsAreUpdates(m: seq<Entry>)
    ensures forall op | op in RewriteOps(m) :: op.Update?
    ensures |RewriteOps(m)| == 2 * |m|
  {
    if m != [] { RewriteOpsAreUpdates(m[1..]); }
  }

  /** Where no row starts with a target id, both tables stay free of duplicate keys after every single
      statement of the rewrite, and again after every statement of the inverse rewrite that follows. */
  lemma KeysHoldThroughout(m: seq<Entry>, back: seq<Entry>, d: Dictionary, db: Database, n: nat)
    requires Wf(db) && Rewritable(db) && Separate(d) && Lists(m, d) && Lists(back, Inverse(d))
    requires !HoldsTargets(d, db) && n <= 2 * |m| + 2 * |back|
    ensures var ops := RewriteOps(m) + RewriteOps(back);
            n <= |ops| && Run(ops[..n], db).Some? &&
            var out := Run(ops[..n], db).value;
            Wf(out) && SameKeys(db, out) && forall t | t in out.tables :: KeysHold(out.tables[t])
  {
    RewriteOpsAreUpdates(m);
    RewriteOpsAreUpdates(back);
    RewriteThenBack(m, back, d, db);
    RunAppend(RewriteOps(m), RewriteOps(back), db);
    var ops := RewriteOps(m) + RewriteOps(back);
    hide RewriteOps, Run, HoldsTargets, Separate, Lists, Inverse;
    PrefixRuns(ops, n, db);
    EveryStatementKeepsWf(ops, n, db);
    UpdatesKeepKeys(ops, n, db);
  }

  lemma NoSourceNoClash(d: Dictionary, c: ColumnName, t: Table)
    requires forall r: Row | r in t.rows && c in r && r[c].Label? :: r[c].family !in d
    ensures !Clash(d, c, t)
  {}

  // ----- there and back -----

  lemma RenamedRoundTrip(d: Dictionary, db: Database)
    requires Rewritable(db) && Separate(d)
    ensures Rewritable(Renamed(d, db)) && !HoldsTargets(Inverse(d), Renamed(d, db))
    ensures Renamed(Inverse(d), Renamed(d, db)) == db <==> !HoldsTargets(d, db)
  {
    var t, u := db.tables[CLASSIFICATIONS], db.tables[MAPPINGS];
    TableRoundTrip(d, FAMILY, t);
    TableRoundTrip(d, SERVICE_FAMILY, u);
    RenamedHoldsNoSource(d, FAMILY, t);
    RenamedHoldsNoSource(d, SERVICE_FAMILY, u);
    assert Rewritable(Renamed(d, db));
    var back := Renamed(Inverse(d), Renamed(d, db));
    hide RenameTable, HoldsTarget, Separate, Inverse;
    if !HoldsTargets(d, db) { assert back.tables == db.tables; }
  }

  /** Where the rewrite succeeds, the inverse rewrite succeeds after it, and together they restore every
      value exactly when no row held a target id beforehand.  With the inverse dictionary in the place
      of d this is the statement about downgrading first. */
  lemma RewriteThenBack(m: seq<Entry>, back: seq<Entry>, d: Dictionary, db: Database)
    requires Wf(db) && Rewritable(db) && Separate(d) && Lists(m, d) && Lists(back, Inverse(d))
    ensures !HoldsTargets(d, db) ==> !Clashes(d, db)
    ensures Run(RewriteOps(m), db).Some? <==> !Clashes(d, db)
    ensures !Clashes(d, db) ==> Bind(Run(RewriteOps(m), db), RewriteOps(back)).Some?
    ensures Bind(Run(RewriteOps(m), db), RewriteOps(back)) == Some(db) <==> !HoldsTargets(d, db)
  {
    hide HoldsTargets, Clashes, Wf, Run, Rewritable, Renamed, Separate;
    if !HoldsTargets(d, db) { NoTargetsNoClashes(d, db); }
    RewriteRuns(m, d, db);
    if !Clashes(d, db) {
      InverseSeparate(d);
      RenamedRoundTrip(d, db);
      NoTargetsNoClashes(Inverse(d), Renamed(d, db));
      RewriteRuns(back, Inverse(d), Renamed(d, db));
    }
  }
}
