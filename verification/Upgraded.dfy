/** What an upgrade leaves behind: the tables and indexes of every revision as declared, the two widened tables
    of 0024 with their defaults, and the family ids renamed row by row. */
module Upgraded {
  import opened Options
  import opened Names
  import opened Schema
  import opened TableSpecs
  import opened Positions
  import opened ChainTheory
  import opened Chain
  import opened Renaming
  import opened FamilyRewrite
  import opened Migrations
  import opened Revision0024

  // ----- the tables of 0024 -----

  /** Table u is t with the new columns: every old value is kept, and every row holds the defaults. */
  ghost predicate WidenedAs(t: Table, u: Table, columns: seq<NewColumn>) {
    && u.keys == t.keys && u.references == t.references && |u.rows| == |t.rows|
    && (forall c | c in u.columns :: c in t.columns || exists k | 0 <= k < |columns| :: columns[k].name == c)
    && (forall c | c in t.columns :: c in u.columns && u.columns[c] == t.columns[c])
    && (forall k | 0 <= k < |columns| ::
          columns[k].name in u.columns && u.columns[columns[k].name] == columns[k].kind)
    && (forall i | 0 <= i < |t.rows| :: RowWidenedAs(t.rows[i], u.rows[i], columns))
  }

  ghost predicate RowWidenedAs(r: Row, s: Row, columns: seq<NewColumn>) {
    && (forall c | c in r :: c in s && s[c] == r[c])
    && (forall k | 0 <= k < |columns| :: columns[k].name in s && s[columns[k].name] == columns[k].fill)
  }

  lemma {:induction false} KindsMeaning(t: map<ColumnName, Column>, columns: seq<NewColumn>)
    requires Sensible(columns) && forall k | 0 <= k < |columns| :: columns[k].name !in t
    ensures var out := t + Kinds(columns);
            && (forall c | c in out :: c in t || exists k | 0 <= k < |columns| :: columns[k].name == c)
            && (forall c | c in t :: c in out && out[c] == t[c])
            && (forall k | 0 <= k < |columns| ::
                  columns[k].name in out && out[columns[k].name] == columns[k].kind)
    decreases |columns|
  {
    if columns != [] {
      var first, rest := columns[0], columns[1..];
      assert forall k | 0 <= k < |rest| :: rest[k] == columns[k + 1];
      var next := t[first.name := first.kind];
      KindsMeaning(next, rest);
      PutThenMerge(t, first.name, first.kind, Kinds(rest));
      var out := t + Kinds(columns);
      assert out == next + Kinds(rest);
      assert first.name in next;
      forall k | 0 <= k < |columns|
        ensures columns[k].name in out && out[columns[k].name] == columns[k].kind
      {
        if k > 0 { assert columns[k] == rest[k - 1]; }
      }
      forall c | c in out && c !in t ensures exists k | 0 <= k < |columns| :: columns[k].name == c {
        if c == first.name {
          assert columns[0].name == c;
        } else {
          var k :| 0 <= k < |rest| && rest[k].name == c;
          assert columns[k + 1].name == c;
        }
      }
    }
  }

  lemma RowsCompleted(t: Table, columns: seq<NewColumn>, i: nat)
    requires TableOk(t) && Addable(t, columns) && i < |t.rows|
    ensures |Completed(t, columns).rows| == |t.rows|
    ensures RowWidenedAs(t.rows[i], Completed(t, columns).rows[i], columns)
  {
    hide KeysHold, Kinds, CompleteRow, Fills;
    assert RowFits(t.rows[i], t.columns);
    CompletedRow(t.rows[i], columns);
  }

  lemma CompletedMeaning(t: Table, columns: seq<NewColumn>)
    requires TableOk(t) && Addable(t, columns)
    ensures WidenedAs(t, Completed(t, columns), columns)
  {
    hide TableOk, Kinds, CompleteRow, RowWidenedAs, Sensible;
    KindsMeaning(t.columns, columns);
    var u := Completed(t, columns);
    forall i | 0 <= i < |t.rows| ensures RowWidenedAs(t.rows[i], u.rows[i], columns) {
      RowsCompleted(t, columns, i);
    }
  }

  /** Table u is t with every legacy id in column c replaced by its canonical id. */
  ghost predicate CanonicalAs(t: Table, u: Table, c: ColumnName) {
    && u.columns == t.columns && u.keys == t.keys && u.references == t.references && |u.rows| == |t.rows|
    && forall i | 0 <= i < |t.rows| :: RowCanonicalAs(t.rows[i], u.rows[i], c)
  }

  ghost predicate RowCanonicalAs(r: Row, s: Row, c: ColumnName) {
    && s.Keys == r.Keys
    && (forall x | x in r && x != c :: s[x] == r[x])
    && (c in r ==>
          if r[c].Label? && r[c].family in LEGACY_TO_CANONICAL
          then s[c] == Label(LEGACY_TO_CANONICAL[r[c].family])
          else s[c] == r[c])
  }

  lemma RenamedMeaning(t: Table, c: ColumnName)
    ensures CanonicalAs(t, RenameTable(LEGACY_TO_CANONICAL, c, t), c)
  {
    hide LEGACY_TO_CANONICAL;
  }

  /** No row of the table holds a legacy id any more. */
  lemma NoLegacyLeft(t: Table, u: Table, c: ColumnName)
    requires CanonicalAs(t, u, c)
    ensures forall r: Row | r in u.rows && c in r && r[c].Label? :: r[c].family !in LEGACY_TO_CANONICAL
  {
    VocabulariesSeparate();
    hide LEGACY_TO_CANONICAL;
    forall r: Row | r in u.rows && c in r && r[c].Label? ensures r[c].family !in LEGACY_TO_CANONICAL {
      var i :| 0 <= i < |u.rows| && u.rows[i] == r;
      assert RowCanonicalAs(t.rows[i], r, c);
    }
  }

  /** What 0024 makes of a database: two tables widened, two renamed, two indexes new, and all else as it was. */
  ghost predicate By0024(db: Database, out: Database)
    requires Revision0024.Ready(db)
  {
    && out.tables.Keys == db.tables.Keys
    && (forall n | n in db.tables &&
          n != COMMERCIAL_SIGNALS && n != NEED_HYPOTHESES && n != CLASSIFICATIONS && n != MAPPINGS ::
          out.tables[n] == db.tables[n])
    && WidenedAs(db.tables[COMMERCIAL_SIGNALS], out.tables[COMMERCIAL_SIGNALS], SIGNAL_COLUMNS)
    && WidenedAs(db.tables[NEED_HYPOTHESES], out.tables[NEED_HYPOTHESES], HYPOTHESIS_COLUMNS)
    && CanonicalAs(db.tables[CLASSIFICATIONS], out.tables[CLASSIFICATIONS], FAMILY)
    && CanonicalAs(db.tables[MAPPINGS], out.tables[MAPPINGS], SERVICE_FAMILY)
    && forall n, x :: Stands(out, n, x) <==> Stands(db, n, x) || NewIn0024(n, x)
  }

  predicate NewIn0024(n: IndexName, x: Index) {
    || (n == SIGNAL_INDEX && x == Index(COMMERCIAL_SIGNALS, [ORGANIZATION_ID, INDEPENDENCE_KEY]))
    || (n == HYPOTHESIS_INDEX && x == Index(NEED_HYPOTHESES, [ORGANIZATION_ID, HYPOTHESIS_CLASS]))
  }

  lemma IndexesOf0024(db: Database)
    requires Revision0024.Ready(db)
    ensures var out := Widened(Renamed(LEGACY_TO_CANONICAL, db));
            forall n, x :: Stands(out, n, x) <==> Stands(db, n, x) || NewIn0024(n, x)
  {
    Revision0024.IndexNamesDiffer();
    hide LEGACY_TO_CANONICAL, SIGNAL_INDEX, HYPOTHESIS_INDEX, SIGNAL_COLUMNS, HYPOTHESIS_COLUMNS;
    hide RenameTable, Completed;
  }

  lemma TablesOf0024(db: Database)
    requires Wf(db) && Revision0024.Ready(db)
    ensures var out := Widened(Renamed(LEGACY_TO_CANONICAL, db));
            && out.tables.Keys == db.tables.Keys
            && (forall n | n in db.tables &&
                  n != COMMERCIAL_SIGNALS && n != NEED_HYPOTHESES && n != CLASSIFICATIONS && n != MAPPINGS ::
                  out.tables[n] == db.tables[n])
            && WidenedAs(db.tables[COMMERCIAL_SIGNALS], out.tables[COMMERCIAL_SIGNALS], SIGNAL_COLUMNS)
            && WidenedAs(db.tables[NEED_HYPOTHESES], out.tables[NEED_HYPOTHESES], HYPOTHESIS_COLUMNS)
            && CanonicalAs(db.tables[CLASSIFICATIONS], out.tables[CLASSIFICATIONS], FAMILY)
            && CanonicalAs(db.tables[MAPPINGS], out.tables[MAPPINGS], SERVICE_FAMILY)
  {
    SignalColumnsSensible();
    HypothesisColumnsSensible();
    hide LEGACY_TO_CANONICAL, SIGNAL_INDEX, HYPOTHESIS_INDEX, SIGNAL_COLUMNS, HYPOTHESIS_COLUMNS;
    hide RenameTable, Completed;
    hide WidenedAs, CanonicalAs, TableOk, Sensible;
    CompletedMeaning(db.tables[COMMERCIAL_SIGNALS], SIGNAL_COLUMNS);
    CompletedMeaning(db.tables[NEED_HYPOTHESES], HYPOTHESIS_COLUMNS);
    RenamedMeaning(db.tables[CLASSIFICATIONS], FAMILY);
    RenamedMeaning(db.tables[MAPPINGS], SERVICE_FAMILY);
  }

  /** Whenever 0024 does not raise, this is what it has done. */
  lemma Revision0024Does(order: seq<Entry>, db: Database)
    requires Wf(db) && Revision0024.Ready(db) && Lists(order, LEGACY_TO_CANONICAL)
    requires Run(Revision0024.Upgrade(order), db).Some?
    ensures By0024(db, Run(Revision0024.Upgrade(order), db).value)
  {
    hide LEGACY_TO_CANONICAL, Wf, Revision0024.Ready, Lists, Run, Revision0024.Upgrade, Widened, Renamed, Clashes;
    hide WidenedAs, CanonicalAs, Stands, NewIn0024;
    ReadyRewritable(db);
    UpgradeRuns(order, db);
    IndexesOf0024(db);
    TablesOf0024(db);
  }

  // ----- whole segments -----

  /** A segment that stops before 0024 puts every table and every index of its revisions there exactly as
      declared, and leaves everything else alone. */
  lemma TableSegmentBuilds(db: Database, p: nat, q: nat, order: seq<Entry>, back: seq<Entry>)
    requires p <= q <= REVISIONS && Wf(db) && SegmentReady(Tables(), db, p, q)
    ensures Start(p) <= Start(q) <= |Tables()|
    ensures var out := Run(UpSegment(Tables(), p, q, order), db);
            out.Some? && Built(Tables(), db, out.value, Start(p), Start(q))
  {
    TablesFormChain();
    hide Tables, IsChain, Wf, Run, UpSegment, DownSegment, UpRange, DownRange, Built;
    StartsGrow(p, q);
    SegmentIsRange(Tables(), p, q, order, back);
    hide Start;
    RangeBuilds(Tables(), db, Start(p), Start(q));
  }

  /** A segment that ends with 0024, if it does not raise, does the same up to 0023 and then what 0024 does. */
  lemma SegmentBuilds(db: Database, p: nat, order: seq<Entry>, back: seq<Entry>)
    requires p <= REVISIONS && Wf(db) && SegmentReady(Tables(), db, p, COUNT)
    requires Lists(order, LEGACY_TO_CANONICAL) && Run(UpSegment(Tables(), p, COUNT, order), db).Some?
    ensures Start(p) <= LENGTH == |Tables()|
    ensures var mid := Run(UpSegment(Tables(), p, REVISIONS, order), db);
            var out := Run(UpSegment(Tables(), p, COUNT, order), db);
            && mid.Some? && Revision0024.Ready(mid.value)
            && Built(Tables(), db, mid.value, Start(p), LENGTH) && By0024(mid.value, out.value)
  {
    TablesFormChain();
    MappingsDeclared();
    hide LEGACY_TO_CANONICAL, Tables, IsChain, Wf, Lists, Run, UpSegment, DownSegment, UpRange, DownRange, Built;
    hide Revision0024.Upgrade, Revision0024.Downgrade, By0024, Revision0024.Ready;
    FirstHalf(Tables(), db, p, order, back);
    FirstHalfRange(Tables(), p, order, back);
    SegmentEndsWith0024(Tables(), p, order, back);
    hide Start;
    RangeBuilds(Tables(), db, Start(p), LENGTH);
    var mid := Run(UpSegment(Tables(), p, REVISIONS, order), db).value;
    RunAppend(UpSegment(Tables(), p, REVISIONS, order), Revision0024.Upgrade(order), db);
    Revision0024Does(order, mid);
  }
}
