/** Downgrading a database that has been used since the upgrade: its schema is what the upgrade made, its
    rows are anything. */
module Usage {
  import opened Options
  import opened Names
  import opened Schema
  import opened TableSpecs
  import opened ChainTheory
  import opened Chain
  import opened Renaming
  import opened FamilyRewrite
  import opened Migrations
  import Revision0024
  import InUse

  /** The same tables but for their rows, and the same indexes. */
  predicate SameSchema(a: Database, b: Database) {
    && a.indexes == b.indexes && a.tables.Keys == b.tables.Keys
    && forall n | n in a.tables :: SameShape(a.tables[n], b.tables[n])
  }

  predicate SameShape(t: Table, u: Table) {
    t.columns == u.columns && t.keys == u.keys && t.references == u.references
  }

  /** Every table of the one database is a table of the other, with the same rows. */
  predicate TablesOf(out: Database, db: Database) {
    forall n | n in out.tables :: n in db.tables && out.tables[n] == db.tables[n]
  }

  predicate Drops(op: Op) { op.DropTable? || op.DropIndex? || op.DropColumn? }

  lemma TablesOfSelf(db: Database)
    ensures TablesOf(db, db)
  {}

  lemma DropLegalAlike(op: Op, a: Database, b: Database)
    requires Drops(op) && SameSchema(a, b)
    ensures Legal(op, a) <==> Legal(op, b)
  {
    match op
    case DropTable(n) => assert forall m | m in a.tables :: SameShape(a.tables[m], b.tables[m]);
    case DropIndex(_, _) =>
    case DropColumn(on, c) => if on in a.tables { assert SameShape(a.tables[on], b.tables[on]); }
  }

  lemma DropAlike(op: Op, a: Database, b: Database)
    requires Drops(op) && SameSchema(a, b) && Legal(op, a)
    ensures Legal(op, b) && SameSchema(Effect(op, a), Effect(op, b))
  {
    DropLegalAlike(op, a, b);
    hide Legal;
  }

  /** A program of drops takes no notice of rows. */
  lemma {:induction false} DropsAlike(ops: seq<Op>, a: Database, b: Database)
    requires (forall op | op in ops :: Drops(op)) && SameSchema(a, b) && Run(ops, a).Some?
    ensures Run(ops, b).Some? && SameSchema(Run(ops, a).value, Run(ops, b).value)
  {
    hide SameSchema, Legal, Effect;
    if ops != [] {
      assert ops[0] in ops;
      DropAlike(ops[0], a, b);
      DropsAlike(ops[1..], Effect(ops[0], a), Effect(ops[0], b));
    }
  }

  /** Dropping tables and indexes leaves the rows of the tables that stay. */
  lemma {:induction false} DropsKeepRows(ops: seq<Op>, db: Database)
    requires (forall op | op in ops :: op.DropTable? || op.DropIndex?) && Run(ops, db).Some?
    ensures TablesOf(Run(ops, db).value, db)
  {
    hide Legal;
    if ops != [] {
      assert ops[0] in ops;
      DropsKeepRows(ops[1..], Effect(ops[0], db));
    }
  }

  // ----- the programs of the downgrades -----

  lemma {:induction false} DropIndexOpsDrop(table: TableName, xs: seq<NamedIndex>)
    ensures forall op | op in DropIndexOps(table, xs) :: op.DropIndex?
  {
    if xs != [] { DropIndexOpsDrop(table, xs[1..]); }
  }

  lemma {:induction false} DownRangeDrops(chain: seq<TableSpec>, a: nat, b: nat)
    requires a <= b <= |chain|
    ensures forall op | op in DownRange(chain, a, b) :: op.DropTable? || op.DropIndex?
    decreases b - a
  {
    if a < b {
      DownRangeDrops(chain, a + 1, b);
      DropIndexOpsDrop(chain[a].name, chain[a].Named(chain[a].dropped) + chain[a].composite);
    }
  }

  lemma {:induction false} DropOpsDrop(on: TableName, names: seq<ColumnName>)
    ensures forall op | op in Revision0024.DropOps(on, names) :: op.DropColumn?
  {
    if names != [] { DropOpsDrop(on, names[1..]); }
  }

  lemma ColumnsDownDrops()
    ensures forall op | op in Revision0024.ColumnsDown() :: Drops(op)
  {
    DropOpsDrop(NEED_HYPOTHESES, Revision0024.HYPOTHESIS_DROPS);
    DropOpsDrop(COMMERCIAL_SIGNALS, Revision0024.SIGNAL_DROPS);
    hide Revision0024.DropOps, Revision0024.HYPOTHESIS_DROPS, Revision0024.SIGNAL_DROPS;
  }

  // ----- segments -----

  /** A segment that stops before 0024 can be downgraded whatever rows have been written since: the schema is
      the old one again, and the older tables keep the rows they have by then. */
  lemma TableSegmentAfterUse(
      chain: seq<TableSpec>, db: Database, used: Database, p: nat, q: nat, order: seq<Entry>, back: seq<Entry>)
    requires IsChain(chain) && p <= q <= REVISIONS && Wf(db) && SegmentReady(chain, db, p, q)
    requires Run(UpSegment(chain, p, q, order), db).Some?
    requires SameSchema(Run(UpSegment(chain, p, q, order), db).value, used)
    ensures var out := Run(DownSegment(chain, p, q, back), used);
            out.Some? && SameSchema(db, out.value) && TablesOf(out.value, used)
  {
    StartsGrow(p, q);
    SegmentIsRange(chain, p, q, order, back);
    TableSegment(chain, db, p, q, order, back);
    DownRangeDrops(chain, Start(p), Start(q));
    hide IsChain, UpSegment, DownSegment, UpRange, DownRange, Start, Wf, SameSchema, Run, SegmentReady;
    var ops := DownRange(chain, Start(p), Start(q));
    DropsAlike(ops, Run(UpSegment(chain, p, q, order), db).value, used);
    DropsKeepRows(ops, used);
  }

  lemma RenamedShape(d: Dictionary, db: Database)
    requires Rewritable(db)
    ensures SameSchema(db, Renamed(d, db))
  {}

  lemma RenameBothShape(d: Dictionary, db: Database)
    ensures SameSchema(db, RenameBoth(d, db))
  {}

  lemma SameSchemaJoin(a: Database, b: Database, c: Database)
    requires SameSchema(a, b)
    ensures SameSchema(b, a)
    ensures SameSchema(b, c) ==> SameSchema(a, c)
  {}

  /** Whether the schema is complete does not depend on rows. */
  lemma CompleteAlike(a: Database, b: Database)
    requires SameSchema(a, b) && InUse.Complete(a)
    ensures InUse.Complete(b)
  {
    assert SameShape(a.tables[COMMERCIAL_SIGNALS], b.tables[COMMERCIAL_SIGNALS]);
    assert SameShape(a.tables[NEED_HYPOTHESES], b.tables[NEED_HYPOTHESES]);
    RewritableAlike(a, b);
    hide Revision0024.SIGNAL_COLUMNS, Revision0024.HYPOTHESIS_COLUMNS, Revision0024.SIGNAL_DROPS;
    hide Revision0024.HYPOTHESIS_DROPS, Revision0024.SIGNAL_INDEX, Revision0024.HYPOTHESIS_INDEX, InUse.Free;
    assert forall c :: Constrained(a.tables[COMMERCIAL_SIGNALS], c) <==> Constrained(b.tables[COMMERCIAL_SIGNALS], c);
    assert forall c :: Constrained(a.tables[NEED_HYPOTHESES], c) <==> Constrained(b.tables[NEED_HYPOTHESES], c);
    hide Constrained;
  }

  lemma RewritableAlike(a: Database, b: Database)
    requires SameSchema(a, b) && Rewritable(a)
    ensures Rewritable(b)
  {
    assert SameShape(a.tables[CLASSIFICATIONS], b.tables[CLASSIFICATIONS]);
    assert SameShape(a.tables[MAPPINGS], b.tables[MAPPINGS]);
  }

  /** On the database the upgrades up to 0024 have made, the downgrades after the inverse rewrite would run. */
  lemma DropsRun(chain: seq<TableSpec>, db: Database, p: nat, order: seq<Entry>, back: seq<Entry>)
    requires IsChain(chain) && chain[MAPPINGS].Has(SERVICE_FAMILY) && p <= REVISIONS
    requires Wf(db) && SegmentReady(chain, db, p, COUNT) && Lists(order, Revision0024.LEGACY_TO_CANONICAL)
    requires Run(UpSegment(chain, p, COUNT, order), db).Some?
    ensures var up := Run(UpSegment(chain, p, COUNT, order), db).value;
            var ops := Revision0024.ColumnsDown() + DownSegment(chain, p, REVISIONS, back);
            && Rewritable(up) && InUse.Complete(up)
            && Run(ops, up) == Some(RenameBoth(Revision0024.LEGACY_TO_CANONICAL, db))
            && forall op | op in ops :: Drops(op)
  {
    var d := Revision0024.LEGACY_TO_CANONICAL;
    FirstHalf(chain, db, p, order, back);
    SegmentEndsWith0024(chain, p, order, back);
    DownRangeDrops(chain, Start(p), LENGTH);
    ColumnsDownDrops();
    hide Revision0024.LEGACY_TO_CANONICAL, Revision0024.Upgrade, Revision0024.ColumnsDown, IsChain;
    hide UpSegment, DownSegment, Start, Wf, Run, Lists, SegmentReady, Clashes, RenameBoth, Renamed;
    hide Revision0024.Widened, Revision0024.Ready, Between, DownRange;
    var mid := Run(UpSegment(chain, p, REVISIONS, order), db).value;
    Revision0024.ReadyRewritable(mid);
    RunAppend(UpSegment(chain, p, REVISIONS, order), Revision0024.Upgrade(order), db);
    Revision0024.UpgradeRuns(order, mid);
    BetweenFamilies(d, db, mid, Start(p));
    DownOfRenamed(chain, d, db, mid, Start(p));
    Revision0024.ColumnsRoundTrip(Renamed(d, mid));
    var up := Revision0024.Widened(Renamed(d, mid));
    hide InUse.Complete;
    InUse.WidenedComplete(Renamed(d, mid));
    RunAppend(Revision0024.ColumnsDown(), DownSegment(chain, p, REVISIONS, back), up);
  }

  lemma ChainLength(chain: seq<TableSpec>)
    requires IsChain(chain)
    ensures |chain| == LENGTH
  {}

  lemma RewriteThenDrops(chain: seq<TableSpec>, p: nat, order: seq<Entry>, back: seq<Entry>)
    requires |chain| == LENGTH && p <= REVISIONS
    ensures DownSegment(chain, p, COUNT, back) ==
            RewriteOps(back) + (Revision0024.ColumnsDown() + DownSegment(chain, p, REVISIONS, back))
  {
    hide RewriteOps, Revision0024.ColumnsDown, DownSegment, UpSegment, Revision0024.Upgrade;
    SegmentEndsWith0024(chain, p, order, back);
    JoinThree(RewriteOps(back), Revision0024.ColumnsDown(), DownSegment(chain, p, REVISIONS, back));
  }

  lemma JoinThree(a: seq<Op>, b: seq<Op>, c: seq<Op>)
    ensures (a + b) + c == a + (b + c)
  {}

  lemma SegmentDrops(chain: seq<TableSpec>, p: nat, order: seq<Entry>, back: seq<Entry>)
    requires |chain| == LENGTH && p <= REVISIONS
    ensures forall op | op in DownSegment(chain, p, REVISIONS, back) :: op.DropTable? || op.DropIndex?
  {
    StartsGrow(p, REVISIONS);
    SegmentIsRange(chain, p, REVISIONS, order, back);
    DownRangeDrops(chain, Start(p), Start(REVISIONS));
    hide UpSegment, DownSegment, DownRange, UpRange, Start;
  }

  /** The last steps of the downgrade of a used segment: dropping its tables leaves the others as they are. */
  lemma LastStepsKeepRows(chain: seq<TableSpec>, p: nat, order: seq<Entry>, back: seq<Entry>, used: Database)
    requires |chain| == LENGTH && p <= REVISIONS && Wf(used) && InUse.Complete(used)
    requires Lists(back, Revision0024.CanonicalToLegacy())
    requires Run(DownSegment(chain, p, COUNT, back), used).Some?
    ensures InUse.Complete(Renamed(Revision0024.CanonicalToLegacy(), used))
    ensures TablesOf(
              Run(DownSegment(chain, p, COUNT, back), used).value,
              InUse.Narrowed(Renamed(Revision0024.CanonicalToLegacy(), used)))
  {
    hide Revision0024.LEGACY_TO_CANONICAL, Revision0024.CanonicalToLegacy, Revision0024.Downgrade;
    hide Revision0024.Upgrade, UpSegment, DownSegment, Wf, Run, Lists, Clashes, Renamed;
    hide InUse.Complete, InUse.Narrowed, Revision0024.Ready, Rewritable, TablesOf;
    SegmentEndsWith0024(chain, p, order, back);
    SegmentDrops(chain, p, order, back);
    InUse.DowngradeRuns(back, used);
    RunAppend(Revision0024.Downgrade(back), DownSegment(chain, p, REVISIONS, back), used);
    InUse.CompleteRewritable(Renamed(Revision0024.CanonicalToLegacy(), used));
    var mid := InUse.Narrowed(Renamed(Revision0024.CanonicalToLegacy(), used));
    DropsKeepRows(DownSegment(chain, p, REVISIONS, back), mid);
  }

  /** A segment that ends with 0024 can be downgraded after use exactly when the rows written by then have no
      clash of a canonical id with its legacy id; then the schema is the old one again, and the older tables
      hold the rows they had by then, with the ids renamed back and the new columns taken away. */
  lemma SegmentAfterUse(
      chain: seq<TableSpec>, db: Database, used: Database, p: nat, order: seq<Entry>, back: seq<Entry>)
    requires IsChain(chain) && chain[MAPPINGS].Has(SERVICE_FAMILY) && p <= REVISIONS
    requires Wf(db) && SegmentReady(chain, db, p, COUNT)
    requires Lists(order, Revision0024.LEGACY_TO_CANONICAL) && Lists(back, Revision0024.CanonicalToLegacy())
    requires Run(UpSegment(chain, p, COUNT, order), db).Some?
    requires Wf(used) && SameSchema(Run(UpSegment(chain, p, COUNT, order), db).value, used)
    ensures var out := Run(DownSegment(chain, p, COUNT, back), used);
            && InUse.Complete(used) && InUse.Complete(Renamed(Revision0024.CanonicalToLegacy(), used))
            && (out.Some? <==> !Clashes(Revision0024.CanonicalToLegacy(), used))
            && (out.Some? ==> SameSchema(db, out.value))
            && (out.Some? ==>
                  TablesOf(out.value, InUse.Narrowed(Renamed(Revision0024.CanonicalToLegacy(), used))))
  {
    var d, e := Revision0024.LEGACY_TO_CANONICAL, Revision0024.CanonicalToLegacy();
    Revision0024.CanonicalToLegacyInverts();
    hide Revision0024.LEGACY_TO_CANONICAL, Revision0024.CanonicalToLegacy, Revision0024.ColumnsDown, IsChain;
    hide UpSegment, DownSegment, Wf, Run, Lists, Inverse, Separate, SegmentReady, Clashes, RenameBoth, Renamed;
    hide SameSchema, RewriteOps;
    ChainLength(chain);
    var up := Run(UpSegment(chain, p, COUNT, order), db).value;
    var drops := Revision0024.ColumnsDown() + DownSegment(chain, p, REVISIONS, back);
    DropsRun(chain, db, p, order, back);
    RewritableAlike(up, used);
    CompleteAlike(up, used);
    InUse.RenamedAlike(e, used);
    hide InUse.Complete, InUse.Narrowed, TablesOf;
    RewriteThenDrops(chain, p, order, back);
    RewriteRuns(back, e, used);
    RunAppend(RewriteOps(back), drops, used);
    if !Clashes(e, used) {
      var next := Renamed(e, used);
      RenamedShape(e, used);
      SameSchemaJoin(up, used, next);
      DropsAlike(drops, up, next);
      RenameBothShape(d, db);
      SameSchemaJoin(db, RenameBoth(d, db), Run(drops, next).value);
      LastStepsKeepRows(chain, p, order, back, used);
    }
  }

  /** For every contiguous segment of the eight revisions and every use of the database in between: the
      downgrades raise exactly when 0024 is among them and two rows clash by then; otherwise the schema is the
      old one again, and the tables hold the rows they had by then, with the ids renamed back and the new
      columns taken away where 0024 is among the revisions. */
  lemma AfterUse(db: Database, used: Database, p: nat, q: nat, order: seq<Entry>, back: seq<Entry>)
    requires p <= q <= COUNT && Wf(db) && SegmentReady(Tables(), db, p, q)
    requires Lists(order, Revision0024.LEGACY_TO_CANONICAL) && Lists(back, Revision0024.CanonicalToLegacy())
    requires Run(UpSegment(Tables(), p, q, order), db).Some?
    requires Wf(used) && SameSchema(Run(UpSegment(Tables(), p, q, order), db).value, used)
    ensures var out := Run(DownSegment(Tables(), p, q, back), used);
            var rewrites := p < q == COUNT;
            && (rewrites ==>
                  InUse.Complete(used) && InUse.Complete(Renamed(Revision0024.CanonicalToLegacy(), used)))
            && (out.Some? <==> !(rewrites && Clashes(Revision0024.CanonicalToLegacy(), used)))
            && (out.Some? ==> SameSchema(db, out.value))
            && (out.Some? ==>
                  TablesOf(
                    out.value,
                    if rewrites then InUse.Narrowed(Renamed(Revision0024.CanonicalToLegacy(), used)) else used))
  {
    TablesFormChain();
    MappingsDeclared();
    hide Revision0024.LEGACY_TO_CANONICAL, Revision0024.CanonicalToLegacy, Tables, IsChain, Wf, Lists, SegmentReady;
    hide UpSegment, DownSegment, Run, Clashes, SameSchema, TablesOf, Renamed, InUse.Complete, InUse.Narrowed;
    if q <= REVISIONS {
      TableSegmentAfterUse(Tables(), db, used, p, q, order, back);
    } else if p == q {
      EmptySegment(Tables(), p, order, back);
      RunNothing(db);
      RunNothing(used);
      TablesOfSelf(used);
    } else {
      SegmentAfterUse(Tables(), db, used, p, order, back);
    }
  }
}
