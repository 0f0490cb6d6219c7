/** The eight revisions 0017 to 0024 as one chain of programs, and what a contiguous segment of it does
    to a database. */
module Migrations {
  import opened Options
  import opened Names
  import opened Schema
  import opened TableSpecs
  import opened Positions
  import opened ChainTheory
  import opened Chain
  import opened Renaming
  import opened FamilyRewrite
  import Revision0024

  /** Revisions are numbered from 0 (0017) to REVISIONS (0024). */
  const COUNT := REVISIONS + 1

  function Upgrade(chain: seq<TableSpec>, r: nat, order: seq<Entry>): seq<Op>
    requires |chain| == LENGTH && r < COUNT
  {
    if r < REVISIONS then
      StartsGrow(r, r + 1);
      UpRange(chain, Start(r), Start(r + 1))
    else Revision0024.Upgrade(order)
  }

  function Downgrade(chain: seq<TableSpec>, r: nat, back: seq<Entry>): seq<Op>
    requires |chain| == LENGTH && r < COUNT
  {
    if r < REVISIONS then
      DropOrderReverses(r);
      DropTables(chain, DropOrder(r))
    else Revision0024.Downgrade(back)
  }

  function UpSegment(chain: seq<TableSpec>, p: nat, q: nat, order: seq<Entry>): seq<Op>
    requires |chain| == LENGTH && p <= q <= COUNT
    decreases q - p
  {
    if p == q then [] else Upgrade(chain, p, order) + UpSegment(chain, p + 1, q, order)
  }

  function DownSegment(chain: seq<TableSpec>, p: nat, q: nat, back: seq<Entry>): seq<Op>
    requires |chain| == LENGTH && p <= q <= COUNT
    decreases q - p
  {
    if p == q then [] else DownSegment(chain, p + 1, q, back) + Downgrade(chain, p, back)
  }

  // ----- the table revisions of a segment as a range of tables -----

  lemma RevisionIsRange(chain: seq<TableSpec>, r: nat, order: seq<Entry>, back: seq<Entry>)
    requires |chain| == LENGTH && r < REVISIONS
    ensures Start(r) <= Start(r + 1)
    ensures Upgrade(chain, r, order) == UpRange(chain, Start(r), Start(r + 1))
    ensures Downgrade(chain, r, back) == DownRange(chain, Start(r), Start(r + 1))
  {
    DropOrderReverses(r);
    hide DropOrder, Start, UpRange, DownRange, DropTables;
    DropTablesIsDownRange(chain, DropOrder(r), Start(r), Start(r + 1));
  }

  lemma SegmentStep(chain: seq<TableSpec>, p: nat, q: nat, order: seq<Entry>, back: seq<Entry>)
    requires |chain| == LENGTH && p < q <= COUNT
    ensures UpSegment(chain, p, q, order) == Upgrade(chain, p, order) + UpSegment(chain, p + 1, q, order)
    ensures DownSegment(chain, p, q, back) == DownSegment(chain, p + 1, q, back) + Downgrade(chain, p, back)
  {
    hide Upgrade, Downgrade;
  }

  lemma EmptySegment(chain: seq<TableSpec>, p: nat, order: seq<Entry>, back: seq<Entry>)
    requires |chain| == LENGTH && p <= COUNT
    ensures UpSegment(chain, p, p, order) == [] && DownSegment(chain, p, p, back) == []
    ensures p <= REVISIONS ==>
              UpRange(chain, Start(p), Start(p)) == [] && DownRange(chain, Start(p), Start(p)) == []
  {
    hide Start;
  }

  lemma {:induction false} SegmentIsRange(
      chain: seq<TableSpec>, p: nat, q: nat, order: seq<Entry>, back: seq<Entry>)
    requires |chain| == LENGTH && p <= q <= REVISIONS
    ensures Start(p) <= Start(q)
    ensures UpSegment(chain, p, q, order) == UpRange(chain, Start(p), Start(q))
    ensures DownSegment(chain, p, q, back) == DownRange(chain, Start(p), Start(q))
    decreases q - p
  {
    hide Start, Upgrade, Downgrade, UpSegment, DownSegment, UpRange, DownRange;
    StartsGrow(p, q);
    if p == q {
      EmptySegment(chain, p, order, back);
    } else {
      StartsGrow(p + 1, q);
      SegmentStep(chain, p, q, order, back);
      SegmentIsRange(chain, p + 1, q, order, back);
      RevisionIsRange(chain, p, order, back);
      RangeJoin(chain, Start(p), Start(p + 1), Start(q));
    }
  }

  lemma LastIs0024(chain: seq<TableSpec>, order: seq<Entry>, back: seq<Entry>)
    requires |chain| == LENGTH
    ensures Upgrade(chain, REVISIONS, order) == Revision0024.Upgrade(order)
    ensures Downgrade(chain, REVISIONS, back) == Revision0024.Downgrade(back)
  {
    hide Revision0024.Upgrade, Revision0024.Downgrade;
  }

  lemma {:induction false} SegmentEndsWith0024(
      chain: seq<TableSpec>, p: nat, order: seq<Entry>, back: seq<Entry>)
    requires |chain| == LENGTH && p <= REVISIONS
    ensures UpSegment(chain, p, COUNT, order) == UpSegment(chain, p, REVISIONS, order) + Revision0024.Upgrade(order)
    ensures DownSegment(chain, p, COUNT, back) ==
            Revision0024.Downgrade(back) + DownSegment(chain, p, REVISIONS, back)
    decreases REVISIONS - p
  {
    hide UpSegment, DownSegment, Upgrade, Downgrade, Revision0024.Upgrade, Revision0024.Downgrade;
    SegmentStep(chain, p, COUNT, order, back);
    if p == REVISIONS {
      LastIs0024(chain, order, back);
      EmptySegment(chain, REVISIONS, order, back);
      EmptySegment(chain, COUNT, order, back);
    } else {
      SegmentStep(chain, p, REVISIONS, order, back);
      SegmentEndsWith0024(chain, p + 1, order, back);
    }
  }

  // ----- creating and dropping other tables takes no notice of the rows of a table -----

  /** The database with one column of one table renamed, if the table is there. */
  function RenameIn(d: Dictionary, c: ColumnName, n: TableName, db: Database): Database {
    if n in db.tables then db.(tables := db.tables[n := RenameTable(d, c, db.tables[n])]) else db
  }

  predicate Elsewhere(op: Op, n: TableName) {
    || (op.CreateTable? && op.table != n) || (op.DropTable? && op.table != n)
    || op.CreateIndex? || op.DropIndex?
  }

  lemma RenameInShape(d: Dictionary, c: ColumnName, n: TableName, db: Database)
    ensures var out := RenameIn(d, c, n, db);
            && out.tables.Keys == db.tables.Keys && out.indexes == db.indexes
            && forall m | m in db.tables ::
                 && out.tables[m].columns == db.tables[m].columns && out.tables[m].keys == db.tables[m].keys
                 && out.tables[m].references == db.tables[m].references
                 && (m != n ==> out.tables[m] == db.tables[m])
  {}

  lemma LegalElsewhere(op: Op, d: Dictionary, c: ColumnName, n: TableName, db: Database)
    requires Elsewhere(op, n)
    ensures Legal(op, RenameIn(d, c, n, db)) <==> Legal(op, db)
  {
    RenameInShape(d, c, n, db);
    var out := RenameIn(d, c, n, db);
    hide RenameIn, TableOk;
    if op.CreateTable? {
      forall f | f in op.declared.references
        ensures Resolves(f, out.tables[op.table := op.declared]) <==>
                Resolves(f, db.tables[op.table := op.declared]) {}
    } else if op.CreateIndex? {
      assert IndexOk(op.index, out.tables) <==> IndexOk(op.index, db.tables);
    }
  }

  lemma ApplyElsewhere(op: Op, d: Dictionary, c: ColumnName, n: TableName, db: Database)
    requires Elsewhere(op, n)
    ensures Apply(op, RenameIn(d, c, n, db)).Some? <==> Apply(op, db).Some?
    ensures Apply(op, db).Some? ==>
              Apply(op, RenameIn(d, c, n, db)) == Some(RenameIn(d, c, n, Apply(op, db).value))
  {
    LegalElsewhere(op, d, c, n, db);
    if Legal(op, db) {
      var out := Effect(op, RenameIn(d, c, n, db));
      hide Legal, RenameTable;
      assert out.tables == RenameIn(d, c, n, Effect(op, db)).tables;
      assert out.indexes == RenameIn(d, c, n, Effect(op, db)).indexes;
    }
  }

  lemma {:induction false} RunElsewhere(ops: seq<Op>, d: Dictionary, c: ColumnName, n: TableName, db: Database)
    requires forall op | op in ops :: Elsewhere(op, n)
    requires Run(ops, db).Some?
    ensures Run(ops, RenameIn(d, c, n, db)) == Some(RenameIn(d, c, n, Run(ops, db).value))
  {
    if ops != [] {
      assert ops[0] in ops;
      ApplyElsewhere(ops[0], d, c, n, db);
      hide RenameIn, Legal, Effect;
      RunElsewhere(ops[1..], d, c, n, Apply(ops[0], db).value);
    }
  }

  lemma {:induction false} DropIndexesElsewhere(table: TableName, xs: seq<NamedIndex>, n: TableName)
    ensures forall op | op in DropIndexOps(table, xs) :: Elsewhere(op, n)
  {
    if xs != [] { DropIndexesElsewhere(table, xs[1..], n); }
  }

  lemma {:induction false} DownRangeElsewhere(chain: seq<TableSpec>, a: nat, b: nat, n: TableName)
    requires IsChain(chain) && a <= b <= |chain| && !(a <= n < b)
    ensures forall op | op in DownRange(chain, a, b) :: Elsewhere(op, n)
    decreases b - a
  {
    if a < b {
      DownRangeElsewhere(chain, a + 1, b, n);
      assert chain[a].name == a by { assert Placed(chain[a], a); }
      DropIndexesElsewhere(a, chain[a].Named(chain[a].dropped) + chain[a].composite, n);
    }
  }

  // ----- the starting schema of a segment -----

  /** What the segment's revision 0024 needs beyond the names its earlier revisions create; a is the
      first table the segment creates. */
  ghost predicate Ready0024(db: Database, a: nat) {
    && Revision0024.Widenable(db)
    && CLASSIFICATIONS in db.tables && FAMILY in db.tables[CLASSIFICATIONS].columns
    && (a > MAPPINGS ==> MAPPINGS in db.tables && SERVICE_FAMILY in db.tables[MAPPINGS].columns)
  }

  /** The referenced tables are there and none of the new names is. */
  ghost predicate SegmentReady(chain: seq<TableSpec>, db: Database, p: nat, q: nat)
    requires |chain| == LENGTH && p <= q <= COUNT
  {
    if q <= REVISIONS then
      StartsGrow(p, q);
      Ready(chain, db, Start(p), Start(q))
    else
      p < q ==> Ready(chain, db, Start(p), LENGTH) && Ready0024(db, Start(p))
  }

  /** Clashes and target ids in those of the two rewritten tables that are there. */
  ghost predicate ClashesIn(d: Dictionary, db: Database) {
    || (CLASSIFICATIONS in db.tables && Clash(d, FAMILY, db.tables[CLASSIFICATIONS]))
    || (MAPPINGS in db.tables && Clash(d, SERVICE_FAMILY, db.tables[MAPPINGS]))
  }

  ghost predicate HoldsTargetsIn(d: Dictionary, db: Database) {
    || (CLASSIFICATIONS in db.tables && HoldsTarget(d, FAMILY, db.tables[CLASSIFICATIONS]))
    || (MAPPINGS in db.tables && HoldsTarget(d, SERVICE_FAMILY, db.tables[MAPPINGS]))
  }

  function RenameBoth(d: Dictionary, db: Database): Database {
    RenameIn(d, SERVICE_FAMILY, MAPPINGS, RenameIn(d, FAMILY, CLASSIFICATIONS, db))
  }

  // ----- the segment before 0024 -----

  /** The database `mid` that the table revisions from table a on make of `db`, as far as 0024 is concerned. */
  ghost predicate Between(db: Database, mid: Database, a: nat) {
    && CLASSIFICATIONS in db.tables && CLASSIFICATIONS in mid.tables
    && mid.tables[CLASSIFICATIONS] == db.tables[CLASSIFICATIONS]
    && MAPPINGS in mid.tables
    && (if a <= MAPPINGS then MAPPINGS !in db.tables && mid.tables[MAPPINGS].rows == []
        else MAPPINGS in db.tables && mid.tables[MAPPINGS] == db.tables[MAPPINGS])
  }

  lemma MidReady(chain: seq<TableSpec>, db: Database, mid: Database, a: nat)
    requires IsChain(chain) && a <= LENGTH && chain[MAPPINGS].Has(SERVICE_FAMILY)
    requires Ready(chain, db, a, LENGTH) && Ready0024(db, a) && Extends(chain, db, mid, a, LENGTH)
    ensures Between(db, mid, a) && Revision0024.Ready(mid)
  {
    hide IsChain;
  }

  lemma BetweenFamilies(d: Dictionary, db: Database, mid: Database, a: nat)
    requires Between(db, mid, a) && Rewritable(mid)
    ensures Clashes(d, mid) <==> ClashesIn(d, db)
    ensures HoldsTargets(d, mid) <==> HoldsTargetsIn(d, db)
    ensures Renamed(d, mid) == RenameBoth(d, mid)
    ensures Between(RenameBoth(d, db), RenameBoth(d, mid), a)
  {
    var t := mid.tables[MAPPINGS];
    if a <= MAPPINGS {
      assert forall r :: r !in t.rows;
      assert !Clash(d, SERVICE_FAMILY, t) && !HoldsTarget(d, SERVICE_FAMILY, t);
    }
    assert RenameTable(d, SERVICE_FAMILY, t).rows == [] <==> t.rows == [];
    hide Clash, HoldsTarget, RenameTable;
    assert Renamed(d, mid).tables == RenameBoth(d, mid).tables;
  }

  lemma NothingToRenameIn(d: Dictionary, c: ColumnName, n: TableName, db: Database)
    requires n in db.tables ==> db.tables[n].rows == []
    ensures RenameIn(d, c, n, db) == db
  {
    if n in db.tables {
      assert RenameTable(d, c, db.tables[n]) == db.tables[n];
      assert db.tables[n := db.tables[n]] == db.tables;
    }
  }

  /** Taking the tables of the segment away again leaves the renamed rows of the other tables. */
  lemma DownOfRenamed(chain: seq<TableSpec>, d: Dictionary, db: Database, mid: Database, a: nat)
    requires IsChain(chain) && a <= LENGTH && Between(db, mid, a)
    requires Run(DownRange(chain, a, LENGTH), mid) == Some(db)
    ensures Run(DownRange(chain, a, LENGTH), RenameBoth(d, mid)) == Some(RenameBoth(d, db))
  {
    var ops := DownRange(chain, a, LENGTH);
    hide IsChain, DownRange, Run, RenameTable;
    DownRangeElsewhere(chain, a, LENGTH, CLASSIFICATIONS);
    RunElsewhere(ops, d, FAMILY, CLASSIFICATIONS, mid);
    var next, out := RenameIn(d, FAMILY, CLASSIFICATIONS, mid), RenameIn(d, FAMILY, CLASSIFICATIONS, db);
    if a <= MAPPINGS {
      NothingToRenameIn(d, SERVICE_FAMILY, MAPPINGS, next);
      NothingToRenameIn(d, SERVICE_FAMILY, MAPPINGS, out);
    } else {
      DownRangeElsewhere(chain, a, LENGTH, MAPPINGS);
      RunElsewhere(ops, d, SERVICE_FAMILY, MAPPINGS, next);
    }
  }

  lemma {:induction false} CreateIndexesElsewhere(table: TableName, xs: seq<NamedIndex>, n: TableName)
    ensures forall op | op in CreateIndexOps(table, xs) :: Elsewhere(op, n)
  {
    if xs != [] { CreateIndexesElsewhere(table, xs[1..], n); }
  }

  lemma {:induction false} UpRangeElsewhere(chain: seq<TableSpec>, a: nat, b: nat, n: TableName)
    requires IsChain(chain) && a <= b <= |chain| && !(a <= n < b)
    ensures forall op | op in UpRange(chain, a, b) :: Elsewhere(op, n)
    decreases b - a
  {
    if a < b {
      UpRangeElsewhere(chain, a + 1, b, n);
      assert chain[a].name == a by { assert Placed(chain[a], a); }
      CreateIndexesElsewhere(a, chain[a].Indexes(), n);
    }
  }

  /** Creating the tables of the segment on renamed rows leaves them renamed. */
  lemma UpOfRenamed(chain: seq<TableSpec>, d: Dictionary, db: Database, mid: Database, a: nat)
    requires IsChain(chain) && a <= LENGTH && Between(db, mid, a)
    requires Run(UpRange(chain, a, LENGTH), db) == Some(mid)
    ensures Run(UpRange(chain, a, LENGTH), RenameBoth(d, db)) == Some(RenameBoth(d, mid))
  {
    var ops := UpRange(chain, a, LENGTH);
    hide IsChain, UpRange, Run, RenameTable;
    UpRangeElsewhere(chain, a, LENGTH, CLASSIFICATIONS);
    RunElsewhere(ops, d, FAMILY, CLASSIFICATIONS, db);
    var next, out := RenameIn(d, FAMILY, CLASSIFICATIONS, db), RenameIn(d, FAMILY, CLASSIFICATIONS, mid);
    if a <= MAPPINGS {
      NothingToRenameIn(d, SERVICE_FAMILY, MAPPINGS, next);
      NothingToRenameIn(d, SERVICE_FAMILY, MAPPINGS, out);
    } else {
      UpRangeElsewhere(chain, a, LENGTH, MAPPINGS);
      RunElsewhere(ops, d, SERVICE_FAMILY, MAPPINGS, next);
    }
  }

  // ----- whole segments -----

  /** Revisions p up to 0023, from a database that is ready for the segment up to 0024. */
  lemma FirstHalf(chain: seq<TableSpec>, db: Database, p: nat, order: seq<Entry>, back: seq<Entry>)
    requires IsChain(chain) && chain[MAPPINGS].Has(SERVICE_FAMILY) && p <= REVISIONS
    requires Wf(db) && SegmentReady(chain, db, p, COUNT)
    ensures var mid := Run(UpSegment(chain, p, REVISIONS, order), db);
            && mid.Some? && Wf(mid.value)
            && Between(db, mid.value, Start(p)) && Revision0024.Ready(mid.value)
            && Run(DownRange(chain, Start(p), LENGTH), mid.value) == Some(db)
    ensures DownSegment(chain, p, REVISIONS, back) == DownRange(chain, Start(p), LENGTH)
  {
    assert Start(REVISIONS) == LENGTH;
    SegmentIsRange(chain, p, REVISIONS, order, back);
    hide IsChain, UpSegment, DownSegment, UpRange, DownRange, Start, Wf;
    RangeRuns(chain, db, Start(p), LENGTH);
    RangeRoundTrip(chain, db, Start(p), LENGTH);
    MidReady(chain, db, Run(UpRange(chain, Start(p), LENGTH), db).value, Start(p));
  }

  /** The upgrades of a segment that stops before 0024 never raise, and its downgrades undo them. */
  lemma TableSegment(chain: seq<TableSpec>, db: Database, p: nat, q: nat, order: seq<Entry>, back: seq<Entry>)
    requires IsChain(chain) && p <= q <= REVISIONS && Wf(db) && SegmentReady(chain, db, p, q)
    ensures Run(UpSegment(chain, p, q, order), db).Some?
    ensures Bind(Run(UpSegment(chain, p, q, order), db), DownSegment(chain, p, q, back)) == Some(db)
  {
    StartsGrow(p, q);
    SegmentIsRange(chain, p, q, order, back);
    hide IsChain, UpSegment, DownSegment, UpRange, DownRange, Start, Wf;
    RangeRoundTrip(chain, db, Start(p), Start(q));
  }

  /** The upgrades of a segment that ends with 0024 raise exactly where the rewrite meets two rows with
      the same other key columns that hold a legacy id and its canonical id; otherwise the downgrades
      never raise either, and the database comes back with its family ids renamed there and back. */
  lemma SegmentWith0024(chain: seq<TableSpec>, db: Database, p: nat, order: seq<Entry>, back: seq<Entry>)
    requires IsChain(chain) && chain[MAPPINGS].Has(SERVICE_FAMILY) && p <= REVISIONS
    requires Wf(db) && SegmentReady(chain, db, p, COUNT)
    requires Lists(order, Revision0024.LEGACY_TO_CANONICAL) && Lists(back, Revision0024.CanonicalToLegacy())
    ensures Run(UpSegment(chain, p, COUNT, order), db).Some? <==> !ClashesIn(Revision0024.LEGACY_TO_CANONICAL, db)
    ensures !ClashesIn(Revision0024.LEGACY_TO_CANONICAL, db) ==>
              Bind(Run(UpSegment(chain, p, COUNT, order), db), DownSegment(chain, p, COUNT, back)) ==
              Some(RenameBoth(Revision0024.CanonicalToLegacy(), RenameBoth(Revision0024.LEGACY_TO_CANONICAL, db)))
  {
    var d, e := Revision0024.LEGACY_TO_CANONICAL, Revision0024.CanonicalToLegacy();
    Revision0024.CanonicalToLegacyInverts();
    FirstHalf(chain, db, p, order, back);
    SegmentEndsWith0024(chain, p, order, back);
    hide Revision0024.LEGACY_TO_CANONICAL, Revision0024.CanonicalToLegacy, Revision0024.Upgrade, Revision0024.Downgrade;
    hide IsChain, UpSegment, DownSegment, Start, Wf, Run, Lists, Inverse, Separate, SegmentReady, Clashes, ClashesIn;
    hide HoldsTargets, RenameBoth, Renamed, Revision0024.Widened, Revision0024.Ready, Between;
    var mid := Run(UpSegment(chain, p, REVISIONS, order), db).value;
    Revision0024.ReadyRewritable(mid);
    RunAppend(UpSegment(chain, p, REVISIONS, order), Revision0024.Upgrade(order), db);
    Revision0024.UpgradeRuns(order, mid);
    BetweenFamilies(d, db, mid, Start(p));
    if !ClashesIn(d, db) {
      var next := Renamed(d, mid);
      DownOfRenamed(chain, d, db, mid, Start(p));
      RenamedRoundTrip(d, mid);
      NoTargetsNoClashes(e, next);
      Revision0024.ReadyRewritable(next);
      BetweenFamilies(e, RenameBoth(d, db), next, Start(p));
      DownOfRenamed(chain, e, RenameBoth(d, db), next, Start(p));
      Revision0024.DowngradeOfWidened(back, next);
      RunAppend(Revision0024.Downgrade(back), DownSegment(chain, p, REVISIONS, back), Revision0024.Widened(next));
    }
  }

  lemma RenameBothRoundTrip(d: Dictionary, db: Database)
    requires Separate(d)
    ensures RenameBoth(Inverse(d), RenameBoth(d, db)) == db <==> !HoldsTargetsIn(d, db)
  {
    if CLASSIFICATIONS in db.tables { TableRoundTrip(d, FAMILY, db.tables[CLASSIFICATIONS]); }
    if MAPPINGS in db.tables { TableRoundTrip(d, SERVICE_FAMILY, db.tables[MAPPINGS]); }
    hide RenameTable, HoldsTarget, Separate, Inverse;
    var out := RenameBoth(Inverse(d), RenameBoth(d, db));
    if !HoldsTargetsIn(d, db) { assert out.tables == db.tables; }
  }

  /** For every contiguous segment of the eight revisions and every starting schema that is ready for it:
      the upgrades raise exactly when 0024 is among them and a row pair clashes; the downgrades after them
      never raise; and together they are the identity exactly when 0024 is not among them or no row held a
      canonical id. */
  lemma SegmentRoundTrip(db: Database, p: nat, q: nat, order: seq<Entry>, back: seq<Entry>)
    requires p <= q <= COUNT && Wf(db) && SegmentReady(Tables(), db, p, q)
    requires Lists(order, Revision0024.LEGACY_TO_CANONICAL) && Lists(back, Revision0024.CanonicalToLegacy())
    ensures var d := Revision0024.LEGACY_TO_CANONICAL;
            var up := Run(UpSegment(Tables(), p, q, order), db);
            var rewrites := p < q == COUNT;
            && (up.Some? <==> !(rewrites && ClashesIn(d, db)))
            && (up.Some? ==> Bind(up, DownSegment(Tables(), p, q, back)).Some?)
            && (Bind(up, DownSegment(Tables(), p, q, back)) == Some(db) <==> !(rewrites && HoldsTargetsIn(d, db)))
  {
    var chain, d, e := Tables(), Revision0024.LEGACY_TO_CANONICAL, Revision0024.CanonicalToLegacy();
    TablesFormChain();
    MappingsDeclared();
    Revision0024.CanonicalToLegacyInverts();
    hide Revision0024.LEGACY_TO_CANONICAL, Revision0024.CanonicalToLegacy, Tables, IsChain, Wf, Lists, SegmentReady;
    hide UpSegment, DownSegment, Run, ClashesIn, HoldsTargetsIn, RenameBoth, Separate, Inverse;
    if q <= REVISIONS {
      TableSegment(chain, db, p, q, order, back);
    } else if p == q {
      EmptySegment(chain, p, order, back);
      RunNothing(db);
    } else {
      SegmentWith0024(chain, db, p, order, back);
      RenameBothRoundTrip(d, db);
      NoTargetsNoClashesIn(d, db);
    }
  }

  lemma NoTargetsNoClashesIn(d: Dictionary, db: Database)
    ensures !HoldsTargetsIn(d, db) ==> !ClashesIn(d, db)
  {
    if CLASSIFICATIONS in db.tables && !HoldsTargetsIn(d, db) {
      NoTargetNoClash(d, FAMILY, db.tables[CLASSIFICATIONS]);
    }
    if MAPPINGS in db.tables && !HoldsTargetsIn(d, db) {
      NoTargetNoClash(d, SERVICE_FAMILY, db.tables[MAPPINGS]);
    }
    hide HoldsTarget, Clash;
  }

  // ----- up, down and up again -----

  lemma FirstHalfRange(chain: seq<TableSpec>, p: nat, order: seq<Entry>, back: seq<Entry>)
    requires |chain| == LENGTH && p <= REVISIONS
    ensures UpSegment(chain, p, REVISIONS, order) == UpRange(chain, Start(p), LENGTH)
  {
    assert Start(REVISIONS) == LENGTH;
    hide Start, UpSegment, DownSegment, UpRange, DownRange;
    SegmentIsRange(chain, p, REVISIONS, order, back);
  }

  /** 0024 makes the same of a database and of what going there and back makes of it. */
  lemma SameUpgrade(order: seq<Entry>, back: seq<Entry>, mid: Database)
    requires Wf(mid) && Revision0024.Ready(mid) && Rewritable(mid) && !Clashes(Revision0024.LEGACY_TO_CANONICAL, mid)
    requires Lists(order, Revision0024.LEGACY_TO_CANONICAL) && Lists(back, Revision0024.CanonicalToLegacy())
    ensures var next := Renamed(Revision0024.LEGACY_TO_CANONICAL, mid);
            && Rewritable(next)
            && Run(Revision0024.Upgrade(order), Renamed(Revision0024.CanonicalToLegacy(), next)) ==
               Run(Revision0024.Upgrade(order), mid)
  {
    var d, e := Revision0024.LEGACY_TO_CANONICAL, Revision0024.CanonicalToLegacy();
    Revision0024.CanonicalToLegacyInverts();
    hide Revision0024.LEGACY_TO_CANONICAL, Revision0024.CanonicalToLegacy, Revision0024.Upgrade, Revision0024.Downgrade;
    hide Wf, Run, Lists, Inverse, Separate, Clashes, HoldsTargets, Renamed, Revision0024.Widened, Revision0024.Ready;
    hide Rewritable;
    RenamedRoundTrip(d, mid);
    var next := Renamed(d, mid);
    NoTargetsNoClashes(e, next);
    RenamedRoundTrip(e, next);
    var mid2 := Renamed(e, next);
    NoTargetsNoClashes(d, mid2);
    Revision0024.UpgradeRuns(order, mid);
    Revision0024.DowngradeOfWidened(back, next);
    Revision0024.UpgradeRuns(order, mid2);
  }

  /** Creating the tables again on what the downgrade left. */
  lemma SecondMid(
      chain: seq<TableSpec>, d: Dictionary, e: Dictionary, db: Database, mid: Database, a: nat)
    requires IsChain(chain) && a <= LENGTH && Between(db, mid, a) && Rewritable(mid)
    requires Run(UpRange(chain, a, LENGTH), db) == Some(mid)
    ensures Rewritable(Renamed(d, mid))
    ensures Run(UpRange(chain, a, LENGTH), RenameBoth(e, RenameBoth(d, db))) == Some(Renamed(e, Renamed(d, mid)))
  {
    BetweenFamilies(d, db, mid, a);
    assert Rewritable(Renamed(d, mid));
    hide IsChain, UpRange, Run, RenameBoth, Renamed, Between, Rewritable, Clashes, ClashesIn, HoldsTargets;
    hide HoldsTargetsIn;
    UpOfRenamed(chain, d, db, mid, a);
    BetweenFamilies(e, RenameBoth(d, db), Renamed(d, mid), a);
    UpOfRenamed(chain, e, RenameBoth(d, db), Renamed(d, mid), a);
  }

  /** The upgrades up to 0024 are fixed points of going down and up again: ids renamed there stay renamed. */
  lemma SecondUpgrade(chain: seq<TableSpec>, db: Database, p: nat, order: seq<Entry>, back: seq<Entry>)
    requires IsChain(chain) && chain[MAPPINGS].Has(SERVICE_FAMILY) && p <= REVISIONS
    requires Wf(db) && SegmentReady(chain, db, p, COUNT)
    requires Lists(order, Revision0024.LEGACY_TO_CANONICAL) && Lists(back, Revision0024.CanonicalToLegacy())
    requires !ClashesIn(Revision0024.LEGACY_TO_CANONICAL, db)
    ensures var db2 := RenameBoth(Revision0024.CanonicalToLegacy(), RenameBoth(Revision0024.LEGACY_TO_CANONICAL, db));
            Run(UpSegment(chain, p, COUNT, order), db2) == Run(UpSegment(chain, p, COUNT, order), db)
  {
    var d, e := Revision0024.LEGACY_TO_CANONICAL, Revision0024.CanonicalToLegacy();
    assert |chain| == LENGTH;
    hide Revision0024.LEGACY_TO_CANONICAL, Revision0024.CanonicalToLegacy, Revision0024.Upgrade, Revision0024.Downgrade;
    hide IsChain, UpSegment, DownSegment, Start, Wf, Run, Lists, Inverse, Separate, SegmentReady, Clashes, ClashesIn;
    hide HoldsTargets, HoldsTargetsIn, RenameBoth, Renamed, Revision0024.Ready, Between, UpRange, DownRange, Rewritable;
    FirstHalf(chain, db, p, order, back);
    FirstHalfRange(chain, p, order, back);
    SegmentEndsWith0024(chain, p, order, back);
    var mid := Run(UpSegment(chain, p, REVISIONS, order), db).value;
    Revision0024.ReadyRewritable(mid);
    BetweenFamilies(d, db, mid, Start(p));
    SameUpgrade(order, back, mid);
    SecondMid(chain, d, e, db, mid, Start(p));
    RunAppend(UpSegment(chain, p, REVISIONS, order), Revision0024.Upgrade(order), db);
    RunAppend(UpSegment(chain, p, REVISIONS, order), Revision0024.Upgrade(order), RenameBoth(e, RenameBoth(d, db)));
  }

  /** For every contiguous segment, upgrading, downgrading and upgrading again gives exactly what the first
      upgrade gave, whatever ids the rows held. */
  lemma SegmentUpAgain(db: Database, p: nat, q: nat, order: seq<Entry>, back: seq<Entry>)
    requires p <= q <= COUNT && Wf(db) && SegmentReady(Tables(), db, p, q)
    requires Lists(order, Revision0024.LEGACY_TO_CANONICAL) && Lists(back, Revision0024.CanonicalToLegacy())
    ensures var up := Run(UpSegment(Tables(), p, q, order), db);
            Bind(Bind(up, DownSegment(Tables(), p, q, back)), UpSegment(Tables(), p, q, order)) == up
  {
    var chain := Tables();
    TablesFormChain();
    MappingsDeclared();
    hide Revision0024.LEGACY_TO_CANONICAL, Revision0024.CanonicalToLegacy, Tables, IsChain, Wf, Lists, SegmentReady;
    hide UpSegment, DownSegment, Run, ClashesIn, RenameBoth;
    if q <= REVISIONS {
      TableSegment(chain, db, p, q, order, back);
    } else if p == q {
      EmptySegment(chain, p, order, back);
      RunNothing(db);
    } else {
      SegmentWith0024(chain, db, p, order, back);
      if !ClashesIn(Revision0024.LEGACY_TO_CANONICAL, db) { SecondUpgrade(chain, db, p, order, back); }
    }
  }
}
