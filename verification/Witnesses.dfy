/** Databases of the repository's own schema whose rows revision 0024 does not bring back or cannot rewrite. */
module Witnesses {
  import opened Options
  import opened Names
  import opened Schema
  import opened TableSpecs
  import opened Positions
  import opened ChainTheory
  import opened Chain
  import opened Renaming
  import opened FamilyRewrite
  import opened Migrations
  import opened EarlierTables
  import opened Usage
  import Revision0018
  import Revision0024

  // ----- putting rows into a table -----

  function WithRows(db: Database, n: TableName, rows: seq<Row>): Database
    requires n in db.tables
  {
    db.(tables := db.tables[n := db.tables[n].(rows := rows)])
  }

  lemma WithRowsShape(db: Database, n: TableName, rows: seq<Row>)
    requires n in db.tables
    ensures SameSchema(db, WithRows(db, n, rows))
    ensures forall m | m in db.tables && m != n :: WithRows(db, n, rows).tables[m] == db.tables[m]
  {}

  lemma WithRowsWf(db: Database, n: TableName, rows: seq<Row>)
    requires Wf(db) && n in db.tables && TableOk(db.tables[n].(rows := rows))
    ensures Wf(WithRows(db, n, rows))
  {
    hide TableOk;
    var out := WithRows(db, n, rows);
    forall m, f | m in out.tables && f in out.tables[m].references ensures Resolves(f, out.tables) {
      assert f in db.tables[m].references && Resolves(f, db.tables);
    }
    forall x | x in out.indexes ensures IndexOk(out.indexes[x], out.tables) {
      assert IndexOk(db.indexes[x], db.tables);
    }
  }

  /** Whether a segment can start, and whether the tables are as declared, does not depend on rows. */
  lemma ReadyAlike(chain: seq<TableSpec>, a: Database, b: Database, p: nat, q: nat)
    requires |chain| == LENGTH && p <= q <= COUNT && SameSchema(a, b) && SegmentReady(chain, a, p, q)
    ensures SegmentReady(chain, b, p, q)
  {
    if q <= REVISIONS { StartsGrow(p, q); }
    assert forall f: ForeignKey :: Resolves(f, a.tables) ==> Resolves(f, b.tables) by {
      forall f: ForeignKey | Resolves(f, a.tables) ensures Resolves(f, b.tables) {
        assert SameShape(a.tables[f.table], b.tables[f.table]);
      }
    }
    if p < q == COUNT { Ready0024Alike(a, b, Start(p)); }
    hide Start, Resolves, Ready0024, IndexOk, SameShape;
  }

  lemma Ready0024Alike(a: Database, b: Database, k: nat)
    requires SameSchema(a, b) && Ready0024(a, k)
    ensures Ready0024(b, k)
  {
    assert SameShape(a.tables[COMMERCIAL_SIGNALS], b.tables[COMMERCIAL_SIGNALS]);
    assert SameShape(a.tables[NEED_HYPOTHESES], b.tables[NEED_HYPOTHESES]);
    assert SameShape(a.tables[CLASSIFICATIONS], b.tables[CLASSIFICATIONS]);
    assert MAPPINGS in a.tables ==> SameShape(a.tables[MAPPINGS], b.tables[MAPPINGS]);
    hide Revision0024.SIGNAL_COLUMNS, Revision0024.HYPOTHESIS_COLUMNS;
    hide Revision0024.SIGNAL_INDEX, Revision0024.HYPOTHESIS_INDEX;
  }

  lemma DeclaredAlike(a: Database, b: Database)
    requires SameSchema(a, b) && AsDeclared(a)
    ensures AsDeclared(b)
  {
    hide CommercialSignalsTable, NeedHypothesesTable, ServiceClassificationsTable, TableSpec.ToTable;
    ShapedAlike(a, b, CommercialSignalsTable());
    ShapedAlike(a, b, NeedHypothesesTable());
    ShapedAlike(a, b, ServiceClassificationsTable());
  }

  lemma ShapedAlike(a: Database, b: Database, t: TableSpec)
    requires SameSchema(a, b) && Shaped(a, t)
    ensures Shaped(b, t)
  {
    assert SameShape(a.tables[t.name], b.tables[t.name]);
  }

  /** A well-formed database with the tables of 0004 and 0010 as declared, from which revisions p to 0024 can
      start. */
  ghost predicate Startable(db: Database, p: nat)
    requires p <= REVISIONS
  {
    Wf(db) && AsDeclared(db) && SegmentReady(Tables(), db, p, COUNT)
  }

  lemma RowsKeepStart(db: Database, n: TableName, rows: seq<Row>, p: nat)
    requires p <= REVISIONS && Startable(db, p) && n in db.tables && TableOk(db.tables[n].(rows := rows))
    ensures Startable(WithRows(db, n, rows), p)
  {
    hide Tables, Wf, AsDeclared, SegmentReady, TableOk, SameSchema;
    WithRowsShape(db, n, rows);
    WithRowsWf(db, n, rows);
    ReadyAlike(Tables(), db, WithRows(db, n, rows), p, COUNT);
    DeclaredAlike(db, WithRows(db, n, rows));
  }

  /** Upgrading from revision p to 0024 and downgrading again succeeds and does not give the database back. */
  ghost predicate NotRestored(db: Database, p: nat, order: seq<Entry>, back: seq<Entry>)
    requires p <= REVISIONS
  {
    var up := Run(UpSegment(Tables(), p, COUNT, order), db);
    var down := Bind(up, DownSegment(Tables(), p, COUNT, back));
    up.Some? && down.Some? && down != Some(db)
  }

  /** Upgrading from revision p to 0024 raises. */
  ghost predicate Stopped(db: Database, p: nat, order: seq<Entry>)
    requires p <= REVISIONS
  {
    Run(UpSegment(Tables(), p, COUNT, order), db) == None
  }

  lemma Consequences(db: Database, p: nat, order: seq<Entry>, back: seq<Entry>)
    requires p <= REVISIONS && Startable(db, p)
    requires Lists(order, Revision0024.LEGACY_TO_CANONICAL) && Lists(back, Revision0024.CanonicalToLegacy())
    ensures ClashesIn(Revision0024.LEGACY_TO_CANONICAL, db) ==> Stopped(db, p, order)
    ensures HoldsTargetsIn(Revision0024.LEGACY_TO_CANONICAL, db) && !ClashesIn(Revision0024.LEGACY_TO_CANONICAL, db)
            ==> NotRestored(db, p, order, back)
  {
    hide Revision0024.LEGACY_TO_CANONICAL, Revision0024.CanonicalToLegacy, Tables, Wf, AsDeclared, SegmentReady;
    hide UpSegment, DownSegment, Run, Lists, ClashesIn, HoldsTargetsIn;
    SegmentRoundTrip(db, p, COUNT, order, back);
  }

  // ----- one table with one or two rows -----

  /** A single row that holds a target id and no source. */
  lemma TargetRow(d: Dictionary, c: ColumnName, t: Table, r: Row, f: FamilyId)
    requires Separate(d) && f in d && t.rows == [r] && c in r && r[c] == Label(d[f])
    ensures HoldsTarget(d, c, t) && !Clash(d, c, t)
  {
    assert r in t.rows && IsTarget(d, r[c]);
    NoSourceNoClash(d, c, t);
  }

  /** Two rows that agree on a key but for a source and its target. */
  lemma ClashingRows(d: Dictionary, key: seq<ColumnName>, c: ColumnName, t: Table, r: Row, s: Row, f: FamilyId)
    requires f in d && key in t.keys && t.rows == [r, s] && Collide(key, c, r, s, f, d[f])
    ensures Clash(d, c, t)
  {
    assert t.rows[0] == r && t.rows[1] == s;
    assert r in t.rows && s in t.rows && Collide(key, c, r, s, f, d[f]);
  }

  // ----- classified contracts -----

  const CONTRACT_KEY := [CONTRACT_ID, FAMILY]

  function ClassificationRow(f: FamilyId): Row {
    map[CONTRACT_ID := Text("c"), FAMILY := Label(f), MATCHED_TERMS := Json("[]"), CONFIDENCE := Float(0.5)]
  }

  /** One contract, with the given classifications. */
  function Classified(rows: seq<Row>): Database {
    SmallestTables();
    WithRows(WithRows(Smallest(), PROCUREMENT_CONTRACTS, [map[ID := Text("c")]]), CLASSIFICATIONS, rows)
  }

  lemma SmallestTables()
    ensures PROCUREMENT_CONTRACTS in Smallest().tables && Smallest().tables[PROCUREMENT_CONTRACTS] == IdTable()
    ensures CLASSIFICATIONS in Smallest().tables && MAPPINGS !in Smallest().tables
    ensures Smallest().tables[CLASSIFICATIONS] == ServiceClassificationsTable().ToTable()
  {
    hide CommercialSignalsTable, NeedHypothesesTable, ServiceClassificationsTable, TableSpec.ToTable, IdTable;
  }

  lemma ClassificationKeys()
    ensures ServiceClassificationsTable().ToTable().keys == {CONTRACT_KEY}
  {
    ColumnsOf(ServiceClassificationsTable());
    assert forall k :: k in ServiceClassificationsTable().keys <==> k == CONTRACT_KEY;
    hide TableSpec.ToTable;
  }

  lemma ClassificationColumns()
    ensures ServiceClassificationsTable().ToTable().columns.Keys == {CONTRACT_ID, FAMILY, MATCHED_TERMS, CONFIDENCE}
  {
    ColumnsOf(ServiceClassificationsTable());
    hide TableSpec.ToTable;
  }

  lemma ClassificationsShape()
    ensures var t := ServiceClassificationsTable().ToTable();
            && TableOk(t) && t.keys == {CONTRACT_KEY}
            && t.columns.Keys == {CONTRACT_ID, FAMILY, MATCHED_TERMS, CONFIDENCE}
  {
    hide ServiceClassificationsTable, TableSpec.ToTable, TableSpec.ColumnsExist, TableOk;
    DeclaredTablesOk();
    DeclaredTableFits(ServiceClassificationsTable());
    ClassificationKeys();
    ClassificationColumns();
  }

  lemma ClassificationFits(columns: map<ColumnName, Column>, f: FamilyId)
    requires columns.Keys == {CONTRACT_ID, FAMILY, MATCHED_TERMS, CONFIDENCE}
    ensures RowFits(ClassificationRow(f), columns)
  {}

  lemma ClassificationsDiffer(f: FamilyId, g: FamilyId)
    requires f != g
    ensures !SameKey(ClassificationRow(f), ClassificationRow(g), CONTRACT_KEY)
  {
    assert CONTRACT_KEY[1] == FAMILY && FAMILY in CONTRACT_KEY;
    assert ClassificationRow(f)[FAMILY] != ClassificationRow(g)[FAMILY];
  }

  lemma OneRowOk(t: Table, r: Row)
    requires TableOk(t) && RowFits(r, t.columns)
    ensures TableOk(t.(rows := [r]))
  {}

  lemma TwoRowsOk(t: Table, r: Row, s: Row)
    requires TableOk(t) && RowFits(r, t.columns) && RowFits(s, t.columns)
    requires forall key | key in t.keys :: !SameKey(r, s, key)
    ensures TableOk(t.(rows := [r, s]))
  {
    hide SameKey, RowFits;
  }

  lemma ContractTableOk()
    ensures TableOk(IdTable().(rows := [map[ID := Text("c")]]))
  {}

  /** Any rows that fit make a database the whole chain can start from. */
  lemma ClassifiedStartable(rows: seq<Row>)
    requires TableOk(ServiceClassificationsTable().ToTable().(rows := rows))
    ensures var db := Classified(rows);
            && Startable(db, 0) && CLASSIFICATIONS in db.tables && MAPPINGS !in db.tables
            && db.tables[CLASSIFICATIONS] == ServiceClassificationsTable().ToTable().(rows := rows)
  {
    SmallestReady();
    SmallestTables();
    ContractTableOk();
    hide Tables, Wf, AsDeclared, SegmentReady, Smallest, TableOk, IdTable, ServiceClassificationsTable;
    hide TableSpec.ToTable;
    var a := Smallest();
    assert Startable(a, 0);
    hide Startable;
    RowsKeepStart(a, PROCUREMENT_CONTRACTS, [map[ID := Text("c")]], 0);
    var b := WithRows(a, PROCUREMENT_CONTRACTS, [map[ID := Text("c")]]);
    RowsKeepStart(b, CLASSIFICATIONS, rows, 0);
  }

  /** A contract already classified under a canonical id does not come back from the whole chain. */
  lemma ClassificationNotRestored(order: seq<Entry>, back: seq<Entry>, f: FamilyId)
    requires Lists(order, Revision0024.LEGACY_TO_CANONICAL) && Lists(back, Revision0024.CanonicalToLegacy())
    requires f in Revision0024.LEGACY_TO_CANONICAL
    ensures var db := Classified([ClassificationRow(Revision0024.LEGACY_TO_CANONICAL[f])]);
            Startable(db, 0) && NotRestored(db, 0, order, back)
  {
    var d := Revision0024.LEGACY_TO_CANONICAL;
    Revision0024.CanonicalToLegacyInverts();
    hide Revision0024.LEGACY_TO_CANONICAL, Revision0024.CanonicalToLegacy, Lists, Startable, NotRestored, Stopped;
    hide Classified, ServiceClassificationsTable, TableSpec.ToTable, TableOk, Separate, HoldsTarget, Clash;
    var r := ClassificationRow(d[f]);
    var t := ServiceClassificationsTable().ToTable();
    ClassificationsShape();
    ClassificationFits(t.columns, d[f]);
    OneRowOk(t, r);
    ClassifiedStartable([r]);
    TargetRow(d, FAMILY, t.(rows := [r]), r, f);
    Consequences(Classified([r]), 0, order, back);
  }

  /** A contract classified under a legacy id and under its canonical id stops the upgrade. */
  lemma ClassificationsStopUpgrade(order: seq<Entry>, back: seq<Entry>, f: FamilyId)
    requires Lists(order, Revision0024.LEGACY_TO_CANONICAL) && Lists(back, Revision0024.CanonicalToLegacy())
    requires f in Revision0024.LEGACY_TO_CANONICAL
    ensures var d := Revision0024.LEGACY_TO_CANONICAL;
            var db := Classified([ClassificationRow(f), ClassificationRow(d[f])]);
            Startable(db, 0) && Stopped(db, 0, order)
  {
    var d := Revision0024.LEGACY_TO_CANONICAL;
    Revision0024.CanonicalToLegacyInverts();
    hide Revision0024.LEGACY_TO_CANONICAL, Revision0024.CanonicalToLegacy, Lists, Startable, NotRestored, Stopped;
    hide Classified, ServiceClassificationsTable, TableSpec.ToTable, TableOk, HoldsTarget, Clash, SameKey, Inverse;
    hide ClassificationRow, Collide, RowFits;
    var r, s := ClassificationRow(f), ClassificationRow(d[f]);
    var t := ServiceClassificationsTable().ToTable();
    ClassificationsShape();
    ClassificationFits(t.columns, f);
    ClassificationFits(t.columns, d[f]);
    ClassificationsDiffer(f, d[f]);
    TwoRowsOk(t, r, s);
    ClassifiedStartable([r, s]);
    ClassificationsCollide(f, d[f]);
    ClashingRows(d, CONTRACT_KEY, FAMILY, t.(rows := [r, s]), r, s, f);
    Consequences(Classified([r, s]), 0, order, back);
  }

  lemma ClassificationsCollide(f: FamilyId, g: FamilyId)
    ensures Collide(CONTRACT_KEY, FAMILY, ClassificationRow(f), ClassificationRow(g), f, g)
  {
    assert CONTRACT_KEY[1] == FAMILY;
  }

  // ----- mapped events -----

  const EVENT_KEY_PAIR := [EVENT_ID, SERVICE_FAMILY]

  /** The smallest schema after revisions 0017 to 0023. */
  ghost function Before0024(): Database {
    SmallestReady();
    TablesFormChain();
    RangeRuns(Tables(), Smallest(), 0, LENGTH);
    Run(UpRange(Tables(), 0, LENGTH), Smallest()).value
  }

  lemma Before0024Extends()
    ensures Wf(Before0024()) && Extends(Tables(), Smallest(), Before0024(), 0, LENGTH)
  {
    hide Tables, IsChain, Wf, Run, UpRange, Extends, SegmentReady, AsDeclared, Smallest;
    SmallestReady();
    TablesFormChain();
    SmallestChainReady();
    RangeRuns(Tables(), Smallest(), 0, LENGTH);
  }

  lemma SmallestChainReady()
    ensures Ready(Tables(), Smallest(), 0, LENGTH)
  {
    SmallestReady();
    hide Tables, IsChain, Smallest, Ready, Ready0024, AsDeclared;
  }

  lemma ExtendedDeclared(db: Database, out: Database, t: TableSpec)
    requires Shaped(db, t) && forall n | n in db.tables :: n in out.tables && out.tables[n] == db.tables[n]
    ensures Shaped(out, t)
  {}

  lemma Before0024Declared()
    ensures AsDeclared(Before0024())
  {
    hide Tables, Smallest, Before0024, CommercialSignalsTable, NeedHypothesesTable, ServiceClassificationsTable;
    hide Shaped, TableSpec.ToTable, Wf, SegmentReady;
    Before0024Extends();
    SmallestReady();
    ExtendedDeclared(Smallest(), Before0024(), CommercialSignalsTable());
    ExtendedDeclared(Smallest(), Before0024(), NeedHypothesesTable());
    ExtendedDeclared(Smallest(), Before0024(), ServiceClassificationsTable());
  }

  lemma SmallestHasNoIndex(n: IndexName)
    ensures n !in Smallest().indexes
  {
    hide CommercialSignalsTable, NeedHypothesesTable, ServiceClassificationsTable, TableSpec.ToTable, IdTable;
  }

  lemma IndexNameFree(n: IndexName)
    requires n.Written?
    ensures n !in Before0024().indexes
  {
    Before0024Extends();
    SmallestHasNoIndex(n);
    assert IndexPosition(n) == LENGTH;
    hide Tables, Smallest, Before0024, Wf;
  }

  lemma ReadyForLast(chain: seq<TableSpec>, db: Database)
    requires |chain| == LENGTH && Ready0024(db, LENGTH)
    ensures SegmentReady(chain, db, REVISIONS, COUNT)
  {
    assert Start(REVISIONS) == LENGTH;
    hide Ready0024, Start;
  }

  /** From there revision 0024 can start on its own. */
  lemma Before0024Startable()
    ensures Startable(Before0024(), REVISIONS)
  {
    IndexNameFree(Revision0024.SIGNAL_INDEX);
    IndexNameFree(Revision0024.HYPOTHESIS_INDEX);
    hide Tables, Smallest, Before0024, AsDeclared, Revision0024.SIGNAL_INDEX, Revision0024.HYPOTHESIS_INDEX, Wf;
    hide SegmentReady, Ready0024, Extends;
    Before0024Extends();
    Before0024Declared();
    MappingsThere();
    DeclaredTablesReady(Before0024(), LENGTH);
    ReadyForLast(Tables(), Before0024());
  }

  lemma MappingsThere()
    ensures var db := Before0024();
            && MAPPINGS in db.tables && SERVICE_FAMILY in db.tables[MAPPINGS].columns
            && db.tables[MAPPINGS] == Revision0018.CorporateChangeServiceMappingsTable().ToTable()
            && CORPORATE_CHANGE_EVENTS in db.tables
            && db.tables[CORPORATE_CHANGE_EVENTS] == Revision0018.CorporateChangeEventsTable().ToTable()
  {
    Before0024Extends();
    EventTables();
    ColumnsOf(Revision0018.CorporateChangeServiceMappingsTable());
    assert Revision0018.CorporateChangeServiceMappingsTable().Has(SERVICE_FAMILY);
    hide Tables, Before0024, Smallest, TableSpec.ToTable, TableSpec.Has;
    hide Revision0018.CorporateChangeServiceMappingsTable, Revision0018.CorporateChangeEventsTable;
  }

  lemma EventTables()
    ensures Tables()[MAPPINGS] == Revision0018.CorporateChangeServiceMappingsTable()
    ensures Tables()[CORPORATE_CHANGE_EVENTS] == Revision0018.CorporateChangeEventsTable()
  {}

  /** Values of the right kinds for a row of the event table. */
  function EventValue(c: ColumnName): Value {
    if c == ID then Text("e")
    else if c == CLAIM_COUNT || c == INDEPENDENT_SOURCE_COUNT then Float(1.0)
    else if c == OFFICIALLY_CONFIRMED || c == HAS_DISPUTE || c == HAS_CORRECTION || c == HAS_RETRACTION ||
            c == HISTORICAL_ONLY then Boolean(false)
    else if c == ORGANIZATION_ID || c == EVENT_AT then Null
    else Text("-")
  }

  function EventRow(): Row {
    var columns := Revision0018.CorporateChangeEventsTable().ToTable().columns;
    map c | c in columns :: EventValue(c)
  }

  function MappingRow(id: string, f: FamilyId): Row {
    map[ID := Text(id), EVENT_ID := Text("e"), SERVICE_FAMILY := Label(f), RATIONALE := Text("-"),
        CONFIDENCE := Float(0.5), CREATED_AT := Text("-")]
  }

  /** One event, with the given service mappings. */
  ghost function Mapped(rows: seq<Row>): Database {
    MappingsThere();
    WithRows(WithRows(Before0024(), CORPORATE_CHANGE_EVENTS, [EventRow()]), MAPPINGS, rows)
  }

  lemma EventRowFits()
    ensures RowFits(EventRow(), Revision0018.CorporateChangeEventsTable().ToTable().columns)
  {
    EventColumns();
    hide Revision0018.CorporateChangeEventsTable, TableSpec.ToTable;
  }

  lemma EventTableOk()
    ensures TableOk(Revision0018.CorporateChangeEventsTable().ToTable().(rows := [EventRow()]))
  {
    hide Revision0018.CorporateChangeEventsTable, TableSpec.ToTable, TableSpec.ColumnsExist, TableOk, EventRow, RowFits;
    EventRowFits();
    Revision0018.CorporateChangeEventsColumnsExist();
    EmptyOk(Revision0018.CorporateChangeEventsTable());
    OneRowOk(Revision0018.CorporateChangeEventsTable().ToTable(), EventRow());
  }

  lemma NotNullRequired(t: TableSpec)
    ensures forall c | c in t.ToTable().columns && t.ToTable().columns[c] == NotNull :: c in t.required
  {}

  lemma EventColumns()
    ensures var columns := Revision0018.CorporateChangeEventsTable().ToTable().columns;
            forall c | c in columns && columns[c] == NotNull :: c != ORGANIZATION_ID && c != EVENT_AT
  {
    NotNullRequired(Revision0018.CorporateChangeEventsTable());
    hide TableSpec.ToTable;
  }

  lemma EmptyOk(t: TableSpec)
    requires t.ColumnsExist()
    ensures TableOk(t.ToTable())
  {
    ColumnsOf(t);
  }

  lemma MappingsShape()
    ensures var t := Revision0018.CorporateChangeServiceMappingsTable().ToTable();
            && TableOk(t) && t.keys == {[ID], EVENT_KEY_PAIR}
            && t.columns.Keys == {ID, EVENT_ID, SERVICE_FAMILY, RATIONALE, CONFIDENCE, CREATED_AT}
  {
    Revision0018.CorporateChangeServiceMappingsPlaced();
    EmptyOk(Revision0018.CorporateChangeServiceMappingsTable());
    MappingKeys();
    MappingColumns();
    hide Revision0018.CorporateChangeServiceMappingsTable, TableSpec.ToTable, TableSpec.ColumnsExist, TableOk;
  }

  lemma MappingKeys()
    ensures Revision0018.CorporateChangeServiceMappingsTable().ToTable().keys == {[ID], EVENT_KEY_PAIR}
  {
    ColumnsOf(Revision0018.CorporateChangeServiceMappingsTable());
    assert forall k :: k in Revision0018.CorporateChangeServiceMappingsTable().keys <==>
                       k == [ID] || k == EVENT_KEY_PAIR;
    hide TableSpec.ToTable;
  }

  lemma MappingColumns()
    ensures Revision0018.CorporateChangeServiceMappingsTable().ToTable().columns.Keys ==
            {ID, EVENT_ID, SERVICE_FAMILY, RATIONALE, CONFIDENCE, CREATED_AT}
  {
    ColumnsOf(Revision0018.CorporateChangeServiceMappingsTable());
    hide TableSpec.ToTable;
  }

  lemma MappingFits(columns: map<ColumnName, Column>, id: string, f: FamilyId)
    requires columns.Keys == {ID, EVENT_ID, SERVICE_FAMILY, RATIONALE, CONFIDENCE, CREATED_AT}
    ensures RowFits(MappingRow(id, f), columns)
  {}

  lemma MappingsDiffer(f: FamilyId, g: FamilyId, key: seq<ColumnName>)
    requires f != g && (key == [ID] || key == EVENT_KEY_PAIR)
    ensures !SameKey(MappingRow("m", f), MappingRow("n", g), key)
  {
    assert EVENT_KEY_PAIR[1] == SERVICE_FAMILY && SERVICE_FAMILY in EVENT_KEY_PAIR;
    assert [ID][0] == ID && ID in [ID];
    assert "m"[0] != "n"[0];
    assert MappingRow("m", f)[SERVICE_FAMILY] != MappingRow("n", g)[SERVICE_FAMILY];
  }

  lemma MappingsCollide(f: FamilyId, g: FamilyId)
    ensures Collide(EVENT_KEY_PAIR, SERVICE_FAMILY, MappingRow("m", f), MappingRow("n", g), f, g)
  {
    assert EVENT_KEY_PAIR[1] == SERVICE_FAMILY;
  }

  /** Any rows that fit make a database revision 0024 can start from, without classifications. */
  lemma MappedStartable(rows: seq<Row>)
    requires TableOk(Revision0018.CorporateChangeServiceMappingsTable().ToTable().(rows := rows))
    ensures var db := Mapped(rows);
            && Startable(db, REVISIONS) && MAPPINGS in db.tables
            && db.tables[MAPPINGS] == Revision0018.CorporateChangeServiceMappingsTable().ToTable().(rows := rows)
            && CLASSIFICATIONS in db.tables && db.tables[CLASSIFICATIONS].rows == []
  {
    hide Before0024, Startable, EventRow, TableOk, Tables, Smallest;
    hide Revision0018.CorporateChangeServiceMappingsTable, Revision0018.CorporateChangeEventsTable, TableSpec.ToTable;
    Before0024Startable();
    MappingsThere();
    NoClassifications();
    EventTableOk();
    var a := Before0024();
    RowsKeepStart(a, CORPORATE_CHANGE_EVENTS, [EventRow()], REVISIONS);
    var b := WithRows(a, CORPORATE_CHANGE_EVENTS, [EventRow()]);
    RowsKeepStart(b, MAPPINGS, rows, REVISIONS);
  }

  lemma NoClassifications()
    ensures CLASSIFICATIONS in Before0024().tables && Before0024().tables[CLASSIFICATIONS].rows == []
  {
    Before0024Extends();
    SmallestTables();
    assert ServiceClassificationsTable().ToTable().rows == [];
    hide Tables, Smallest, Before0024, TableSpec.ToTable, ServiceClassificationsTable;
  }

  lemma NoRowsNoFamilies(d: Dictionary, c: ColumnName, t: Table)
    requires t.rows == []
    ensures !HoldsTarget(d, c, t) && !Clash(d, c, t)
  {}

  /** An event already mapped to a canonical id does not come back from 0024. */
  lemma MappingNotRestored(order: seq<Entry>, back: seq<Entry>, f: FamilyId)
    requires Lists(order, Revision0024.LEGACY_TO_CANONICAL) && Lists(back, Revision0024.CanonicalToLegacy())
    requires f in Revision0024.LEGACY_TO_CANONICAL
    ensures var db := Mapped([MappingRow("m", Revision0024.LEGACY_TO_CANONICAL[f])]);
            Startable(db, REVISIONS) && NotRestored(db, REVISIONS, order, back)
  {
    var d := Revision0024.LEGACY_TO_CANONICAL;
    Revision0024.CanonicalToLegacyInverts();
    hide Revision0024.LEGACY_TO_CANONICAL, Revision0024.CanonicalToLegacy, Lists, Startable, NotRestored, Stopped;
    hide Mapped, Revision0018.CorporateChangeServiceMappingsTable, TableSpec.ToTable, TableOk, Separate, HoldsTarget;
    hide Clash;
    var r := MappingRow("m", d[f]);
    var t := Revision0018.CorporateChangeServiceMappingsTable().ToTable();
    MappingsShape();
    MappingFits(t.columns, "m", d[f]);
    OneRowOk(t, r);
    MappedStartable([r]);
    TargetRow(d, SERVICE_FAMILY, t.(rows := [r]), r, f);
    NoRowsNoFamilies(d, FAMILY, Mapped([r]).tables[CLASSIFICATIONS]);
    Consequences(Mapped([r]), REVISIONS, order, back);
  }

  /** An event mapped to a legacy id and to its canonical id stops the upgrade. */
  lemma MappingsStopUpgrade(order: seq<Entry>, back: seq<Entry>, f: FamilyId)
    requires Lists(order, Revision0024.LEGACY_TO_CANONICAL) && Lists(back, Revision0024.CanonicalToLegacy())
    requires f in Revision0024.LEGACY_TO_CANONICAL
    ensures var d := Revision0024.LEGACY_TO_CANONICAL;
            var db := Mapped([MappingRow("m", f), MappingRow("n", d[f])]);
            Startable(db, REVISIONS) && Stopped(db, REVISIONS, order)
  {
    var d := Revision0024.LEGACY_TO_CANONICAL;
    Revision0024.CanonicalToLegacyInverts();
    hide Revision0024.LEGACY_TO_CANONICAL, Revision0024.CanonicalToLegacy, Lists, Startable, NotRestored, Stopped;
    hide Mapped, Revision0018.CorporateChangeServiceMappingsTable, TableSpec.ToTable, TableOk, HoldsTarget, Clash;
    hide SameKey, Inverse, MappingRow, Collide, RowFits;
    var r, s := MappingRow("m", f), MappingRow("n", d[f]);
    var t := Revision0018.CorporateChangeServiceMappingsTable().ToTable();
    MappingsShape();
    MappingFits(t.columns, "m", f);
    MappingFits(t.columns, "n", d[f]);
    MappingsDiffer(f, d[f], [ID]);
    MappingsDiffer(f, d[f], EVENT_KEY_PAIR);
    TwoRowsOk(t, r, s);
    MappedStartable([r, s]);
    MappingsCollide(f, d[f]);
    ClashingRows(d, EVENT_KEY_PAIR, SERVICE_FAMILY, t.(rows := [r, s]), r, s, f);
    Consequences(Mapped([r, s]), REVISIONS, order, back);
  }
}
