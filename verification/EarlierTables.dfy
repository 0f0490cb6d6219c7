/** The three tables of revisions 0004 and 0010 that revision 0024 works on, as those revisions declare them. */
module EarlierTables {
  import opened Options
  import opened Names
  import opened Schema
  import opened TableSpecs
  import opened Positions
  import opened ChainTheory
  import opened Chain
  import opened Renaming
  import opened FamilyRewrite
  import opened Migrations
  import Revision0024

  const SIGNALS_BY_EFFECT := Written("ix_commercial_signals_org_type_effective")
  const HYPOTHESES_BY_FAMILY := Written("ix_need_hypotheses_org_family")

  function CommercialSignalsTable(): TableSpec {
    TableSpec(
      COMMERCIAL_SIGNALS,
      [ID, ORGANIZATION_ID, EVIDENCE_ID, SIGNAL_TYPE, TITLE, SUMMARY, CONFIDENCE, MATCHED_TERMS, COLLECTED_AT,
       CREATED_AT, IDEMPOTENCY_KEY],
      [PUBLISHED_AT, EXPIRES_AT],
      [[ID], [IDEMPOTENCY_KEY]],
      [ForeignKey(EVIDENCE_ID, EVIDENCE, ID), ForeignKey(ORGANIZATION_ID, ORGANIZATIONS, ID)],
      [ORGANIZATION_ID, EVIDENCE_ID, SIGNAL_TYPE, COLLECTED_AT, EXPIRES_AT],
      [ORGANIZATION_ID, EVIDENCE_ID, SIGNAL_TYPE, COLLECTED_AT, EXPIRES_AT],
      composite := [NamedIndex(SIGNALS_BY_EFFECT, [ORGANIZATION_ID, SIGNAL_TYPE, PUBLISHED_AT, COLLECTED_AT])])
  }

  function NeedHypothesesTable(): TableSpec {
    TableSpec(
      NEED_HYPOTHESES,
      [ID, ORGANIZATION_ID, FAMILY, STATUS, RULE_ID, RULE_VERSION, RATIONALE, GENERATED_AT, EXPIRES_AT,
       IDEMPOTENCY_KEY],
      [],
      [[ID], [IDEMPOTENCY_KEY]],
      [ForeignKey(ORGANIZATION_ID, ORGANIZATIONS, ID)],
      [ORGANIZATION_ID, FAMILY, STATUS, GENERATED_AT, EXPIRES_AT],
      [ORGANIZATION_ID, FAMILY, STATUS, GENERATED_AT, EXPIRES_AT],
      composite := [NamedIndex(HYPOTHESES_BY_FAMILY, [ORGANIZATION_ID, FAMILY])])
  }

  function ServiceClassificationsTable(): TableSpec {
    TableSpec(
      PROCUREMENT_SERVICE_CLASSIFICATIONS,
      [CONTRACT_ID, FAMILY, MATCHED_TERMS, CONFIDENCE],
      [],
      [[CONTRACT_ID, FAMILY]],
      [ForeignKey(CONTRACT_ID, PROCUREMENT_CONTRACTS, ID)],
      [], [])
  }

  /** The tables have the declared columns and keys, with whatever rows. */
  ghost predicate Shaped(db: Database, t: TableSpec) {
    && t.name in db.tables
    && db.tables[t.name].columns == t.ToTable().columns
    && db.tables[t.name].keys == t.ToTable().keys
  }

  ghost predicate AsDeclared(db: Database) {
    && Shaped(db, CommercialSignalsTable()) && Shaped(db, NeedHypothesesTable())
    && Shaped(db, ServiceClassificationsTable())
  }

  lemma ColumnsOf(t: TableSpec)
    ensures forall c :: c in t.ToTable().columns <==> t.Has(c)
    ensures forall k :: k in t.ToTable().keys <==> k in t.keys
  {}

  /** The numbers of the columns that 0024 adds. */
  predicate Added(c: ColumnName) {
    SERVICE_FAMILIES <= c <= TAXONOMY_VERSION || c == INDEPENDENCE_KEY || c == HISTORICAL_ONLY || c == CONFIDENCE
  }

  lemma DeclaredColumnsNotAdded(c: ColumnName)
    ensures CommercialSignalsTable().Has(c) ==> !Added(c) || c == CONFIDENCE
    ensures NeedHypothesesTable().Has(c) ==> !Added(c)
  {}

  lemma NewSignalColumnsAdded()
    ensures forall i | 0 <= i < |Revision0024.SIGNAL_COLUMNS| ::
              Added(Revision0024.SIGNAL_COLUMNS[i].name) && Revision0024.SIGNAL_COLUMNS[i].name != CONFIDENCE
  {}

  lemma NewHypothesisColumnsAdded()
    ensures forall i | 0 <= i < |Revision0024.HYPOTHESIS_COLUMNS| :: Added(Revision0024.HYPOTHESIS_COLUMNS[i].name)
  {}

  /** None of the new columns of 0024 clashes with a column that 0004 declared. */
  lemma NewColumnsFree()
    ensures CommercialSignalsTable().Has(ORGANIZATION_ID) && NeedHypothesesTable().Has(ORGANIZATION_ID)
    ensures forall i | 0 <= i < |Revision0024.SIGNAL_COLUMNS| ::
              !CommercialSignalsTable().Has(Revision0024.SIGNAL_COLUMNS[i].name)
    ensures forall i | 0 <= i < |Revision0024.HYPOTHESIS_COLUMNS| ::
              !NeedHypothesesTable().Has(Revision0024.HYPOTHESIS_COLUMNS[i].name)
  {
    NewSignalColumnsAdded();
    NewHypothesisColumnsAdded();
    forall c ensures CommercialSignalsTable().Has(c) ==> !Added(c) || c == CONFIDENCE { DeclaredColumnsNotAdded(c); }
    forall c ensures NeedHypothesesTable().Has(c) ==> !Added(c) { DeclaredColumnsNotAdded(c); }
    assert CommercialSignalsTable().Has(ORGANIZATION_ID) && NeedHypothesesTable().Has(ORGANIZATION_ID);
    hide Revision0024.SIGNAL_COLUMNS, Revision0024.HYPOTHESIS_COLUMNS, TableSpec.Has, Added;
    hide CommercialSignalsTable, NeedHypothesesTable;
  }

  /** Where the tables are as 0004 and 0010 declared them and the two index names are free, 0024 can start. */
  lemma DeclaredTablesReady(db: Database, a: nat)
    requires AsDeclared(db)
    requires Revision0024.SIGNAL_INDEX !in db.indexes && Revision0024.HYPOTHESIS_INDEX !in db.indexes
    requires a > MAPPINGS ==> MAPPINGS in db.tables && SERVICE_FAMILY in db.tables[MAPPINGS].columns
    ensures Ready0024(db, a)
  {
    NewColumnsFree();
    ColumnsOf(CommercialSignalsTable());
    ColumnsOf(NeedHypothesesTable());
    ColumnsOf(ServiceClassificationsTable());
    assert ServiceClassificationsTable().Has(FAMILY);
    assert CommercialSignalsTable().name == COMMERCIAL_SIGNALS && NeedHypothesesTable().name == NEED_HYPOTHESES;
    assert ServiceClassificationsTable().name == CLASSIFICATIONS;
    hide TableSpec.ToTable, TableSpec.Has, CommercialSignalsTable, NeedHypothesesTable, ServiceClassificationsTable;
    hide Revision0024.SIGNAL_INDEX, Revision0024.HYPOTHESIS_INDEX;
    hide Revision0024.SIGNAL_COLUMNS, Revision0024.HYPOTHESIS_COLUMNS;
  }

  /** No two rows of the table agree on the pair of columns. */
  ghost predicate PairsUnique(t: Table, first: ColumnName, second: ColumnName) {
    forall i, j | 0 <= i < j < |t.rows| :: !SameKey(t.rows[i], t.rows[j], [first, second])
  }

  /** Where no row starts with a canonical id, the pairs (contract_id, family) and (event_id, service_family)
      stay free of duplicates after every single UPDATE of the upgrade and of the downgrade that follows. */
  lemma PairsStayUnique(order: seq<Entry>, back: seq<Entry>, db: Database, n: nat)
    requires Wf(db) && Rewritable(db) && !HoldsTargets(Revision0024.LEGACY_TO_CANONICAL, db)
    requires Shaped(db, ServiceClassificationsTable()) && [EVENT_ID, SERVICE_FAMILY] in db.tables[MAPPINGS].keys
    requires Lists(order, Revision0024.LEGACY_TO_CANONICAL) && Lists(back, Revision0024.CanonicalToLegacy())
    requires n <= 2 * |order| + 2 * |back|
    ensures var ops := RewriteOps(order) + RewriteOps(back);
            n <= |ops| && Run(ops[..n], db).Some? &&
            var out := Run(ops[..n], db).value;
            && CLASSIFICATIONS in out.tables && PairsUnique(out.tables[CLASSIFICATIONS], CONTRACT_ID, FAMILY)
            && MAPPINGS in out.tables && PairsUnique(out.tables[MAPPINGS], EVENT_ID, SERVICE_FAMILY)
  {
    Revision0024.CanonicalToLegacyInverts();
    ColumnsOf(ServiceClassificationsTable());
    assert [CONTRACT_ID, FAMILY] in ServiceClassificationsTable().keys;
    assert ServiceClassificationsTable().name == CLASSIFICATIONS;
    hide Revision0024.LEGACY_TO_CANONICAL, Revision0024.CanonicalToLegacy, TableSpec.ToTable;
    hide ServiceClassificationsTable, Wf, Run, Lists, Separate, Inverse, HoldsTargets, RewriteOps, SameKey;
    KeysHoldThroughout(order, back, Revision0024.LEGACY_TO_CANONICAL, db, n);
  }

  // ----- schemas the chain can start from -----

  /** The tables that foreign keys of tables from a on may point at are there with their unique columns, and
      none of the names of tables a to b is taken. */
  ghost predicate Prepared(db: Database, a: nat, b: nat) {
    && (forall n | n in db.tables :: !(a <= n < b))
    && (forall n | n in db.indexes :: !(a <= IndexPosition(n) < b))
    && (forall n: TableName | n < a || Older(n) :: n in db.tables && [ID] in db.tables[n].keys)
    && (a > CORPORATE_GRAPH_NODES ==> [NODE_KEY] in db.tables[CORPORATE_GRAPH_NODES].keys)
  }

  /** The condition of the segment theorems, read off the tables that are there. */
  lemma PreparedReady(chain: seq<TableSpec>, db: Database, a: nat, b: nat)
    requires IsChain(chain) && a <= b <= LENGTH && Prepared(db, a, b)
    ensures Ready(chain, db, a, b)
  {
    hide TableSpec.Coherent, IndexPosition;
    forall k, f | a <= k < b && f in chain[k].references ensures a <= f.table < b || Resolves(f, db.tables) {
      assert Placed(chain[k], k) && PointsBack(f, k);
    }
  }

  function IdTable(): Table { Table(map[ID := NotNull], {[ID]}, {}, []) }

  function SchemaOf(signals: Table, hypotheses: Table, classifications: Table): Database {
    Database(
      map[ORGANIZATIONS := IdTable(), PASSIVE_ASSETS := IdTable(), VULNERABILITIES := IdTable(),
          PASSIVE_OBSERVATION_SNAPSHOTS := IdTable(), PROCUREMENT_CONTRACTS := IdTable(), EVIDENCE := IdTable(),
          COMMERCIAL_SIGNALS := signals, NEED_HYPOTHESES := hypotheses,
          PROCUREMENT_SERVICE_CLASSIFICATIONS := classifications],
      map[])
  }

  /** The smallest schema the whole chain can start from: the older tables it refers to, and the three tables
      of 0004 and 0010 as declared. */
  function Smallest(): Database {
    SchemaOf(CommercialSignalsTable().ToTable(), NeedHypothesesTable().ToTable(),
             ServiceClassificationsTable().ToTable())
  }

  lemma DeclaredTablesOk()
    ensures CommercialSignalsTable().ColumnsExist() && NeedHypothesesTable().ColumnsExist()
    ensures ServiceClassificationsTable().ColumnsExist()
  {}

  predicate PointsAtId(t: Table) {
    forall f | f in t.references ::
      f.target == ID && (f.table == EVIDENCE || f.table == ORGANIZATIONS || f.table == PROCUREMENT_CONTRACTS)
  }

  lemma DeclaredTableFits(t: TableSpec)
    requires t.ColumnsExist()
    requires t == CommercialSignalsTable() || t == NeedHypothesesTable() || t == ServiceClassificationsTable()
    ensures TableOk(t.ToTable()) && PointsAtId(t.ToTable())
  {
    ColumnsOf(t);
    hide TableSpec.ColumnsExist;
  }

  lemma SchemaOfWf(signals: Table, hypotheses: Table, classifications: Table)
    requires TableOk(signals) && PointsAtId(signals) && TableOk(hypotheses) && PointsAtId(hypotheses)
    requires TableOk(classifications) && PointsAtId(classifications)
    ensures Wf(SchemaOf(signals, hypotheses, classifications))
  {
    assert TableOk(IdTable());
    hide TableOk;
    var db := SchemaOf(signals, hypotheses, classifications);
    forall n, f | n in db.tables && f in db.tables[n].references ensures Resolves(f, db.tables) {
      assert PointsAtId(db.tables[n]);
    }
  }

  lemma OlderPresent(signals: Table, hypotheses: Table, classifications: Table, n: TableName)
    requires Older(n)
    ensures var db := SchemaOf(signals, hypotheses, classifications); n in db.tables && [ID] in db.tables[n].keys
  {
    assert n == ORGANIZATIONS || n == PASSIVE_ASSETS || n == VULNERABILITIES || n == PASSIVE_OBSERVATION_SNAPSHOTS;
  }

  /** The whole chain can start somewhere, so the segment theorems speak of something. */
  lemma SmallestReady()
    ensures Wf(Smallest()) && SegmentReady(Tables(), Smallest(), 0, COUNT) && AsDeclared(Smallest())
  {
    var signals, hypotheses := CommercialSignalsTable().ToTable(), NeedHypothesesTable().ToTable();
    var classifications := ServiceClassificationsTable().ToTable();
    DeclaredTablesOk();
    DeclaredTableFits(CommercialSignalsTable());
    DeclaredTableFits(NeedHypothesesTable());
    DeclaredTableFits(ServiceClassificationsTable());
    TablesFormChain();
    SmallestDeclared();
    hide Tables, IsChain, Wf, AsDeclared, TableSpec.ToTable, TableOk, PointsAtId, Ready, Ready0024;
    hide CommercialSignalsTable, NeedHypothesesTable, ServiceClassificationsTable, IndexPosition;
    SchemaOfWf(signals, hypotheses, classifications);
    DeclaredTablesReady(Smallest(), 0);
    SmallestPrepared();
    PreparedReady(Tables(), Smallest(), 0, LENGTH);
  }

  lemma SmallestDeclared()
    ensures AsDeclared(Smallest())
  {
    assert CommercialSignalsTable().name == COMMERCIAL_SIGNALS && NeedHypothesesTable().name == NEED_HYPOTHESES;
    assert ServiceClassificationsTable().name == PROCUREMENT_SERVICE_CLASSIFICATIONS;
    hide TableSpec.ToTable, CommercialSignalsTable, NeedHypothesesTable, ServiceClassificationsTable;
    var db := Smallest();
    assert db.tables[COMMERCIAL_SIGNALS] == CommercialSignalsTable().ToTable();
    assert db.tables[NEED_HYPOTHESES] == NeedHypothesesTable().ToTable();
  }

  lemma SmallestPrepared()
    ensures Prepared(Smallest(), 0, LENGTH)
  {
    var signals, hypotheses := CommercialSignalsTable().ToTable(), NeedHypothesesTable().ToTable();
    var classifications := ServiceClassificationsTable().ToTable();
    hide CommercialSignalsTable, NeedHypothesesTable, ServiceClassificationsTable, TableSpec.ToTable;
    forall n | Older(n) ensures n in Smallest().tables && [ID] in Smallest().tables[n].keys {
      OlderPresent(signals, hypotheses, classifications, n);
    }
  }
}
