/** Revision 0020: corporate graph and entity resolution. */
module Revision0020 {
  import opened Names
  import opened Schema
  import opened TableSpecs
  import opened Positions

  function CorporateGraphNodesTable(): TableSpec {
    TableSpec(
      CORPORATE_GRAPH_NODES,
      [ID, NODE_KEY, NODE_TYPE, DISPLAY_NAME, SOURCE_COUNT, CONFIDENCE, CURRENT, SUPPRESSED, FIRST_OBSERVED_AT,
       LAST_OBSERVED_AT, CREATED_AT, UPDATED_AT],
      [ORGANIZATION_ID],
      [[ID], [NODE_KEY]],
      [ForeignKey(ORGANIZATION_ID, ORGANIZATIONS, ID)],
      [NODE_KEY, NODE_TYPE, ORGANIZATION_ID, CURRENT],
      [NODE_KEY, NODE_TYPE, ORGANIZATION_ID, CURRENT])
  }

  function CorporateGraphNodeSnapshotsTable(): TableSpec {
    TableSpec(
      CORPORATE_GRAPH_NODE_SNAPSHOTS,
      [ID, NODE_ID, SNAPSHOT_KEY, NODE_KEY, NODE_TYPE, DISPLAY_NAME, SOURCE_MODULE, SOURCE_ENTITY_TYPE,
       SOURCE_RECORD_KEY, OBSERVED_AT, CONFIDENCE, ACTIVE, SUPPRESSED, METADATA_ONLY, CREATED_AT],
      [SOURCE_ENTITY_ID, ORGANIZATION_ID, SOURCE_URL, VALID_FROM, VALID_UNTIL],
      [[ID], [SNAPSHOT_KEY]],
      [ForeignKey(NODE_ID, CORPORATE_GRAPH_NODES, ID), ForeignKey(ORGANIZATION_ID, ORGANIZATIONS, ID)],
      CorporateGraphNodeSnapshotsIndexes(),
      [NODE_ID, NODE_KEY, SOURCE_MODULE, SOURCE_RECORD_KEY, ORGANIZATION_ID, OBSERVED_AT])
  }

  function CorporateGraphEdgesTable(): TableSpec {
    TableSpec(
      CORPORATE_GRAPH_EDGES,
      [ID, EDGE_KEY, SOURCE_NODE_KEY, TARGET_NODE_KEY, EDGE_TYPE, SOURCE_MODULE, SOURCE_EVIDENCE_CLASS,
       REVIEW_STATE, CONFIDENCE, CURRENT, SUPPRESSED, FIRST_OBSERVED_AT, LAST_OBSERVED_AT, CREATED_AT,
       UPDATED_AT],
      [VALID_FROM, VALID_UNTIL],
      [[ID], [EDGE_KEY]],
      [ForeignKey(SOURCE_NODE_KEY, CORPORATE_GRAPH_NODES, NODE_KEY),
       ForeignKey(TARGET_NODE_KEY, CORPORATE_GRAPH_NODES, NODE_KEY)],
      CorporateGraphEdgesIndexes(),
      [EDGE_KEY, SOURCE_NODE_KEY, TARGET_NODE_KEY, EDGE_TYPE, CURRENT, REVIEW_STATE])
  }

  function CorporateGraphEdgeSnapshotsTable(): TableSpec {
    TableSpec(
      CORPORATE_GRAPH_EDGE_SNAPSHOTS,
      [ID, EDGE_ID, SNAPSHOT_KEY, EDGE_KEY, SOURCE_NODE_KEY, TARGET_NODE_KEY, EDGE_TYPE, SOURCE_MODULE,
       SOURCE_RECORD_KEY, SOURCE_EVIDENCE_CLASS, CLAIM_TYPE, REVIEW_STATE, OBSERVED_AT, CONFIDENCE, ACTIVE,
       SUPPRESSED, CREATED_AT],
      [SOURCE_URL, VALID_FROM, VALID_UNTIL, EXPIRES_AT, SUPERSEDES_RECORD_KEY],
      [[ID], [SNAPSHOT_KEY]],
      [ForeignKey(EDGE_ID, CORPORATE_GRAPH_EDGES, ID)],
      CorporateGraphEdgeSnapshotsIndexes(),
      [EDGE_ID, EDGE_KEY, SOURCE_MODULE, SOURCE_RECORD_KEY, CLAIM_TYPE, OBSERVED_AT])
  }

  function EntityResolutionCandidatesTable(): TableSpec {
    TableSpec(
      ENTITY_RESOLUTION_CANDIDATES,
      [ID, NODE_KEY, CANDIDATE_ORGANIZATION_ID, METHOD, SCORE, REASONS_JSON, CONFLICTING_ORGANIZATION_IDS_JSON,
       STATE, REQUIRES_REVIEW, CREATED_AT, UPDATED_AT],
      [],
      [[ID], [NODE_KEY, CANDIDATE_ORGANIZATION_ID, METHOD]],
      [ForeignKey(NODE_KEY, CORPORATE_GRAPH_NODES, NODE_KEY),
       ForeignKey(CANDIDATE_ORGANIZATION_ID, ORGANIZATIONS, ID)],
      [NODE_KEY, CANDIDATE_ORGANIZATION_ID, STATE, REQUIRES_REVIEW],
      [NODE_KEY, CANDIDATE_ORGANIZATION_ID, STATE, REQUIRES_REVIEW])
  }

  function EntityResolutionDecisionsTable(): TableSpec {
    TableSpec(
      ENTITY_RESOLUTION_DECISIONS,
      [ID, CANDIDATE_ID, NODE_KEY, DECISION_TYPE, ACTOR, REASON, BLAST_RADIUS_FINGERPRINT, DECIDED_AT,
       CREATED_AT],
      [ORGANIZATION_ID, REVERSES_DECISION_ID],
      [[ID]],
      [ForeignKey(CANDIDATE_ID, ENTITY_RESOLUTION_CANDIDATES, ID),
       ForeignKey(ORGANIZATION_ID, ORGANIZATIONS, ID),
       ForeignKey(REVERSES_DECISION_ID, ENTITY_RESOLUTION_DECISIONS, ID)],
      [CANDIDATE_ID, NODE_KEY, DECISION_TYPE, ORGANIZATION_ID, DECIDED_AT],
      [CANDIDATE_ID, NODE_KEY, DECISION_TYPE, ORGANIZATION_ID, DECIDED_AT])
  }

  function EntityResolutionBindingsTable(): TableSpec {
    TableSpec(
      ENTITY_RESOLUTION_BINDINGS,
      [ID, NODE_KEY, ORGANIZATION_ID, METHOD, CONFIDENCE, CURRENT, BOUND_AT, UPDATED_AT],
      [CANDIDATE_ID, DECISION_ID],
      [[ID], [NODE_KEY]],
      [ForeignKey(NODE_KEY, CORPORATE_GRAPH_NODES, NODE_KEY),
       ForeignKey(ORGANIZATION_ID, ORGANIZATIONS, ID),
       ForeignKey(CANDIDATE_ID, ENTITY_RESOLUTION_CANDIDATES, ID),
       ForeignKey(DECISION_ID, ENTITY_RESOLUTION_DECISIONS, ID)],
      [NODE_KEY, ORGANIZATION_ID, CURRENT],
      [NODE_KEY, ORGANIZATION_ID, CURRENT])
  }

  /** The order in which the downgrade drops the tables. */
  const DROP_ORDER: seq<TableName> :=
    [ENTITY_RESOLUTION_BINDINGS, ENTITY_RESOLUTION_DECISIONS, ENTITY_RESOLUTION_CANDIDATES,
     CORPORATE_GRAPH_EDGE_SNAPSHOTS, CORPORATE_GRAPH_EDGES, CORPORATE_GRAPH_NODE_SNAPSHOTS,
     CORPORATE_GRAPH_NODES]

  lemma CorporateGraphNodesColumnsExist()
    ensures CorporateGraphNodesTable().ColumnsExist()
  {}

  lemma CorporateGraphNodesPlaced()
    ensures Placed(CorporateGraphNodesTable(), 11)
  {
    hide TableSpec.ColumnsExist;
    CorporateGraphNodesColumnsExist();
  }

  function CorporateGraphNodeSnapshotsIndexes(): seq<ColumnName> {
    [NODE_ID, NODE_KEY, SOURCE_MODULE, SOURCE_RECORD_KEY, ORGANIZATION_ID, OBSERVED_AT]
  }

  lemma CorporateGraphNodeSnapshotsIndexesOnce()
    ensures Unrepeated(CorporateGraphNodeSnapshotsIndexes())
  {}

  lemma CorporateGraphNodeSnapshotsColumnsExist()
    ensures CorporateGraphNodeSnapshotsTable().ColumnsExist()
  {}

  lemma CorporateGraphNodeSnapshotsPlaced()
    ensures Placed(CorporateGraphNodeSnapshotsTable(), 12)
  {
    hide TableSpec.ColumnsExist;
    hide Unrepeated;
    CorporateGraphNodeSnapshotsColumnsExist();
    CorporateGraphNodeSnapshotsIndexesOnce();
  }

  function CorporateGraphEdgesIndexes(): seq<ColumnName> {
    [EDGE_KEY, SOURCE_NODE_KEY, TARGET_NODE_KEY, EDGE_TYPE, CURRENT, REVIEW_STATE]
  }

  lemma CorporateGraphEdgesIndexesOnce()
    ensures Unrepeated(CorporateGraphEdgesIndexes())
  {}

  lemma CorporateGraphEdgesColumnsExist()
    ensures CorporateGraphEdgesTable().ColumnsExist()
  {}

  lemma CorporateGraphEdgesPlaced()
    ensures Placed(CorporateGraphEdgesTable(), 13)
  {
    hide TableSpec.ColumnsExist;
    hide Unrepeated;
    CorporateGraphEdgesColumnsExist();
    CorporateGraphEdgesIndexesOnce();
  }

  function CorporateGraphEdgeSnapshotsIndexes(): seq<ColumnName> {
    [EDGE_ID, EDGE_KEY, SOURCE_MODULE, SOURCE_RECORD_KEY, CLAIM_TYPE, OBSERVED_AT]
  }

  lemma CorporateGraphEdgeSnapshotsIndexesOnce()
    ensures Unrepeated(CorporateGraphEdgeSnapshotsIndexes())
  {}

  lemma CorporateGraphEdgeSnapshotsColumnsExist()
    ensures CorporateGraphEdgeSnapshotsTable().ColumnsExist()
  {}

  lemma CorporateGraphEdgeSnapshotsPlaced()
    ensures Placed(CorporateGraphEdgeSnapshotsTable(), 14)
  {
    hide TableSpec.ColumnsExist;
    hide Unrepeated;
    CorporateGraphEdgeSnapshotsColumnsExist();
    CorporateGraphEdgeSnapshotsIndexesOnce();
  }

  lemma EntityResolutionCandidatesColumnsExist()
    ensures EntityResolutionCandidatesTable().ColumnsExist()
  {}

  lemma EntityResolutionCandidatesPlaced()
    ensures Placed(EntityResolutionCandidatesTable(), 15)
  {
    hide TableSpec.ColumnsExist;
    EntityResolutionCandidatesColumnsExist();
  }

  lemma EntityResolutionDecisionsColumnsExist()
    ensures EntityResolutionDecisionsTable().ColumnsExist()
  {}

  lemma EntityResolutionDecisionsPlaced()
    ensures Placed(EntityResolutionDecisionsTable(), 16)
  {
    hide TableSpec.ColumnsExist;
    EntityResolutionDecisionsColumnsExist();
  }

  lemma EntityResolutionBindingsColumnsExist()
    ensures EntityResolutionBindingsTable().ColumnsExist()
  {}

  lemma EntityResolutionBindingsPlaced()
    ensures Placed(EntityResolutionBindingsTable(), 17)
  {
    hide TableSpec.ColumnsExist;
    EntityResolutionBindingsColumnsExist();
  }

  /** The tables in the order the upgrade creates them. */
  function Tables(): seq<TableSpec> {
    [CorporateGraphNodesTable(), CorporateGraphNodeSnapshotsTable(), CorporateGraphEdgesTable(),
     CorporateGraphEdgeSnapshotsTable(), EntityResolutionCandidatesTable(), EntityResolutionDecisionsTable(),
     EntityResolutionBindingsTable()]
  }

  lemma TablePlaced(i: nat)
    requires i < 7
    ensures Placed(Tables()[i], 11 + i)
  {
    hide Placed;
    match i
    case 0 => CorporateGraphNodesPlaced();
    case 1 => CorporateGraphNodeSnapshotsPlaced();
    case 2 => CorporateGraphEdgesPlaced();
    case 3 => CorporateGraphEdgeSnapshotsPlaced();
    case 4 => EntityResolutionCandidatesPlaced();
    case 5 => EntityResolutionDecisionsPlaced();
    case _ => EntityResolutionBindingsPlaced();
  }
}
