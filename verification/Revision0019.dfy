/** Revision 0019: business relationships. */
module Revision0019 {
  import opened Names
  import opened Schema
  import opened TableSpecs
  import opened Positions

  function BusinessRelationshipsTable(): TableSpec {
    TableSpec(
      BUSINESS_RELATIONSHIPS,
      [ID, RELATIONSHIP_KEY, ROLE, STATUS, SOURCE_LINK_STATUS, TARGET_LINK_STATUS, FIRST_PUBLISHED_AT,
       LAST_UPDATED_AT, LAST_OBSERVED_AT, EVIDENCE_COUNT, INDEPENDENT_SOURCE_COUNT, STRONGEST_EVIDENCE_CLASS,
       CONFIDENCE, HAS_CONTRACT_EVIDENCE, CONTRACT_BACKED_CURRENT, HAS_ROLE_CONFLICT, HAS_DISPUTE,
       HAS_CORRECTION, HAS_RETRACTION, HISTORICAL_ONLY, CREATED_AT, UPDATED_AT],
      [SOURCE_ORGANIZATION_ID, TARGET_ORGANIZATION_ID, SOURCE_NAME, TARGET_NAME, VALID_FROM, VALID_UNTIL,
       NEXT_RENEWAL_AT],
      [[ID], [RELATIONSHIP_KEY]],
      [ForeignKey(SOURCE_ORGANIZATION_ID, ORGANIZATIONS, ID),
       ForeignKey(TARGET_ORGANIZATION_ID, ORGANIZATIONS, ID)],
      BusinessRelationshipsIndexes(), BusinessRelationshipsIndexes())
  }

  function RelationshipEvidenceSnapshotsTable(): TableSpec {
    TableSpec(
      RELATIONSHIP_EVIDENCE_SNAPSHOTS,
      [ID, RELATIONSHIP_ID, SNAPSHOT_KEY, SOURCE_ID, SOURCE_KIND, SOURCE_RECORD_KEY, SOURCE_URL,
       RELATIONSHIP_KEY, CLAIM_TYPE, ROLE, EVIDENCE_CLASS, TITLE, EXCERPT, SOURCE_LINK_STATUS,
       TARGET_LINK_STATUS, PUBLISHED_AT, MODIFIED_AT, OBSERVED_AT, INDEPENDENCE_KEY, CONFIDENCE, ACTIVE,
       HISTORICAL_ONLY, METADATA_ONLY, CREATED_AT],
      [CLAIMED_SOURCE_ORGANIZATION_NAME, CLAIMED_TARGET_ORGANIZATION_NAME, SOURCE_ORGANIZATION_ID,
       TARGET_ORGANIZATION_ID, VALID_FROM, VALID_UNTIL, EXPIRES_AT, CONTRACT_REFERENCE, PRODUCT_CONTEXT,
       SERVICE_CONTEXT, RENEWAL_AT, SUPERSEDES_RECORD_KEY],
      [[ID], [SNAPSHOT_KEY]],
      [ForeignKey(RELATIONSHIP_ID, BUSINESS_RELATIONSHIPS, ID),
       ForeignKey(SOURCE_ORGANIZATION_ID, ORGANIZATIONS, ID),
       ForeignKey(TARGET_ORGANIZATION_ID, ORGANIZATIONS, ID)],
      RelationshipEvidenceSnapshotsIndexes(), RelationshipEvidenceSnapshotsIndexes())
  }

  function RelationshipContextsTable(): TableSpec {
    TableSpec(
      RELATIONSHIP_CONTEXTS,
      [ID, RELATIONSHIP_ID, CONTEXT_TYPE, VALUE, CONFIDENCE, CREATED_AT],
      [REFERENCE],
      [[ID], [RELATIONSHIP_ID, CONTEXT_TYPE, VALUE]],
      [ForeignKey(RELATIONSHIP_ID, BUSINESS_RELATIONSHIPS, ID)],
      [RELATIONSHIP_ID, CONTEXT_TYPE, VALUE],
      [RELATIONSHIP_ID, CONTEXT_TYPE, VALUE])
  }

  /** The order in which the downgrade drops the tables. */
  const DROP_ORDER: seq<TableName> :=
    [RELATIONSHIP_CONTEXTS, RELATIONSHIP_EVIDENCE_SNAPSHOTS, BUSINESS_RELATIONSHIPS]

  function BusinessRelationshipsIndexes(): seq<ColumnName> {
    [RELATIONSHIP_KEY, ROLE, STATUS, SOURCE_ORGANIZATION_ID, TARGET_ORGANIZATION_ID, SOURCE_LINK_STATUS,
     TARGET_LINK_STATUS] +
    [SOURCE_NAME, TARGET_NAME, VALID_FROM, VALID_UNTIL, FIRST_PUBLISHED_AT, LAST_UPDATED_AT, LAST_OBSERVED_AT] +
    [STRONGEST_EVIDENCE_CLASS, HAS_CONTRACT_EVIDENCE, CONTRACT_BACKED_CURRENT, NEXT_RENEWAL_AT,
     HAS_ROLE_CONFLICT, HAS_DISPUTE, HAS_CORRECTION] +
    [HAS_RETRACTION, HISTORICAL_ONLY, UPDATED_AT]
  }

  lemma BusinessRelationshipsIndexesOnce()
    ensures Unrepeated(BusinessRelationshipsIndexes())
  {
    UnrepeatedJoin([RELATIONSHIP_KEY, ROLE, STATUS, SOURCE_ORGANIZATION_ID, TARGET_ORGANIZATION_ID,
                    SOURCE_LINK_STATUS, TARGET_LINK_STATUS],
                   [SOURCE_NAME, TARGET_NAME, VALID_FROM, VALID_UNTIL, FIRST_PUBLISHED_AT, LAST_UPDATED_AT,
                    LAST_OBSERVED_AT]);
    UnrepeatedJoin([RELATIONSHIP_KEY, ROLE, STATUS, SOURCE_ORGANIZATION_ID, TARGET_ORGANIZATION_ID,
                    SOURCE_LINK_STATUS, TARGET_LINK_STATUS] +
                   [SOURCE_NAME, TARGET_NAME, VALID_FROM, VALID_UNTIL, FIRST_PUBLISHED_AT, LAST_UPDATED_AT,
                    LAST_OBSERVED_AT],
                   [STRONGEST_EVIDENCE_CLASS, HAS_CONTRACT_EVIDENCE, CONTRACT_BACKED_CURRENT, NEXT_RENEWAL_AT,
                    HAS_ROLE_CONFLICT, HAS_DISPUTE, HAS_CORRECTION]);
    UnrepeatedJoin([RELATIONSHIP_KEY, ROLE, STATUS, SOURCE_ORGANIZATION_ID, TARGET_ORGANIZATION_ID,
                    SOURCE_LINK_STATUS, TARGET_LINK_STATUS] +
                   [SOURCE_NAME, TARGET_NAME, VALID_FROM, VALID_UNTIL, FIRST_PUBLISHED_AT, LAST_UPDATED_AT,
                    LAST_OBSERVED_AT] +
                   [STRONGEST_EVIDENCE_CLASS, HAS_CONTRACT_EVIDENCE, CONTRACT_BACKED_CURRENT, NEXT_RENEWAL_AT,
                    HAS_ROLE_CONFLICT, HAS_DISPUTE, HAS_CORRECTION],
                   [HAS_RETRACTION, HISTORICAL_ONLY, UPDATED_AT]);
  }

  lemma BusinessRelationshipsColumnsExist()
    ensures BusinessRelationshipsTable().ColumnsExist()
  {}

  lemma BusinessRelationshipsPlaced()
    ensures Placed(BusinessRelationshipsTable(), 8)
  {
    hide TableSpec.ColumnsExist;
    hide Unrepeated;
    BusinessRelationshipsColumnsExist();
    BusinessRelationshipsIndexesOnce();
  }

  function RelationshipEvidenceSnapshotsIndexes(): seq<ColumnName> {
    [RELATIONSHIP_ID, SOURCE_ID, SOURCE_KIND, SOURCE_RECORD_KEY, RELATIONSHIP_KEY, CLAIM_TYPE, ROLE] +
    [EVIDENCE_CLASS, CLAIMED_SOURCE_ORGANIZATION_NAME, CLAIMED_TARGET_ORGANIZATION_NAME, SOURCE_ORGANIZATION_ID,
     TARGET_ORGANIZATION_ID, SOURCE_LINK_STATUS, TARGET_LINK_STATUS] +
    [PUBLISHED_AT, MODIFIED_AT, OBSERVED_AT, VALID_FROM, VALID_UNTIL, EXPIRES_AT, RENEWAL_AT] +
    [INDEPENDENCE_KEY, ACTIVE, HISTORICAL_ONLY, SUPERSEDES_RECORD_KEY]
  }

  lemma RelationshipEvidenceSnapshotsIndexesOnce()
    ensures Unrepeated(RelationshipEvidenceSnapshotsIndexes())
  {
    UnrepeatedJoin([RELATIONSHIP_ID, SOURCE_ID, SOURCE_KIND, SOURCE_RECORD_KEY, RELATIONSHIP_KEY, CLAIM_TYPE,
                    ROLE],
                   [EVIDENCE_CLASS, CLAIMED_SOURCE_ORGANIZATION_NAME, CLAIMED_TARGET_ORGANIZATION_NAME,
                    SOURCE_ORGANIZATION_ID, TARGET_ORGANIZATION_ID, SOURCE_LINK_STATUS, TARGET_LINK_STATUS]);
    UnrepeatedJoin([RELATIONSHIP_ID, SOURCE_ID, SOURCE_KIND, SOURCE_RECORD_KEY, RELATIONSHIP_KEY, CLAIM_TYPE,
                    ROLE] +
                   [EVIDENCE_CLASS, CLAIMED_SOURCE_ORGANIZATION_NAME, CLAIMED_TARGET_ORGANIZATION_NAME,
                    SOURCE_ORGANIZATION_ID, TARGET_ORGANIZATION_ID, SOURCE_LINK_STATUS, TARGET_LINK_STATUS],
                   [PUBLISHED_AT, MODIFIED_AT, OBSERVED_AT, VALID_FROM, VALID_UNTIL, EXPIRES_AT, RENEWAL_AT]);
    UnrepeatedJoin([RELATIONSHIP_ID, SOURCE_ID, SOURCE_KIND, SOURCE_RECORD_KEY, RELATIONSHIP_KEY, CLAIM_TYPE,
                    ROLE] +
                   [EVIDENCE_CLASS, CLAIMED_SOURCE_ORGANIZATION_NAME, CLAIMED_TARGET_ORGANIZATION_NAME,
                    SOURCE_ORGANIZATION_ID, TARGET_ORGANIZATION_ID, SOURCE_LINK_STATUS, TARGET_LINK_STATUS] +
                   [PUBLISHED_AT, MODIFIED_AT, OBSERVED_AT, VALID_FROM, VALID_UNTIL, EXPIRES_AT, RENEWAL_AT],
                   [INDEPENDENCE_KEY, ACTIVE, HISTORICAL_ONLY, SUPERSEDES_RECORD_KEY]);
  }

  lemma RelationshipEvidenceSnapshotsColumnsExist()
    ensures RelationshipEvidenceSnapshotsTable().ColumnsExist()
  {}

  lemma RelationshipEvidenceSnapshotsPlaced()
    ensures Placed(RelationshipEvidenceSnapshotsTable(), 9)
  {
    hide TableSpec.ColumnsExist;
    hide Unrepeated;
    RelationshipEvidenceSnapshotsColumnsExist();
    RelationshipEvidenceSnapshotsIndexesOnce();
  }

  lemma RelationshipContextsPlaced()
    ensures Placed(RelationshipContextsTable(), 10)
  {}

  /** The tables in the order the upgrade creates them. */
  function Tables(): seq<TableSpec> {
    [BusinessRelationshipsTable(), RelationshipEvidenceSnapshotsTable(), RelationshipContextsTable()]
  }

  lemma TablePlaced(i: nat)
    requires i < 3
    ensures Placed(Tables()[i], 8 + i)
  {
    hide Placed;
    match i
    case 0 => BusinessRelationshipsPlaced();
    case 1 => RelationshipEvidenceSnapshotsPlaced();
    case _ => RelationshipContextsPlaced();
  }
}
