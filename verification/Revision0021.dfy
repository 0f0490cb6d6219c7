/** Revision 0021: professional context. */
module Revision0021 {
  import opened Names
  import opened Schema
  import opened TableSpecs
  import opened Positions

  function ProfessionalPeopleTable(): TableSpec {
    TableSpec(
      PROFESSIONAL_PEOPLE,
      [ID, PERSON_KEY, SOURCE_ID, CONFIDENCE, REVIEW_STATE, LAWFUL_BASIS, LAWFUL_BASIS_REFERENCE,
       PROCESSING_PURPOSE, CURRENT, SUPPRESSED, DELETED, LAST_OBSERVED_AT, RETENTION_UNTIL, CREATED_AT,
       UPDATED_AT],
      [DISPLAY_NAME],
      [[ID], [PERSON_KEY]],
      [],
      [PERSON_KEY, SOURCE_ID, CURRENT, DELETED],
      [PERSON_KEY, SOURCE_ID, CURRENT, DELETED])
  }

  function ProfessionalPersonSnapshotsTable(): TableSpec {
    TableSpec(
      PROFESSIONAL_PERSON_SNAPSHOTS,
      [ID, PERSON_ID, SNAPSHOT_KEY, PERSON_KEY, SOURCE_ID, SOURCE_KIND, OBSERVED_AT, CONFIDENCE, REVIEW_STATE,
       LAWFUL_BASIS, LAWFUL_BASIS_REFERENCE, PROCESSING_PURPOSE, PROCESSING_REVIEWED_AT, RETENTION_UNTIL,
       ACTIVE, SUPPRESSED, DELETED, CREATED_AT],
      [DISPLAY_NAME, SOURCE_RECORD_KEY, SOURCE_URL],
      [[ID], [SNAPSHOT_KEY]],
      [ForeignKey(PERSON_ID, PROFESSIONAL_PEOPLE, ID)],
      [PERSON_ID, PERSON_KEY, OBSERVED_AT, DELETED],
      [PERSON_ID, PERSON_KEY, OBSERVED_AT, DELETED])
  }

  function ProfessionalRolesTable(): TableSpec {
    TableSpec(
      PROFESSIONAL_ROLES,
      [ID, CLAIM_KEY, PERSON_KEY, EMPLOYMENT_STATE, CONFIDENCE, REVIEW_STATE, LAWFUL_BASIS,
       LAWFUL_BASIS_REFERENCE, PROCESSING_PURPOSE, SUPPRESSED, DELETED, EVIDENCE_COUNT, FIRST_OBSERVED_AT,
       LAST_OBSERVED_AT, RETENTION_UNTIL, CREATED_AT, UPDATED_AT],
      [ORGANIZATION_ID, CLAIMED_ORGANIZATION_NAME, ROLE_TITLE, TEAM_NAME],
      [[ID], [CLAIM_KEY]],
      [ForeignKey(ORGANIZATION_ID, ORGANIZATIONS, ID)],
      [CLAIM_KEY, PERSON_KEY, ORGANIZATION_ID, EMPLOYMENT_STATE, DELETED],
      [CLAIM_KEY, PERSON_KEY, ORGANIZATION_ID, EMPLOYMENT_STATE, DELETED])
  }

  function ProfessionalRoleSnapshotsTable(): TableSpec {
    TableSpec(
      PROFESSIONAL_ROLE_SNAPSHOTS,
      [ID, ROLE_ID, SNAPSHOT_KEY, CLAIM_KEY, PERSON_KEY, SOURCE_ID, ORGANIZATION_LINK_STATUS, CLAIM_TYPE,
       REVIEW_STATE, OBSERVED_AT, CONFIDENCE, ACTIVE, SUPPRESSED, DELETED, HISTORICAL_ONLY, LAWFUL_BASIS,
       LAWFUL_BASIS_REFERENCE, PROCESSING_PURPOSE, PROCESSING_REVIEWED_AT, RETENTION_UNTIL, CREATED_AT],
      [SOURCE_RECORD_KEY, SOURCE_URL, ROLE_TITLE, TEAM_NAME, CLAIMED_ORGANIZATION_NAME, ORGANIZATION_ID,
       VALID_FROM, VALID_UNTIL, EXPIRES_AT, SUPERSEDES_RECORD_KEY],
      [[ID], [SNAPSHOT_KEY]],
      [ForeignKey(ROLE_ID, PROFESSIONAL_ROLES, ID), ForeignKey(ORGANIZATION_ID, ORGANIZATIONS, ID)],
      [ROLE_ID, PERSON_KEY, ORGANIZATION_ID, OBSERVED_AT, DELETED],
      [ROLE_ID, PERSON_KEY, ORGANIZATION_ID, OBSERVED_AT, DELETED])
  }

  function ProfessionalReportingLinesTable(): TableSpec {
    TableSpec(
      PROFESSIONAL_REPORTING_LINES,
      [ID, CLAIM_KEY, SUBJECT_PERSON_KEY, MANAGER_PERSON_KEY, CONFIDENCE, REVIEW_STATE, LAWFUL_BASIS,
       LAWFUL_BASIS_REFERENCE, PROCESSING_PURPOSE, CURRENT, SUPPRESSED, DELETED, FIRST_OBSERVED_AT,
       LAST_OBSERVED_AT, RETENTION_UNTIL, CREATED_AT, UPDATED_AT],
      [ORGANIZATION_ID],
      [[ID], [CLAIM_KEY]],
      [ForeignKey(ORGANIZATION_ID, ORGANIZATIONS, ID)],
      [CLAIM_KEY, SUBJECT_PERSON_KEY, MANAGER_PERSON_KEY, CURRENT, DELETED],
      [CLAIM_KEY, SUBJECT_PERSON_KEY, MANAGER_PERSON_KEY, CURRENT, DELETED])
  }

  function ProfessionalReportingSnapshotsTable(): TableSpec {
    TableSpec(
      PROFESSIONAL_REPORTING_SNAPSHOTS,
      [ID, REPORTING_LINE_ID, SNAPSHOT_KEY, CLAIM_KEY, SUBJECT_PERSON_KEY, MANAGER_PERSON_KEY, SOURCE_ID,
       CLAIM_TYPE, REVIEW_STATE, OBSERVED_AT, CONFIDENCE, ACTIVE, SUPPRESSED, DELETED, LAWFUL_BASIS,
       LAWFUL_BASIS_REFERENCE, PROCESSING_PURPOSE, PROCESSING_REVIEWED_AT, RETENTION_UNTIL, CREATED_AT],
      [ORGANIZATION_ID, SOURCE_RECORD_KEY, SOURCE_URL, VALID_FROM, VALID_UNTIL, SUPERSEDES_RECORD_KEY],
      [[ID], [SNAPSHOT_KEY]],
      [ForeignKey(REPORTING_LINE_ID, PROFESSIONAL_REPORTING_LINES, ID),
       ForeignKey(ORGANIZATION_ID, ORGANIZATIONS, ID)],
      [REPORTING_LINE_ID, SUBJECT_PERSON_KEY, MANAGER_PERSON_KEY, OBSERVED_AT, DELETED],
      [REPORTING_LINE_ID, SUBJECT_PERSON_KEY, MANAGER_PERSON_KEY, OBSERVED_AT, DELETED])
  }

  function ProfessionalContactsTable(): TableSpec {
    TableSpec(
      PROFESSIONAL_CONTACTS,
      [ID, CONTACT_KEY, CHANNEL_TYPE, CONFIDENCE, REVIEW_STATE, LAWFUL_BASIS, LAWFUL_BASIS_REFERENCE,
       PROCESSING_PURPOSE, CURRENT, SUPPRESSED, DELETED, LAST_OBSERVED_AT, RETENTION_UNTIL, CREATED_AT,
       UPDATED_AT],
      [VALUE, ORGANIZATION_ID, PERSON_KEY],
      [[ID], [CONTACT_KEY]],
      [ForeignKey(ORGANIZATION_ID, ORGANIZATIONS, ID)],
      ProfessionalContactsIndexes(),
      [CONTACT_KEY, CHANNEL_TYPE, ORGANIZATION_ID, PERSON_KEY, CURRENT, DELETED])
  }

  function ProfessionalContactSnapshotsTable(): TableSpec {
    TableSpec(
      PROFESSIONAL_CONTACT_SNAPSHOTS,
      [ID, CONTACT_ID, SNAPSHOT_KEY, CONTACT_KEY, CHANNEL_TYPE, EVIDENCE_SCOPE, SOURCE_ID, CLAIM_TYPE,
       REVIEW_STATE, OBSERVED_AT, CONFIDENCE, ACTIVE, SUPPRESSED, DELETED, LAWFUL_BASIS, LAWFUL_BASIS_REFERENCE,
       PROCESSING_PURPOSE, PROCESSING_REVIEWED_AT, RETENTION_UNTIL, CREATED_AT],
      [VALUE, ORGANIZATION_ID, PERSON_KEY, SOURCE_RECORD_KEY, SOURCE_URL, SUPERSEDES_RECORD_KEY],
      [[ID], [SNAPSHOT_KEY]],
      [ForeignKey(CONTACT_ID, PROFESSIONAL_CONTACTS, ID), ForeignKey(ORGANIZATION_ID, ORGANIZATIONS, ID)],
      [CONTACT_ID, CHANNEL_TYPE, PERSON_KEY, OBSERVED_AT, DELETED],
      [CONTACT_ID, CHANNEL_TYPE, PERSON_KEY, OBSERVED_AT, DELETED])
  }

  function ProfessionalCommunityContextsTable(): TableSpec {
    TableSpec(
      PROFESSIONAL_COMMUNITY_CONTEXTS,
      [ID, CONTEXT_KEY, COMMUNITY_NAME, CONTEXT_TYPE, ACQUISITION_MODE, CONFIDENCE, REVIEW_STATE, LAWFUL_BASIS,
       LAWFUL_BASIS_REFERENCE, PROCESSING_PURPOSE, CURRENT, SUPPRESSED, DELETED, LAST_OBSERVED_AT,
       RETENTION_UNTIL, CREATED_AT, UPDATED_AT],
      [CONTEXT_VALUE, ORGANIZATION_ID, PERSON_KEY],
      [[ID], [CONTEXT_KEY]],
      [ForeignKey(ORGANIZATION_ID, ORGANIZATIONS, ID)],
      [CONTEXT_KEY, COMMUNITY_NAME, PERSON_KEY, CURRENT, DELETED],
      [CONTEXT_KEY, COMMUNITY_NAME, PERSON_KEY, CURRENT, DELETED])
  }

  function ProfessionalCommunitySnapshotsTable(): TableSpec {
    TableSpec(
      PROFESSIONAL_COMMUNITY_SNAPSHOTS,
      [ID, CONTEXT_ID, SNAPSHOT_KEY, CONTEXT_KEY, COMMUNITY_NAME, CONTEXT_TYPE, ACQUISITION_MODE,
       AUTHORIZATION_REFERENCE, SOURCE_ID, CLAIM_TYPE, REVIEW_STATE, OBSERVED_AT, CONFIDENCE, ACTIVE,
       SUPPRESSED, DELETED, METADATA_ONLY, LAWFUL_BASIS, LAWFUL_BASIS_REFERENCE, PROCESSING_PURPOSE,
       PROCESSING_REVIEWED_AT, RETENTION_UNTIL, CREATED_AT],
      [CONTEXT_VALUE, ORGANIZATION_ID, PERSON_KEY, SOURCE_RECORD_KEY, SOURCE_URL, SUPERSEDES_RECORD_KEY],
      [[ID], [SNAPSHOT_KEY]],
      [ForeignKey(CONTEXT_ID, PROFESSIONAL_COMMUNITY_CONTEXTS, ID),
       ForeignKey(ORGANIZATION_ID, ORGANIZATIONS, ID)],
      [CONTEXT_ID, COMMUNITY_NAME, PERSON_KEY, OBSERVED_AT, DELETED],
      [CONTEXT_ID, COMMUNITY_NAME, PERSON_KEY, OBSERVED_AT, DELETED])
  }

  function ProfessionalServiceRelevanceTable(): TableSpec {
    TableSpec(
      PROFESSIONAL_SERVICE_RELEVANCE,
      [ID, MAPPING_KEY, SERVICE_FAMILY, RATIONALE, CONFIDENCE, SOURCE_CLAIM_KEYS, REVIEW_STATE, CREATED_AT,
       UPDATED_AT],
      [PERSON_KEY, ORGANIZATION_ID],
      [[ID], [MAPPING_KEY]],
      [ForeignKey(ORGANIZATION_ID, ORGANIZATIONS, ID)],
      [MAPPING_KEY, PERSON_KEY, ORGANIZATION_ID, SERVICE_FAMILY],
      [MAPPING_KEY, PERSON_KEY, ORGANIZATION_ID, SERVICE_FAMILY])
  }

  function ProfessionalDeletionAuditTable(): TableSpec {
    TableSpec(
      PROFESSIONAL_DELETION_AUDIT,
      [ID, SUBJECT_HASH, CHANNEL, REASON, SOURCE, ACTOR, REQUESTED_AT, APPLIED_AT, SUPPRESSION_EXPIRES_AT],
      [PERSON_ID],
      [[ID]],
      [ForeignKey(PERSON_ID, PROFESSIONAL_PEOPLE, ID)],
      [PERSON_ID, SUBJECT_HASH, CHANNEL, REQUESTED_AT],
      [PERSON_ID, SUBJECT_HASH, CHANNEL, REQUESTED_AT])
  }

  /** The order in which the downgrade drops the tables. */
  const DROP_ORDER: seq<TableName> :=
    [PROFESSIONAL_DELETION_AUDIT, PROFESSIONAL_SERVICE_RELEVANCE, PROFESSIONAL_COMMUNITY_SNAPSHOTS,
     PROFESSIONAL_COMMUNITY_CONTEXTS, PROFESSIONAL_CONTACT_SNAPSHOTS, PROFESSIONAL_CONTACTS,
     PROFESSIONAL_REPORTING_SNAPSHOTS, PROFESSIONAL_REPORTING_LINES, PROFESSIONAL_ROLE_SNAPSHOTS,
     PROFESSIONAL_ROLES, PROFESSIONAL_PERSON_SNAPSHOTS, PROFESSIONAL_PEOPLE]

  lemma ProfessionalPeopleColumnsExist()
    ensures ProfessionalPeopleTable().ColumnsExist()
  {}

  lemma ProfessionalPeoplePlaced()
    ensures Placed(ProfessionalPeopleTable(), 18)
  {
    hide TableSpec.ColumnsExist;
    ProfessionalPeopleColumnsExist();
  }

  lemma ProfessionalPersonSnapshotsColumnsExist()
    ensures ProfessionalPersonSnapshotsTable().ColumnsExist()
  {}

  lemma ProfessionalPersonSnapshotsPlaced()
    ensures Placed(ProfessionalPersonSnapshotsTable(), 19)
  {
    hide TableSpec.ColumnsExist;
    ProfessionalPersonSnapshotsColumnsExist();
  }

  lemma ProfessionalRolesColumnsExist()
    ensures ProfessionalRolesTable().ColumnsExist()
  {}

  lemma ProfessionalRolesPlaced()
    ensures Placed(ProfessionalRolesTable(), 20)
  {
    hide TableSpec.ColumnsExist;
    ProfessionalRolesColumnsExist();
  }

  lemma ProfessionalRoleSnapshotsColumnsExist()
    ensures ProfessionalRoleSnapshotsTable().ColumnsExist()
  {}

  lemma ProfessionalRoleSnapshotsPlaced()
    ensures Placed(ProfessionalRoleSnapshotsTable(), 21)
  {
    hide TableSpec.ColumnsExist;
    ProfessionalRoleSnapshotsColumnsExist();
  }

  lemma ProfessionalReportingLinesColumnsExist()
    ensures ProfessionalReportingLinesTable().ColumnsExist()
  {}

  lemma ProfessionalReportingLinesPlaced()
    ensures Placed(ProfessionalReportingLinesTable(), 22)
  {
    hide TableSpec.ColumnsExist;
    ProfessionalReportingLinesColumnsExist();
  }

  lemma ProfessionalReportingSnapshotsColumnsExist()
    ensures ProfessionalReportingSnapshotsTable().ColumnsExist()
  {}

  lemma ProfessionalReportingSnapshotsPlaced()
    ensures Placed(ProfessionalReportingSnapshotsTable(), 23)
  {
    hide TableSpec.ColumnsExist;
    ProfessionalReportingSnapshotsColumnsExist();
  }

  function ProfessionalContactsIndexes(): seq<ColumnName> {
    [CONTACT_KEY, CHANNEL_TYPE, ORGANIZATION_ID, PERSON_KEY, CURRENT, DELETED]
  }

  lemma ProfessionalContactsIndexesOnce()
    ensures Unrepeated(ProfessionalContactsIndexes())
  {}

  lemma ProfessionalContactsColumnsExist()
    ensures ProfessionalContactsTable().ColumnsExist()
  {}

  lemma ProfessionalContactsPlaced()
    ensures Placed(ProfessionalContactsTable(), 24)
  {
    hide TableSpec.ColumnsExist;
    hide Unrepeated;
    ProfessionalContactsColumnsExist();
    ProfessionalContactsIndexesOnce();
  }

  lemma ProfessionalContactSnapshotsColumnsExist()
    ensures ProfessionalContactSnapshotsTable().ColumnsExist()
  {}

  lemma ProfessionalContactSnapshotsPlaced()
    ensures Placed(ProfessionalContactSnapshotsTable(), 25)
  {
    hide TableSpec.ColumnsExist;
    ProfessionalContactSnapshotsColumnsExist();
  }

  lemma ProfessionalCommunityContextsColumnsExist()
    ensures ProfessionalCommunityContextsTable().ColumnsExist()
  {}

  lemma ProfessionalCommunityContextsPlaced()
    ensures Placed(ProfessionalCommunityContextsTable(), 26)
  {
    hide TableSpec.ColumnsExist;
    ProfessionalCommunityContextsColumnsExist();
  }

  lemma ProfessionalCommunitySnapshotsColumnsExist()
    ensures ProfessionalCommunitySnapshotsTable().ColumnsExist()
  {}

  lemma ProfessionalCommunitySnapshotsPlaced()
    ensures Placed(ProfessionalCommunitySnapshotsTable(), 27)
  {
    hide TableSpec.ColumnsExist;
    ProfessionalCommunitySnapshotsColumnsExist();
  }

  lemma ProfessionalServiceRelevanceColumnsExist()
    ensures ProfessionalServiceRelevanceTable().ColumnsExist()
  {}

  lemma ProfessionalServiceRelevancePlaced()
    ensures Placed(ProfessionalServiceRelevanceTable(), 28)
  {
    hide TableSpec.ColumnsExist;
    ProfessionalServiceRelevanceColumnsExist();
  }

  lemma ProfessionalDeletionAuditPlaced()
    ensures Placed(ProfessionalDeletionAuditTable(), 29)
  {}

  /** The tables in the order the upgrade creates them. */
  function Tables(): seq<TableSpec> {
    [ProfessionalPeopleTable(), ProfessionalPersonSnapshotsTable(), ProfessionalRolesTable(),
     ProfessionalRoleSnapshotsTable(), ProfessionalReportingLinesTable(), ProfessionalReportingSnapshotsTable(),
     ProfessionalContactsTable(), ProfessionalContactSnapshotsTable(), ProfessionalCommunityContextsTable(),
     ProfessionalCommunitySnapshotsTable(), ProfessionalServiceRelevanceTable(),
     ProfessionalDeletionAuditTable()]
  }

  lemma TablePlaced(i: nat)
    requires i < 12
    ensures Placed(Tables()[i], 18 + i)
  {
    hide Placed;
    match i
    case 0 => ProfessionalPeoplePlaced();
    case 1 => ProfessionalPersonSnapshotsPlaced();
    case 2 => ProfessionalRolesPlaced();
    case 3 => ProfessionalRoleSnapshotsPlaced();
    case 4 => ProfessionalReportingLinesPlaced();
    case 5 => ProfessionalReportingSnapshotsPlaced();
    case 6 => ProfessionalContactsPlaced();
    case 7 => ProfessionalContactSnapshotsPlaced();
    case 8 => ProfessionalCommunityContextsPlaced();
    case 9 => ProfessionalCommunitySnapshotsPlaced();
    case 10 => ProfessionalServiceRelevancePlaced();
    case _ => ProfessionalDeletionAuditPlaced();
  }
}
