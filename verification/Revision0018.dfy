/** Revision 0018: corporate and regulatory change intelligence. */
module Revision0018 {
  import opened Names
  import opened Schema
  import opened TableSpecs
  import opened Positions

  function CorporateChangeEventsTable(): TableSpec {
    TableSpec(
      CORPORATE_CHANGE_EVENTS,
      [ID, EVENT_KEY, EVENT_TYPE, TITLE, EXCERPT, STATUS, ORGANIZATION_LINK_STATUS, FIRST_PUBLISHED_AT,
       LAST_UPDATED_AT, CLAIM_COUNT, INDEPENDENT_SOURCE_COUNT, OFFICIALLY_CONFIRMED, HAS_DISPUTE,
       HAS_CORRECTION, HAS_RETRACTION, HISTORICAL_ONLY, CREATED_AT, UPDATED_AT],
      [ORGANIZATION_ID, EVENT_AT],
      [[ID], [EVENT_KEY]],
      [ForeignKey(ORGANIZATION_ID, ORGANIZATIONS, ID)],
      CorporateChangeEventsIndexes(), CorporateChangeEventsIndexes())
  }

  function CorporateChangeClaimSnapshotsTable(): TableSpec {
    TableSpec(
      CORPORATE_CHANGE_CLAIM_SNAPSHOTS,
      [ID, EVENT_ID, SNAPSHOT_KEY, SOURCE_ID, SOURCE_KIND, SOURCE_RECORD_KEY, ARTICLE_ID, SOURCE_URL, EVENT_KEY,
       CLAIM_TYPE, EVENT_TYPE, TITLE, EXCERPT, ORGANIZATION_LINK_STATUS, PUBLISHED_AT, MODIFIED_AT,
       INDEPENDENCE_KEY, CONFIDENCE, ACTIVE, HISTORICAL_ONLY, METADATA_ONLY, CREATED_AT],
      [CLAIMED_ORGANIZATION_NAME, ORGANIZATION_ID, EVENT_AT, EXPIRES_AT, SYNDICATION_GROUP_KEY,
       SUPERSEDES_RECORD_KEY],
      [[ID], [SNAPSHOT_KEY]],
      [ForeignKey(EVENT_ID, CORPORATE_CHANGE_EVENTS, ID), ForeignKey(ORGANIZATION_ID, ORGANIZATIONS, ID)],
      CorporateChangeClaimSnapshotsIndexes(), CorporateChangeClaimSnapshotsIndexes(),
      composite := [NamedIndex(ClaimSourceRecord, [SOURCE_ID, SOURCE_RECORD_KEY])])
  }

  function CorporateChangeServiceMappingsTable(): TableSpec {
    TableSpec(
      CORPORATE_CHANGE_SERVICE_MAPPINGS,
      [ID, EVENT_ID, SERVICE_FAMILY, RATIONALE, CONFIDENCE, CREATED_AT],
      [],
      [[ID], [EVENT_ID, SERVICE_FAMILY]],
      [ForeignKey(EVENT_ID, CORPORATE_CHANGE_EVENTS, ID)],
      [EVENT_ID, SERVICE_FAMILY],
      [EVENT_ID, SERVICE_FAMILY])
  }

  /** The order in which the downgrade drops the tables. */
  const DROP_ORDER: seq<TableName> :=
    [CORPORATE_CHANGE_SERVICE_MAPPINGS, CORPORATE_CHANGE_CLAIM_SNAPSHOTS, CORPORATE_CHANGE_EVENTS]

  function CorporateChangeEventsIndexes(): seq<ColumnName> {
    [EVENT_KEY, EVENT_TYPE, STATUS, ORGANIZATION_ID, ORGANIZATION_LINK_STATUS, EVENT_AT, FIRST_PUBLISHED_AT] +
    [LAST_UPDATED_AT, OFFICIALLY_CONFIRMED, HAS_DISPUTE, HAS_CORRECTION, HAS_RETRACTION, HISTORICAL_ONLY,
     UPDATED_AT]
  }

  lemma CorporateChangeEventsIndexesOnce()
    ensures Unrepeated(CorporateChangeEventsIndexes())
  {
    UnrepeatedJoin([EVENT_KEY, EVENT_TYPE, STATUS, ORGANIZATION_ID, ORGANIZATION_LINK_STATUS, EVENT_AT,
                    FIRST_PUBLISHED_AT],
                   [LAST_UPDATED_AT, OFFICIALLY_CONFIRMED, HAS_DISPUTE, HAS_CORRECTION, HAS_RETRACTION,
                    HISTORICAL_ONLY, UPDATED_AT]);
  }

  lemma CorporateChangeEventsColumnsExist()
    ensures CorporateChangeEventsTable().ColumnsExist()
  {}

  lemma CorporateChangeEventsPlaced()
    ensures Placed(CorporateChangeEventsTable(), 5)
  {
    hide TableSpec.ColumnsExist;
    hide Unrepeated;
    CorporateChangeEventsColumnsExist();
    CorporateChangeEventsIndexesOnce();
  }

  function CorporateChangeClaimSnapshotsIndexes(): seq<ColumnName> {
    [EVENT_ID, SOURCE_ID, SOURCE_KIND, SOURCE_RECORD_KEY, ARTICLE_ID, EVENT_KEY, CLAIM_TYPE] +
    [EVENT_TYPE, CLAIMED_ORGANIZATION_NAME, ORGANIZATION_ID, ORGANIZATION_LINK_STATUS, PUBLISHED_AT,
     MODIFIED_AT, EVENT_AT] +
    [EXPIRES_AT, INDEPENDENCE_KEY, SYNDICATION_GROUP_KEY, ACTIVE, HISTORICAL_ONLY, SUPERSEDES_RECORD_KEY]
  }

  lemma CorporateChangeClaimSnapshotsIndexesOnce()
    ensures Unrepeated(CorporateChangeClaimSnapshotsIndexes())
  {
    UnrepeatedJoin([EVENT_ID, SOURCE_ID, SOURCE_KIND, SOURCE_RECORD_KEY, ARTICLE_ID, EVENT_KEY, CLAIM_TYPE],
                   [EVENT_TYPE, CLAIMED_ORGANIZATION_NAME, ORGANIZATION_ID, ORGANIZATION_LINK_STATUS,
                    PUBLISHED_AT, MODIFIED_AT, EVENT_AT]);
    UnrepeatedJoin([EVENT_ID, SOURCE_ID, SOURCE_KIND, SOURCE_RECORD_KEY, ARTICLE_ID, EVENT_KEY, CLAIM_TYPE] +
                   [EVENT_TYPE, CLAIMED_ORGANIZATION_NAME, ORGANIZATION_ID, ORGANIZATION_LINK_STATUS,
                    PUBLISHED_AT, MODIFIED_AT, EVENT_AT],
                   [EXPIRES_AT, INDEPENDENCE_KEY, SYNDICATION_GROUP_KEY, ACTIVE, HISTORICAL_ONLY,
                    SUPERSEDES_RECORD_KEY]);
  }

  lemma CorporateChangeClaimSnapshotsColumnsExist()
    ensures CorporateChangeClaimSnapshotsTable().ColumnsExist()
  {}

  lemma CorporateChangeClaimSnapshotsPlaced()
    ensures Placed(CorporateChangeClaimSnapshotsTable(), 6)
  {
    hide TableSpec.ColumnsExist;
    hide Unrepeated;
    CorporateChangeClaimSnapshotsColumnsExist();
    CorporateChangeClaimSnapshotsIndexesOnce();
  }

  lemma CorporateChangeServiceMappingsPlaced()
    ensures Placed(CorporateChangeServiceMappingsTable(), 7)
  {}

  /** The tables in the order the upgrade creates them. */
  function Tables(): seq<TableSpec> {
    [CorporateChangeEventsTable(), CorporateChangeClaimSnapshotsTable(), CorporateChangeServiceMappingsTable()]
  }

  lemma TablePlaced(i: nat)
    requires i < 3
    ensures Placed(Tables()[i], 5 + i)
  {
    hide Placed;
    match i
    case 0 => CorporateChangeEventsPlaced();
    case 1 => CorporateChangeClaimSnapshotsPlaced();
    case _ => CorporateChangeServiceMappingsPlaced();
  }
}
