/** Revision 0017: vendor advisories and vulnerability applicability. */
module Revision0017 {
  import opened Names
  import opened Schema
  import opened TableSpecs
  import opened Positions

  function VendorProductsTable(): TableSpec {
    TableSpec(
      VENDOR_PRODUCTS,
      [ID, PRODUCT_KEY, VENDOR, PRODUCT, IDENTIFIERS, SUPPORT_STATUS, CREATED_AT, UPDATED_AT],
      [COMPONENT, EDITION, ECOSYSTEM, PLATFORM, END_OF_SUPPORT_AT],
      [[ID], [PRODUCT_KEY]],
      [],
      VendorProductsIndexes(), VendorProductsIndexes())
  }

  function VendorAdvisoryRevisionsTable(): TableSpec {
    TableSpec(
      VENDOR_ADVISORY_REVISIONS,
      [ID, REVISION_KEY, SOURCE_ID, SOURCE_RECORD_KEY, ADVISORY_ID, SOURCE_URL, STATE, PUBLISHED_AT,
       MODIFIED_AT, VULNERABILITIES_COLUMN, FIXED_VERSIONS, WORKAROUNDS, METADATA_ONLY,
       ACTIVE_VALIDATION_PERFORMED, EXPOSURE_VERIFIED, CREATED_AT],
      [TITLE, SUPERSEDES_RECORD_KEY],
      [[ID], [REVISION_KEY]],
      [],
      [SOURCE_ID, SOURCE_RECORD_KEY, ADVISORY_ID, STATE, PUBLISHED_AT, MODIFIED_AT, SUPERSEDES_RECORD_KEY],
      [SOURCE_ID, SOURCE_RECORD_KEY, ADVISORY_ID, STATE, PUBLISHED_AT, MODIFIED_AT, SUPERSEDES_RECORD_KEY],
      composite := [NamedIndex(AdvisorySourceRecord, [SOURCE_ID, SOURCE_RECORD_KEY])])
  }

  function VendorAdvisoryRangesTable(): TableSpec {
    TableSpec(
      VENDOR_ADVISORY_RANGES,
      [ID, REVISION_ID, PRODUCT_ID, RANGE_KEY, SCHEME, BOUNDARIES, VULNERABLE, BACKPORTED_FIX, PRECISION,
       CREATED_AT],
      [BRANCH],
      [[ID], [REVISION_ID, RANGE_KEY]],
      [ForeignKey(REVISION_ID, VENDOR_ADVISORY_REVISIONS, ID), ForeignKey(PRODUCT_ID, VENDOR_PRODUCTS, ID)],
      [REVISION_ID, PRODUCT_ID, SCHEME, VULNERABLE, BACKPORTED_FIX, BRANCH, PRECISION],
      [REVISION_ID, PRODUCT_ID, SCHEME, VULNERABLE, BACKPORTED_FIX, BRANCH, PRECISION])
  }

  function ApplicabilityAssessmentSnapshotsTable(): TableSpec {
    TableSpec(
      APPLICABILITY_ASSESSMENT_SNAPSHOTS,
      [ID, SNAPSHOT_KEY, IDENTITY_KEY, ORGANIZATION_ID, ASSET_ID, VULNERABILITY_ID, ADVISORY_REVISION_ID,
       TECHNOLOGY_SNAPSHOT_ID, STATE, PRECISION, CONFIDENCE, REASON, ASSESSED_AT, ACTIVE_VALIDATION_PERFORMED,
       EXPOSURE_VERIFIED, CREATED_AT],
      [OBSERVED_VERSION, MATCHED_PRODUCT_KEY, MATCHED_RANGE],
      [[ID], [SNAPSHOT_KEY]],
      [ForeignKey(ORGANIZATION_ID, ORGANIZATIONS, ID),
       ForeignKey(ASSET_ID, PASSIVE_ASSETS, ID),
       ForeignKey(VULNERABILITY_ID, VULNERABILITIES, ID),
       ForeignKey(ADVISORY_REVISION_ID, VENDOR_ADVISORY_REVISIONS, ID),
       ForeignKey(TECHNOLOGY_SNAPSHOT_ID, PASSIVE_OBSERVATION_SNAPSHOTS, ID)],
      ApplicabilityAssessmentSnapshotsIndexes(), ApplicabilityAssessmentSnapshotsIndexes())
  }

  function VulnerabilityApplicabilityAssessmentsTable(): TableSpec {
    TableSpec(
      VULNERABILITY_APPLICABILITY_ASSESSMENTS,
      [ID, IDENTITY_KEY, LATEST_SNAPSHOT_ID, ORGANIZATION_ID, ASSET_ID, VULNERABILITY_ID, ADVISORY_REVISION_ID,
       TECHNOLOGY_SNAPSHOT_ID, STATE, PRECISION, CONFIDENCE, REASON, ASSESSED_AT, ACTIVE_VALIDATION_PERFORMED,
       EXPOSURE_VERIFIED, CREATED_AT, UPDATED_AT],
      [OBSERVED_VERSION, MATCHED_PRODUCT_KEY, MATCHED_RANGE],
      [[ID], [IDENTITY_KEY]],
      [ForeignKey(ORGANIZATION_ID, ORGANIZATIONS, ID),
       ForeignKey(ASSET_ID, PASSIVE_ASSETS, ID),
       ForeignKey(VULNERABILITY_ID, VULNERABILITIES, ID),
       ForeignKey(ADVISORY_REVISION_ID, VENDOR_ADVISORY_REVISIONS, ID),
       ForeignKey(TECHNOLOGY_SNAPSHOT_ID, PASSIVE_OBSERVATION_SNAPSHOTS, ID),
       ForeignKey(LATEST_SNAPSHOT_ID, APPLICABILITY_ASSESSMENT_SNAPSHOTS, ID)],
      VulnerabilityApplicabilityAssessmentsIndexes(), VulnerabilityApplicabilityAssessmentsIndexes(),
      overrides := map[TECHNOLOGY_SNAPSHOT_ID := AssessmentsSnapshotId])
  }

  /** The order in which the downgrade drops the tables. */
  const DROP_ORDER: seq<TableName> :=
    [VULNERABILITY_APPLICABILITY_ASSESSMENTS, APPLICABILITY_ASSESSMENT_SNAPSHOTS, VENDOR_ADVISORY_RANGES,
     VENDOR_ADVISORY_REVISIONS, VENDOR_PRODUCTS]

  function VendorProductsIndexes(): seq<ColumnName> {
    [PRODUCT_KEY, VENDOR, PRODUCT, COMPONENT, EDITION, ECOSYSTEM, PLATFORM] +
    [SUPPORT_STATUS, END_OF_SUPPORT_AT, UPDATED_AT]
  }

  lemma VendorProductsIndexesOnce()
    ensures Unrepeated(VendorProductsIndexes())
  {
    UnrepeatedJoin([PRODUCT_KEY, VENDOR, PRODUCT, COMPONENT, EDITION, ECOSYSTEM, PLATFORM],
                   [SUPPORT_STATUS, END_OF_SUPPORT_AT, UPDATED_AT]);
  }

  lemma VendorProductsColumnsExist()
    ensures VendorProductsTable().ColumnsExist()
  {}

  lemma VendorProductsPlaced()
    ensures Placed(VendorProductsTable(), 0)
  {
    hide TableSpec.ColumnsExist;
    hide Unrepeated;
    VendorProductsColumnsExist();
    VendorProductsIndexesOnce();
  }

  lemma VendorAdvisoryRevisionsColumnsExist()
    ensures VendorAdvisoryRevisionsTable().ColumnsExist()
  {}

  lemma VendorAdvisoryRevisionsPlaced()
    ensures Placed(VendorAdvisoryRevisionsTable(), 1)
  {
    hide TableSpec.ColumnsExist;
    VendorAdvisoryRevisionsColumnsExist();
  }

  lemma VendorAdvisoryRangesColumnsExist()
    ensures VendorAdvisoryRangesTable().ColumnsExist()
  {}

  lemma VendorAdvisoryRangesPlaced()
    ensures Placed(VendorAdvisoryRangesTable(), 2)
  {
    hide TableSpec.ColumnsExist;
    VendorAdvisoryRangesColumnsExist();
  }

  function ApplicabilityAssessmentSnapshotsIndexes(): seq<ColumnName> {
    [IDENTITY_KEY, ORGANIZATION_ID, ASSET_ID, VULNERABILITY_ID, ADVISORY_REVISION_ID, TECHNOLOGY_SNAPSHOT_ID,
     STATE] +
    [PRECISION, ASSESSED_AT, MATCHED_PRODUCT_KEY]
  }

  lemma ApplicabilityAssessmentSnapshotsIndexesOnce()
    ensures Unrepeated(ApplicabilityAssessmentSnapshotsIndexes())
  {
    UnrepeatedJoin([IDENTITY_KEY, ORGANIZATION_ID, ASSET_ID, VULNERABILITY_ID, ADVISORY_REVISION_ID,
                    TECHNOLOGY_SNAPSHOT_ID, STATE],
                   [PRECISION, ASSESSED_AT, MATCHED_PRODUCT_KEY]);
  }

  lemma ApplicabilityAssessmentSnapshotsColumnsExist()
    ensures ApplicabilityAssessmentSnapshotsTable().ColumnsExist()
  {}

  lemma ApplicabilityAssessmentSnapshotsPlaced()
    ensures Placed(ApplicabilityAssessmentSnapshotsTable(), 3)
  {
    hide TableSpec.ColumnsExist;
    hide Unrepeated;
    ApplicabilityAssessmentSnapshotsColumnsExist();
    ApplicabilityAssessmentSnapshotsIndexesOnce();
  }

  function VulnerabilityApplicabilityAssessmentsIndexes(): seq<ColumnName> {
    [IDENTITY_KEY, LATEST_SNAPSHOT_ID, ORGANIZATION_ID, ASSET_ID, VULNERABILITY_ID, ADVISORY_REVISION_ID,
     TECHNOLOGY_SNAPSHOT_ID] +
    [STATE, PRECISION, ASSESSED_AT, MATCHED_PRODUCT_KEY, UPDATED_AT]
  }

  lemma VulnerabilityApplicabilityAssessmentsIndexesOnce()
    ensures Unrepeated(VulnerabilityApplicabilityAssessmentsIndexes())
  {
    UnrepeatedJoin([IDENTITY_KEY, LATEST_SNAPSHOT_ID, ORGANIZATION_ID, ASSET_ID, VULNERABILITY_ID,
                    ADVISORY_REVISION_ID, TECHNOLOGY_SNAPSHOT_ID],
                   [STATE, PRECISION, ASSESSED_AT, MATCHED_PRODUCT_KEY, UPDATED_AT]);
  }

  lemma VulnerabilityApplicabilityAssessmentsColumnsExist()
    ensures VulnerabilityApplicabilityAssessmentsTable().ColumnsExist()
  {}

  lemma VulnerabilityApplicabilityAssessmentsPlaced()
    ensures Placed(VulnerabilityApplicabilityAssessmentsTable(), 4)
  {
    hide TableSpec.ColumnsExist;
    hide Unrepeated;
    VulnerabilityApplicabilityAssessmentsColumnsExist();
    VulnerabilityApplicabilityAssessmentsIndexesOnce();
  }

  /** The tables in the order the upgrade creates them. */
  function Tables(): seq<TableSpec> {
    [VendorProductsTable(), VendorAdvisoryRevisionsTable(), VendorAdvisoryRangesTable(),
     ApplicabilityAssessmentSnapshotsTable(), VulnerabilityApplicabilityAssessmentsTable()]
  }

  lemma TablePlaced(i: nat)
    requires i < 5
    ensures Placed(Tables()[i], i)
  {
    hide Placed;
    match i
    case 0 => VendorProductsPlaced();
    case 1 => VendorAdvisoryRevisionsPlaced();
    case 2 => VendorAdvisoryRangesPlaced();
    case 3 => ApplicabilityAssessmentSnapshotsPlaced();
    case _ => VulnerabilityApplicabilityAssessmentsPlaced();
  }
}
