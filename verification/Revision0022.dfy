/** Revision 0022: conditional provider approvals. */
module Revision0022 {
  import opened Names
  import opened Schema
  import opened TableSpecs
  import opened Positions

  function ConditionalProviderApprovalsTable(): TableSpec {
    TableSpec(
      CONDITIONAL_PROVIDER_APPROVALS,
      [ID, SOURCE_ID, PROVIDER_KIND, ACCESS_METHOD, STATE, TERMS_STATE, APPROVED_SCOPES, APPROVED_FIELDS,
       APPROVED_PURPOSES, APPROVED_DATA_CATEGORIES, AUTOMATED_COLLECTION_ALLOWED, CURRENT_REVISION_KEY,
       CREATED_AT, UPDATED_AT],
      [AUTHORIZATION_DOCUMENT_REFERENCE, LICENCE_REFERENCE, TERMS_REFERENCE, RETENTION_DAYS, ACCOUNT_REFERENCE,
       REVIEWED_AT, REVIEW_DUE_AT, EXPIRES_AT, REVOKED_AT, PAUSED_REASON],
      [[ID], [SOURCE_ID]],
      [],
      ConditionalProviderApprovalsIndexes(),
      [SOURCE_ID, PROVIDER_KIND, ACCESS_METHOD, STATE, TERMS_STATE, CURRENT_REVISION_KEY])
  }

  function ConditionalProviderApprovalRevisionsTable(): TableSpec {
    TableSpec(
      CONDITIONAL_PROVIDER_APPROVAL_REVISIONS,
      [ID, APPROVAL_ID, REVISION_KEY, SOURCE_ID, PROVIDER_KIND, ACCESS_METHOD, STATE, TERMS_STATE,
       APPROVED_SCOPES, APPROVED_FIELDS, APPROVED_PURPOSES, APPROVED_DATA_CATEGORIES,
       AUTOMATED_COLLECTION_ALLOWED, ACTOR, CHANGE_REASON, CREATED_AT],
      [AUTHORIZATION_DOCUMENT_REFERENCE, LICENCE_REFERENCE, TERMS_REFERENCE, RETENTION_DAYS, ACCOUNT_REFERENCE,
       REVIEWED_AT, REVIEW_DUE_AT, EXPIRES_AT, REVOKED_AT, PAUSED_REASON],
      [[ID], [REVISION_KEY]],
      [ForeignKey(APPROVAL_ID, CONDITIONAL_PROVIDER_APPROVALS, ID)],
      ConditionalProviderApprovalRevisionsIndexes(),
      [APPROVAL_ID, SOURCE_ID, PROVIDER_KIND, ACCESS_METHOD, STATE, TERMS_STATE, CREATED_AT])
  }

  function ConditionalProviderRuntimeControlsTable(): TableSpec {
    TableSpec(
      CONDITIONAL_PROVIDER_RUNTIME_CONTROLS,
      [ID, APPROVAL_ID, SOURCE_ID, PAUSED, KILL_SWITCH_ACTIVE, UPDATED_AT],
      [PAUSED_REASON],
      [[ID], [APPROVAL_ID], [SOURCE_ID]],
      [ForeignKey(APPROVAL_ID, CONDITIONAL_PROVIDER_APPROVALS, ID)],
      [SOURCE_ID, PAUSED, KILL_SWITCH_ACTIVE, UPDATED_AT],
      [SOURCE_ID, PAUSED, KILL_SWITCH_ACTIVE, UPDATED_AT])
  }

  function ConditionalProviderControlDecisionsTable(): TableSpec {
    TableSpec(
      CONDITIONAL_PROVIDER_CONTROL_DECISIONS,
      [ID, CONTROL_ID, DECISION_KEY, SOURCE_ID, ACTION, ACTOR, REASON, RESULTING_PAUSED,
       RESULTING_KILL_SWITCH_ACTIVE, DECIDED_AT, CREATED_AT],
      [],
      [[ID], [DECISION_KEY]],
      [ForeignKey(CONTROL_ID, CONDITIONAL_PROVIDER_RUNTIME_CONTROLS, ID)],
      [CONTROL_ID, SOURCE_ID, ACTION, DECIDED_AT],
      [CONTROL_ID, SOURCE_ID, ACTION, DECIDED_AT])
  }

  function ConditionalExecutionDecisionsTable(): TableSpec {
    TableSpec(
      CONDITIONAL_EXECUTION_DECISIONS,
      [ID, APPROVAL_ID, DECISION_KEY, SOURCE_ID, ACCESS_METHOD, PURPOSE, DATA_CATEGORY, TARGET_URL,
       REQUESTED_SCOPES, REQUESTED_FIELDS, RETENTION_DAYS, AUTOMATED, STORE_RAW_CONTENT, ONBOARDING_STATE,
       SOURCE_POLICY_ALLOWED, SOURCE_PORTFOLIO_ALLOWED, ADAPTER_CAPABILITY_PRESENT, PROVIDER_PAUSED,
       KILL_SWITCH_ACTIVE, MONTHLY_COST_USED, ALLOWED, REASONS, EVALUATED_AT, CREATED_AT],
      [ACCOUNT_REFERENCE, QUOTA_REMAINING, MONTHLY_COST_LIMIT],
      [[ID], [DECISION_KEY]],
      [ForeignKey(APPROVAL_ID, CONDITIONAL_PROVIDER_APPROVALS, ID)],
      ConditionalExecutionDecisionsIndexes(),
      [APPROVAL_ID, SOURCE_ID, ACCESS_METHOD, PURPOSE, DATA_CATEGORY, ONBOARDING_STATE, ALLOWED, EVALUATED_AT])
  }

  /** The order in which the downgrade drops the tables. */
  const DROP_ORDER: seq<TableName> :=
    [CONDITIONAL_EXECUTION_DECISIONS, CONDITIONAL_PROVIDER_CONTROL_DECISIONS,
     CONDITIONAL_PROVIDER_RUNTIME_CONTROLS, CONDITIONAL_PROVIDER_APPROVAL_REVISIONS,
     CONDITIONAL_PROVIDER_APPROVALS]

  function ConditionalProviderApprovalsIndexes(): seq<ColumnName> {
    [SOURCE_ID, PROVIDER_KIND, ACCESS_METHOD, STATE, TERMS_STATE, CURRENT_REVISION_KEY]
  }

  lemma ConditionalProviderApprovalsIndexesOnce()
    ensures Unrepeated(ConditionalProviderApprovalsIndexes())
  {}

  lemma ConditionalProviderApprovalsColumnsExist()
    ensures ConditionalProviderApprovalsTable().ColumnsExist()
  {}

  lemma ConditionalProviderApprovalsPlaced()
    ensures Placed(ConditionalProviderApprovalsTable(), 30)
  {
    hide TableSpec.ColumnsExist;
    hide Unrepeated;
    ConditionalProviderApprovalsColumnsExist();
    ConditionalProviderApprovalsIndexesOnce();
  }

  function ConditionalProviderApprovalRevisionsIndexes(): seq<ColumnName> {
    [APPROVAL_ID, SOURCE_ID, PROVIDER_KIND, ACCESS_METHOD, STATE, TERMS_STATE, CREATED_AT]
  }

  lemma ConditionalProviderApprovalRevisionsIndexesOnce()
    ensures Unrepeated(ConditionalProviderApprovalRevisionsIndexes())
  {}

  lemma ConditionalProviderApprovalRevisionsColumnsExist()
    ensures ConditionalProviderApprovalRevisionsTable().ColumnsExist()
  {}

  lemma ConditionalProviderApprovalRevisionsPlaced()
    ensures Placed(ConditionalProviderApprovalRevisionsTable(), 31)
  {
    hide TableSpec.ColumnsExist;
    hide Unrepeated;
    ConditionalProviderApprovalRevisionsColumnsExist();
    ConditionalProviderApprovalRevisionsIndexesOnce();
  }

  lemma ConditionalProviderRuntimeControlsPlaced()
    ensures Placed(ConditionalProviderRuntimeControlsTable(), 32)
  {}

  lemma ConditionalProviderControlDecisionsColumnsExist()
    ensures ConditionalProviderControlDecisionsTable().ColumnsExist()
  {}

  lemma ConditionalProviderControlDecisionsPlaced()
    ensures Placed(ConditionalProviderControlDecisionsTable(), 33)
  {
    hide TableSpec.ColumnsExist;
    ConditionalProviderControlDecisionsColumnsExist();
  }

  function ConditionalExecutionDecisionsIndexes(): seq<ColumnName> {
    [APPROVAL_ID, SOURCE_ID, ACCESS_METHOD, PURPOSE, DATA_CATEGORY, ONBOARDING_STATE, ALLOWED, EVALUATED_AT]
  }

  lemma ConditionalExecutionDecisionsIndexesOnce()
    ensures Unrepeated(ConditionalExecutionDecisionsIndexes())
  {}

  lemma ConditionalExecutionDecisionsColumnsExist()
    ensures ConditionalExecutionDecisionsTable().ColumnsExist()
  {}

  lemma ConditionalExecutionDecisionsPlaced()
    ensures Placed(ConditionalExecutionDecisionsTable(), 34)
  {
    hide TableSpec.ColumnsExist;
    hide Unrepeated;
    ConditionalExecutionDecisionsColumnsExist();
    ConditionalExecutionDecisionsIndexesOnce();
  }

  /** The tables in the order the upgrade creates them. */
  function Tables(): seq<TableSpec> {
    [ConditionalProviderApprovalsTable(), ConditionalProviderApprovalRevisionsTable(),
     ConditionalProviderRuntimeControlsTable(), ConditionalProviderControlDecisionsTable(),
     ConditionalExecutionDecisionsTable()]
  }

  lemma TablePlaced(i: nat)
    requires i < 5
    ensures Placed(Tables()[i], 30 + i)
  {
    hide Placed;
    match i
    case 0 => ConditionalProviderApprovalsPlaced();
    case 1 => ConditionalProviderApprovalRevisionsPlaced();
    case 2 => ConditionalProviderRuntimeControlsPlaced();
    case 3 => ConditionalProviderControlDecisionsPlaced();
    case _ => ConditionalExecutionDecisionsPlaced();
  }
}
