/** Revision 0023: governed research. */
module Revision0023 {
  import opened Names
  import opened Schema
  import opened TableSpecs
  import opened Positions

  function ResearchPlansTable(): TableSpec {
    TableSpec(
      RESEARCH_PLANS,
      [ID, QUESTION, PURPOSE, DATA_CATEGORY, STATE, MAX_STEPS, MAX_AUTOMATED_STEPS, MAX_TOTAL_COST,
       MAX_STEP_COST, ALLOWED_SOURCE_IDS, ALLOWED_TOOL_IDS, APPROVED_STEP_KEYS, ALLOWED_HOSTS,
       ALLOWED_PATH_PREFIXES, MAX_RISK_LEVEL, CURRENT_REVISION_KEY, CREATED_AT, UPDATED_AT],
      [EXPIRES_AT],
      [[ID]],
      [],
      [PURPOSE, DATA_CATEGORY, STATE, CURRENT_REVISION_KEY, UPDATED_AT],
      [PURPOSE, DATA_CATEGORY, STATE, CURRENT_REVISION_KEY, UPDATED_AT])
  }

  function ResearchPlanRevisionsTable(): TableSpec {
    TableSpec(
      RESEARCH_PLAN_REVISIONS,
      [ID, PLAN_ID, REVISION_KEY, QUESTION, PURPOSE, DATA_CATEGORY, STATE, BUDGET, ALLOWED_SOURCE_IDS,
       ALLOWED_TOOL_IDS, APPROVED_STEP_KEYS, ALLOWED_HOSTS, ALLOWED_PATH_PREFIXES, MAX_RISK_LEVEL, ACTOR,
       CHANGE_REASON, CREATED_AT],
      [EXPIRES_AT],
      [[ID], [REVISION_KEY]],
      [ForeignKey(PLAN_ID, RESEARCH_PLANS, ID)],
      [PLAN_ID, STATE, CREATED_AT],
      [PLAN_ID, STATE, CREATED_AT])
  }

  function ResearchStepsTable(): TableSpec {
    TableSpec(
      RESEARCH_STEPS,
      [ID, PLAN_ID, STEP_KEY, SEQUENCE, SOURCE_ID, TOOL_ID, MODE, PURPOSE, DATA_CATEGORY, ESTIMATED_COST,
       RISK_LEVEL, STATE, CREATED_AT, UPDATED_AT],
      [TARGET_URL, QUERY_TEXT, INGESTION_PATH_ID],
      [[ID], [PLAN_ID, STEP_KEY], [PLAN_ID, SEQUENCE]],
      [ForeignKey(PLAN_ID, RESEARCH_PLANS, ID)],
      ResearchStepsIndexes(),
      [PLAN_ID, STEP_KEY, SEQUENCE, SOURCE_ID, TOOL_ID, MODE, STATE])
  }

  function ResearchPlanDecisionsTable(): TableSpec {
    TableSpec(
      RESEARCH_PLAN_DECISIONS,
      [ID, PLAN_ID, DECISION_KEY, DECISION_TYPE, ACTOR, REASON, PREVIOUS_STATE, RESULTING_STATE, DECIDED_AT,
       CREATED_AT],
      [],
      [[ID], [DECISION_KEY]],
      [ForeignKey(PLAN_ID, RESEARCH_PLANS, ID)],
      [PLAN_ID, DECISION_TYPE, RESULTING_STATE, DECIDED_AT],
      [PLAN_ID, DECISION_TYPE, RESULTING_STATE, DECIDED_AT])
  }

  function ResearchStepDecisionsTable(): TableSpec {
    TableSpec(
      RESEARCH_STEP_DECISIONS,
      [ID, PLAN_ID, STEP_ID, DECISION_KEY, ALLOWED, NEXT_STATE, REASONS, USAGE_SNAPSHOT, RUNTIME_SNAPSHOT,
       EVALUATED_AT, CREATED_AT],
      [],
      [[ID], [DECISION_KEY]],
      [ForeignKey(PLAN_ID, RESEARCH_PLANS, ID), ForeignKey(STEP_ID, RESEARCH_STEPS, ID)],
      [PLAN_ID, STEP_ID, ALLOWED, NEXT_STATE, EVALUATED_AT],
      [PLAN_ID, STEP_ID, ALLOWED, NEXT_STATE, EVALUATED_AT])
  }

  function ResearchStepAttemptsTable(): TableSpec {
    TableSpec(
      RESEARCH_STEP_ATTEMPTS,
      [ID, PLAN_ID, STEP_ID, ATTEMPT_KEY, MODE, STATE, ACTOR, EXTERNAL_ACTION_STARTED, STARTED_AT, CREATED_AT,
       UPDATED_AT],
      [EXTERNAL_ACTION_REFERENCE, ERROR_CODE, COMPLETED_AT],
      [[ID], [ATTEMPT_KEY]],
      [ForeignKey(PLAN_ID, RESEARCH_PLANS, ID), ForeignKey(STEP_ID, RESEARCH_STEPS, ID)],
      ResearchStepAttemptsIndexes(),
      [PLAN_ID, STEP_ID, MODE, STATE, STARTED_AT, UPDATED_AT])
  }

  function ResearchResultsTable(): TableSpec {
    TableSpec(
      RESEARCH_RESULTS,
      [ID, PLAN_ID, STEP_ID, RESULT_KEY, RESULT_TYPE, EVIDENCE_REFERENCE, PROVENANCE_REFERENCE, SOURCE_ID,
       RECORDED_BY, RECORDED_AT],
      [ATTEMPT_ID, SUMMARY],
      [[ID], [RESULT_KEY]],
      [ForeignKey(PLAN_ID, RESEARCH_PLANS, ID),
       ForeignKey(STEP_ID, RESEARCH_STEPS, ID),
       ForeignKey(ATTEMPT_ID, RESEARCH_STEP_ATTEMPTS, ID)],
      ResearchResultsIndexes(),
      [PLAN_ID, STEP_ID, ATTEMPT_ID, RESULT_TYPE, SOURCE_ID, RECORDED_AT])
  }

  /** The order in which the downgrade drops the tables. */
  const DROP_ORDER: seq<TableName> :=
    [RESEARCH_RESULTS, RESEARCH_STEP_ATTEMPTS, RESEARCH_STEP_DECISIONS, RESEARCH_PLAN_DECISIONS, RESEARCH_STEPS,
     RESEARCH_PLAN_REVISIONS, RESEARCH_PLANS]

  lemma ResearchPlansColumnsExist()
    ensures ResearchPlansTable().ColumnsExist()
  {}

  lemma ResearchPlansPlaced()
    ensures Placed(ResearchPlansTable(), 35)
  {
    hide TableSpec.ColumnsExist;
    ResearchPlansColumnsExist();
  }

  lemma ResearchPlanRevisionsColumnsExist()
    ensures ResearchPlanRevisionsTable().ColumnsExist()
  {}

  lemma ResearchPlanRevisionsPlaced()
    ensures Placed(ResearchPlanRevisionsTable(), 36)
  {
    hide TableSpec.ColumnsExist;
    ResearchPlanRevisionsColumnsExist();
  }

  function ResearchStepsIndexes(): seq<ColumnName> {
    [PLAN_ID, STEP_KEY, SEQUENCE, SOURCE_ID, TOOL_ID, MODE, STATE]
  }

  lemma ResearchStepsIndexesOnce()
    ensures Unrepeated(ResearchStepsIndexes())
  {}

  lemma ResearchStepsColumnsExist()
    ensures ResearchStepsTable().ColumnsExist()
  {}

  lemma ResearchStepsPlaced()
    ensures Placed(ResearchStepsTable(), 37)
  {
    hide TableSpec.ColumnsExist;
    hide Unrepeated;
    ResearchStepsColumnsExist();
    ResearchStepsIndexesOnce();
  }

  lemma ResearchPlanDecisionsPlaced()
    ensures Placed(ResearchPlanDecisionsTable(), 38)
  {}

  lemma ResearchStepDecisionsColumnsExist()
    ensures ResearchStepDecisionsTable().ColumnsExist()
  {}

  lemma ResearchStepDecisionsPlaced()
    ensures Placed(ResearchStepDecisionsTable(), 39)
  {
    hide TableSpec.ColumnsExist;
    ResearchStepDecisionsColumnsExist();
  }

  function ResearchStepAttemptsIndexes(): seq<ColumnName> {
    [PLAN_ID, STEP_ID, MODE, STATE, STARTED_AT, UPDATED_AT]
  }

  lemma ResearchStepAttemptsIndexesOnce()
    ensures Unrepeated(ResearchStepAttemptsIndexes())
  {}

  lemma ResearchStepAttemptsColumnsExist()
    ensures ResearchStepAttemptsTable().ColumnsExist()
  {}

  lemma ResearchStepAttemptsPlaced()
    ensures Placed(ResearchStepAttemptsTable(), 40)
  {
    hide TableSpec.ColumnsExist;
    hide Unrepeated;
    ResearchStepAttemptsColumnsExist();
    ResearchStepAttemptsIndexesOnce();
  }

  function ResearchResultsIndexes(): seq<ColumnName> {
    [PLAN_ID, STEP_ID, ATTEMPT_ID, RESULT_TYPE, SOURCE_ID, RECORDED_AT]
  }

  lemma ResearchResultsIndexesOnce()
    ensures Unrepeated(ResearchResultsIndexes())
  {}

  lemma ResearchResultsColumnsExist()
    ensures ResearchResultsTable().ColumnsExist()
  {}

  lemma ResearchResultsPlaced()
    ensures Placed(ResearchResultsTable(), 41)
  {
    hide TableSpec.ColumnsExist;
    hide Unrepeated;
    ResearchResultsColumnsExist();
    ResearchResultsIndexesOnce();
  }

  /** The tables in the order the upgrade creates them. */
  function Tables(): seq<TableSpec> {
    [ResearchPlansTable(), ResearchPlanRevisionsTable(), ResearchStepsTable(), ResearchPlanDecisionsTable(),
     ResearchStepDecisionsTable(), ResearchStepAttemptsTable(), ResearchResultsTable()]
  }

  lemma TablePlaced(i: nat)
    requires i < 7
    ensures Placed(Tables()[i], 35 + i)
  {
    hide Placed;
    match i
    case 0 => ResearchPlansPlaced();
    case 1 => ResearchPlanRevisionsPlaced();
    case 2 => ResearchStepsPlaced();
    case 3 => ResearchPlanDecisionsPlaced();
    case 4 => ResearchStepDecisionsPlaced();
    case 5 => ResearchStepAttemptsPlaced();
    case _ => ResearchResultsPlaced();
  }
}
