/** The identifiers of the schema. */
module Names {
  /** A table is known by its number: below LENGTH those of revisions 0017 to 0023 in the order of
      creation, from LENGTH on those that older revisions created. */
  type TableName = nat

  const LENGTH := 42

  const VENDOR_PRODUCTS: TableName := 0
  const VENDOR_ADVISORY_REVISIONS: TableName := 1
  const VENDOR_ADVISORY_RANGES: TableName := 2
  const APPLICABILITY_ASSESSMENT_SNAPSHOTS: TableName := 3
  const VULNERABILITY_APPLICABILITY_ASSESSMENTS: TableName := 4
  const CORPORATE_CHANGE_EVENTS: TableName := 5
  const CORPORATE_CHANGE_CLAIM_SNAPSHOTS: TableName := 6
  const CORPORATE_CHANGE_SERVICE_MAPPINGS: TableName := 7
  const BUSINESS_RELATIONSHIPS: TableName := 8
  const RELATIONSHIP_EVIDENCE_SNAPSHOTS: TableName := 9
  const RELATIONSHIP_CONTEXTS: TableName := 10
  const CORPORATE_GRAPH_NODES: TableName := 11
  const CORPORATE_GRAPH_NODE_SNAPSHOTS: TableName := 12
  const CORPORATE_GRAPH_EDGES: TableName := 13
  const CORPORATE_GRAPH_EDGE_SNAPSHOTS: TableName := 14
  const ENTITY_RESOLUTION_CANDIDATES: TableName := 15
  const ENTITY_RESOLUTION_DECISIONS: TableName := 16
  const ENTITY_RESOLUTION_BINDINGS: TableName := 17
  const PROFESSIONAL_PEOPLE: TableName := 18
  const PROFESSIONAL_PERSON_SNAPSHOTS: TableName := 19
  const PROFESSIONAL_ROLES: TableName := 20
  const PROFESSIONAL_ROLE_SNAPSHOTS: TableName := 21
  const PROFESSIONAL_REPORTING_LINES: TableName := 22
  const PROFESSIONAL_REPORTING_SNAPSHOTS: TableName := 23
  const PROFESSIONAL_CONTACTS: TableName := 24
  const PROFESSIONAL_CONTACT_SNAPSHOTS: TableName := 25
  const PROFESSIONAL_COMMUNITY_CONTEXTS: TableName := 26
  const PROFESSIONAL_COMMUNITY_SNAPSHOTS: TableName := 27
  const PROFESSIONAL_SERVICE_RELEVANCE: TableName := 28
  const PROFESSIONAL_DELETION_AUDIT: TableName := 29
  const CONDITIONAL_PROVIDER_APPROVALS: TableName := 30
  const CONDITIONAL_PROVIDER_APPROVAL_REVISIONS: TableName := 31
  const CONDITIONAL_PROVIDER_RUNTIME_CONTROLS: TableName := 32
  const CONDITIONAL_PROVIDER_CONTROL_DECISIONS: TableName := 33
  const CONDITIONAL_EXECUTION_DECISIONS: TableName := 34
  const RESEARCH_PLANS: TableName := 35
  const RESEARCH_PLAN_REVISIONS: TableName := 36
  const RESEARCH_STEPS: TableName := 37
  const RESEARCH_PLAN_DECISIONS: TableName := 38
  const RESEARCH_STEP_DECISIONS: TableName := 39
  const RESEARCH_STEP_ATTEMPTS: TableName := 40
  const RESEARCH_RESULTS: TableName := 41

  const ORGANIZATIONS: TableName := LENGTH
  const PASSIVE_ASSETS: TableName := LENGTH + 1
  const VULNERABILITIES: TableName := LENGTH + 2
  const PASSIVE_OBSERVATION_SNAPSHOTS: TableName := LENGTH + 3
  const COMMERCIAL_SIGNALS: TableName := LENGTH + 4
  const NEED_HYPOTHESES: TableName := LENGTH + 5
  const PROCUREMENT_CONTRACTS: TableName := LENGTH + 6
  const PROCUREMENT_SERVICE_CLASSIFICATIONS: TableName := LENGTH + 7
  const EVIDENCE: TableName := LENGTH + 8

  /** A column is known by a number too; equal names are one column name, whatever the table. */
  type ColumnName = nat

  const ID: ColumnName := 0  const PRODUCT_KEY: ColumnName := 1  const VENDOR: ColumnName := 2
  const PRODUCT: ColumnName := 3  const COMPONENT: ColumnName := 4  const EDITION: ColumnName := 5
  const ECOSYSTEM: ColumnName := 6  const PLATFORM: ColumnName := 7  const IDENTIFIERS: ColumnName := 8
  const SUPPORT_STATUS: ColumnName := 9  const END_OF_SUPPORT_AT: ColumnName := 10
  const CREATED_AT: ColumnName := 11  const UPDATED_AT: ColumnName := 12  const REVISION_KEY: ColumnName := 13
  const SOURCE_ID: ColumnName := 14  const SOURCE_RECORD_KEY: ColumnName := 15
  const ADVISORY_ID: ColumnName := 16  const SOURCE_URL: ColumnName := 17  const STATE: ColumnName := 18
  const PUBLISHED_AT: ColumnName := 19  const MODIFIED_AT: ColumnName := 20
  const VULNERABILITIES_COLUMN: ColumnName := 21  const TITLE: ColumnName := 22
  const FIXED_VERSIONS: ColumnName := 23  const WORKAROUNDS: ColumnName := 24
  const SUPERSEDES_RECORD_KEY: ColumnName := 25  const METADATA_ONLY: ColumnName := 26
  const ACTIVE_VALIDATION_PERFORMED: ColumnName := 27  const EXPOSURE_VERIFIED: ColumnName := 28
  const REVISION_ID: ColumnName := 29  const PRODUCT_ID: ColumnName := 30  const RANGE_KEY: ColumnName := 31
  const SCHEME: ColumnName := 32  const BOUNDARIES: ColumnName := 33  const VULNERABLE: ColumnName := 34
  const BACKPORTED_FIX: ColumnName := 35  const BRANCH: ColumnName := 36  const PRECISION: ColumnName := 37
  const SNAPSHOT_KEY: ColumnName := 38  const IDENTITY_KEY: ColumnName := 39
  const ORGANIZATION_ID: ColumnName := 40  const ASSET_ID: ColumnName := 41
  const VULNERABILITY_ID: ColumnName := 42  const ADVISORY_REVISION_ID: ColumnName := 43
  const TECHNOLOGY_SNAPSHOT_ID: ColumnName := 44  const CONFIDENCE: ColumnName := 45
  const REASON: ColumnName := 46  const ASSESSED_AT: ColumnName := 47
  const OBSERVED_VERSION: ColumnName := 48  const MATCHED_PRODUCT_KEY: ColumnName := 49
  const MATCHED_RANGE: ColumnName := 50  const LATEST_SNAPSHOT_ID: ColumnName := 51
  const EVENT_KEY: ColumnName := 52  const EVENT_TYPE: ColumnName := 53  const EXCERPT: ColumnName := 54
  const STATUS: ColumnName := 55  const ORGANIZATION_LINK_STATUS: ColumnName := 56
  const EVENT_AT: ColumnName := 57  const FIRST_PUBLISHED_AT: ColumnName := 58
  const LAST_UPDATED_AT: ColumnName := 59  const CLAIM_COUNT: ColumnName := 60
  const INDEPENDENT_SOURCE_COUNT: ColumnName := 61  const OFFICIALLY_CONFIRMED: ColumnName := 62
  const HAS_DISPUTE: ColumnName := 63  const HAS_CORRECTION: ColumnName := 64
  const HAS_RETRACTION: ColumnName := 65  const HISTORICAL_ONLY: ColumnName := 66
  const EVENT_ID: ColumnName := 67  const SOURCE_KIND: ColumnName := 68  const ARTICLE_ID: ColumnName := 69
  const CLAIM_TYPE: ColumnName := 70  const CLAIMED_ORGANIZATION_NAME: ColumnName := 71
  const EXPIRES_AT: ColumnName := 72  const INDEPENDENCE_KEY: ColumnName := 73
  const SYNDICATION_GROUP_KEY: ColumnName := 74  const ACTIVE: ColumnName := 75
  const SERVICE_FAMILY: ColumnName := 76  const RATIONALE: ColumnName := 77
  const RELATIONSHIP_KEY: ColumnName := 78  const ROLE: ColumnName := 79
  const SOURCE_ORGANIZATION_ID: ColumnName := 80  const TARGET_ORGANIZATION_ID: ColumnName := 81
  const SOURCE_LINK_STATUS: ColumnName := 82  const TARGET_LINK_STATUS: ColumnName := 83
  const SOURCE_NAME: ColumnName := 84  const TARGET_NAME: ColumnName := 85  const VALID_FROM: ColumnName := 86
  const VALID_UNTIL: ColumnName := 87  const LAST_OBSERVED_AT: ColumnName := 88
  const EVIDENCE_COUNT: ColumnName := 89  const STRONGEST_EVIDENCE_CLASS: ColumnName := 90
  const HAS_CONTRACT_EVIDENCE: ColumnName := 91  const CONTRACT_BACKED_CURRENT: ColumnName := 92
  const NEXT_RENEWAL_AT: ColumnName := 93  const HAS_ROLE_CONFLICT: ColumnName := 94
  const RELATIONSHIP_ID: ColumnName := 95  const EVIDENCE_CLASS: ColumnName := 96
  const CLAIMED_SOURCE_ORGANIZATION_NAME: ColumnName := 97
  const CLAIMED_TARGET_ORGANIZATION_NAME: ColumnName := 98  const OBSERVED_AT: ColumnName := 99
  const CONTRACT_REFERENCE: ColumnName := 100  const PRODUCT_CONTEXT: ColumnName := 101
  const SERVICE_CONTEXT: ColumnName := 102  const RENEWAL_AT: ColumnName := 103
  const CONTEXT_TYPE: ColumnName := 104  const VALUE: ColumnName := 105  const REFERENCE: ColumnName := 106
  const NODE_KEY: ColumnName := 107  const NODE_TYPE: ColumnName := 108  const DISPLAY_NAME: ColumnName := 109
  const SOURCE_COUNT: ColumnName := 110  const CURRENT: ColumnName := 111  const SUPPRESSED: ColumnName := 112
  const FIRST_OBSERVED_AT: ColumnName := 113  const NODE_ID: ColumnName := 114
  const SOURCE_MODULE: ColumnName := 115  const SOURCE_ENTITY_TYPE: ColumnName := 116
  const SOURCE_ENTITY_ID: ColumnName := 117  const EDGE_KEY: ColumnName := 118
  const SOURCE_NODE_KEY: ColumnName := 119  const TARGET_NODE_KEY: ColumnName := 120
  const EDGE_TYPE: ColumnName := 121  const SOURCE_EVIDENCE_CLASS: ColumnName := 122
  const REVIEW_STATE: ColumnName := 123  const EDGE_ID: ColumnName := 124
  const CANDIDATE_ORGANIZATION_ID: ColumnName := 125  const METHOD: ColumnName := 126
  const SCORE: ColumnName := 127  const REASONS_JSON: ColumnName := 128
  const CONFLICTING_ORGANIZATION_IDS_JSON: ColumnName := 129  const REQUIRES_REVIEW: ColumnName := 130
  const CANDIDATE_ID: ColumnName := 131  const DECISION_TYPE: ColumnName := 132
  const ACTOR: ColumnName := 133  const REVERSES_DECISION_ID: ColumnName := 134
  const BLAST_RADIUS_FINGERPRINT: ColumnName := 135  const DECIDED_AT: ColumnName := 136
  const DECISION_ID: ColumnName := 137  const BOUND_AT: ColumnName := 138  const PERSON_KEY: ColumnName := 139
  const LAWFUL_BASIS: ColumnName := 140  const LAWFUL_BASIS_REFERENCE: ColumnName := 141
  const PROCESSING_PURPOSE: ColumnName := 142  const DELETED: ColumnName := 143
  const RETENTION_UNTIL: ColumnName := 144  const PERSON_ID: ColumnName := 145
  const PROCESSING_REVIEWED_AT: ColumnName := 146  const CLAIM_KEY: ColumnName := 147
  const ROLE_TITLE: ColumnName := 148  const TEAM_NAME: ColumnName := 149
  const EMPLOYMENT_STATE: ColumnName := 150  const ROLE_ID: ColumnName := 151
  const SUBJECT_PERSON_KEY: ColumnName := 152  const MANAGER_PERSON_KEY: ColumnName := 153
  const REPORTING_LINE_ID: ColumnName := 154  const CONTACT_KEY: ColumnName := 155
  const CHANNEL_TYPE: ColumnName := 156  const CONTACT_ID: ColumnName := 157
  const EVIDENCE_SCOPE: ColumnName := 158  const CONTEXT_KEY: ColumnName := 159
  const COMMUNITY_NAME: ColumnName := 160  const CONTEXT_VALUE: ColumnName := 161
  const ACQUISITION_MODE: ColumnName := 162  const CONTEXT_ID: ColumnName := 163
  const AUTHORIZATION_REFERENCE: ColumnName := 164  const MAPPING_KEY: ColumnName := 165
  const SOURCE_CLAIM_KEYS: ColumnName := 166  const SUBJECT_HASH: ColumnName := 167
  const CHANNEL: ColumnName := 168  const SOURCE: ColumnName := 169  const REQUESTED_AT: ColumnName := 170
  const APPLIED_AT: ColumnName := 171  const SUPPRESSION_EXPIRES_AT: ColumnName := 172
  const PROVIDER_KIND: ColumnName := 173  const ACCESS_METHOD: ColumnName := 174
  const AUTHORIZATION_DOCUMENT_REFERENCE: ColumnName := 175  const LICENCE_REFERENCE: ColumnName := 176
  const TERMS_REFERENCE: ColumnName := 177  const TERMS_STATE: ColumnName := 178
  const APPROVED_SCOPES: ColumnName := 179  const APPROVED_FIELDS: ColumnName := 180
  const APPROVED_PURPOSES: ColumnName := 181  const APPROVED_DATA_CATEGORIES: ColumnName := 182
  const RETENTION_DAYS: ColumnName := 183  const AUTOMATED_COLLECTION_ALLOWED: ColumnName := 184
  const ACCOUNT_REFERENCE: ColumnName := 185  const REVIEWED_AT: ColumnName := 186
  const REVIEW_DUE_AT: ColumnName := 187  const REVOKED_AT: ColumnName := 188
  const PAUSED_REASON: ColumnName := 189  const CURRENT_REVISION_KEY: ColumnName := 190
  const APPROVAL_ID: ColumnName := 191  const CHANGE_REASON: ColumnName := 192
  const PAUSED: ColumnName := 193  const KILL_SWITCH_ACTIVE: ColumnName := 194
  const CONTROL_ID: ColumnName := 195  const DECISION_KEY: ColumnName := 196  const ACTION: ColumnName := 197
  const RESULTING_PAUSED: ColumnName := 198  const RESULTING_KILL_SWITCH_ACTIVE: ColumnName := 199
  const PURPOSE: ColumnName := 200  const DATA_CATEGORY: ColumnName := 201
  const TARGET_URL: ColumnName := 202  const REQUESTED_SCOPES: ColumnName := 203
  const REQUESTED_FIELDS: ColumnName := 204  const AUTOMATED: ColumnName := 205
  const STORE_RAW_CONTENT: ColumnName := 206  const ONBOARDING_STATE: ColumnName := 207
  const SOURCE_POLICY_ALLOWED: ColumnName := 208  const SOURCE_PORTFOLIO_ALLOWED: ColumnName := 209
  const ADAPTER_CAPABILITY_PRESENT: ColumnName := 210  const PROVIDER_PAUSED: ColumnName := 211
  const QUOTA_REMAINING: ColumnName := 212  const MONTHLY_COST_USED: ColumnName := 213
  const MONTHLY_COST_LIMIT: ColumnName := 214  const ALLOWED: ColumnName := 215
  const REASONS: ColumnName := 216  const EVALUATED_AT: ColumnName := 217  const QUESTION: ColumnName := 218
  const MAX_STEPS: ColumnName := 219  const MAX_AUTOMATED_STEPS: ColumnName := 220
  const MAX_TOTAL_COST: ColumnName := 221  const MAX_STEP_COST: ColumnName := 222
  const ALLOWED_SOURCE_IDS: ColumnName := 223  const ALLOWED_TOOL_IDS: ColumnName := 224
  const APPROVED_STEP_KEYS: ColumnName := 225  const ALLOWED_HOSTS: ColumnName := 226
  const ALLOWED_PATH_PREFIXES: ColumnName := 227  const MAX_RISK_LEVEL: ColumnName := 228
  const PLAN_ID: ColumnName := 229  const BUDGET: ColumnName := 230  const STEP_KEY: ColumnName := 231
  const SEQUENCE: ColumnName := 232  const TOOL_ID: ColumnName := 233  const MODE: ColumnName := 234
  const ESTIMATED_COST: ColumnName := 235  const RISK_LEVEL: ColumnName := 236
  const QUERY_TEXT: ColumnName := 237  const INGESTION_PATH_ID: ColumnName := 238
  const PREVIOUS_STATE: ColumnName := 239  const RESULTING_STATE: ColumnName := 240
  const STEP_ID: ColumnName := 241  const NEXT_STATE: ColumnName := 242
  const USAGE_SNAPSHOT: ColumnName := 243  const RUNTIME_SNAPSHOT: ColumnName := 244
  const ATTEMPT_KEY: ColumnName := 245  const EXTERNAL_ACTION_STARTED: ColumnName := 246
  const EXTERNAL_ACTION_REFERENCE: ColumnName := 247  const ERROR_CODE: ColumnName := 248
  const STARTED_AT: ColumnName := 249  const COMPLETED_AT: ColumnName := 250
  const ATTEMPT_ID: ColumnName := 251  const RESULT_KEY: ColumnName := 252
  const RESULT_TYPE: ColumnName := 253  const EVIDENCE_REFERENCE: ColumnName := 254
  const PROVENANCE_REFERENCE: ColumnName := 255  const SUMMARY: ColumnName := 256
  const RECORDED_BY: ColumnName := 257  const RECORDED_AT: ColumnName := 258
  const SERVICE_FAMILIES: ColumnName := 259  const HYPOTHESIS_CLASSES: ColumnName := 260
  const CORROBORATION_GROUP_KEY: ColumnName := 261  const POLARITY: ColumnName := 262
  const IS_EXPLICIT: ColumnName := 263  const MAPPING_RULE_ID: ColumnName := 264
  const MAPPING_RULE_VERSION: ColumnName := 265  const HYPOTHESIS_CLASS: ColumnName := 266
  const URGENCY: ColumnName := 267  const HORIZON: ColumnName := 268
  const APPLICABLE_OFFERS: ColumnName := 269  const CONFLICTING_SIGNAL_IDS: ColumnName := 270
  const NEGATIVE_SIGNAL_IDS: ColumnName := 271  const SOURCE_CONTRIBUTIONS: ColumnName := 272
  const TAXONOMY_VERSION: ColumnName := 273  const CONTRACT_ID: ColumnName := 274
  const FAMILY: ColumnName := 275  const EVIDENCE_ID: ColumnName := 276
  const SIGNAL_TYPE: ColumnName := 277  const MATCHED_TERMS: ColumnName := 278
  const COLLECTED_AT: ColumnName := 279  const IDEMPOTENCY_KEY: ColumnName := 280
  const RULE_ID: ColumnName := 281  const RULE_VERSION: ColumnName := 282
  const GENERATED_AT: ColumnName := 283

  /** Service families: the legacy vocabulary, the canonical one, and from 24 on anything else. */
  type FamilyId = nat

  const STRATEGY_VCISO: FamilyId := 0  const AUDIT_RISK_ASSESSMENT: FamilyId := 1
  const RED_PURPLE_TEAMING: FamilyId := 2  const VULNERABILITY_ATTACK_SURFACE: FamilyId := 3
  const SOC_SIEM_MDR_XDR_SOAR: FamilyId := 4  const RESILIENCE_CRISIS_READINESS: FamilyId := 5
  const IAM_IGA_PAM_ZERO_TRUST: FamilyId := 6  const CLOUD_CONTAINER_SECURITY: FamilyId := 7
  const APPSEC_DEVSECOPS: FamilyId := 8  const NETWORK_SASE_SECURITY: FamilyId := 9
  const DATA_PROTECTION: FamilyId := 10  const AWARENESS_TRAINING: FamilyId := 11
  const SECURITY_STRATEGY_VCISO: FamilyId := 12  const RISK_ASSESSMENT_AUDIT: FamilyId := 13
  const RED_TEAM_PURPLE_TEAM: FamilyId := 14  const VULNERABILITY_MANAGEMENT_ASM: FamilyId := 15
  const SOC_SIEM_MDR_DETECTION: FamilyId := 16  const RESILIENCE_BCP_DRP: FamilyId := 17
  const IAM_PAM_ZERO_TRUST: FamilyId := 18  const CLOUD_SECURITY: FamilyId := 19
  const APPLICATION_SECURITY_DEVSECOPS: FamilyId := 20  const NETWORK_SECURITY_SASE: FamilyId := 21
  const DATA_SECURITY_PRIVACY: FamilyId := 22  const SECURITY_AWARENESS_TRAINING: FamilyId := 23

  /** `Indexed(t, c)` is the name computed as `ix_<prefix of t>_<c>`; the other names are written out
      in the revisions, `Written` being those outside revisions 0017 to 0023. */
  datatype IndexName =
    | Indexed(on: TableName, column: ColumnName)
    | AdvisorySourceRecord | AssessmentsSnapshotId | ClaimSourceRecord
    | Written(text: string)
}
