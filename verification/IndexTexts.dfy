/** Index names as text.  Two tables may well index columns of the same name; the prefixes keep the
    texts apart. */
module IndexTexts {
  import opened Names
  import opened Positions

  /** What stands between `ix_` and the column: the table name in revision 0017, a short form later. */
  function Prefix(t: TableName): string {
    if t == VENDOR_PRODUCTS then "vendor_products"
    else if t == VENDOR_ADVISORY_REVISIONS then "vendor_advisory_revisions"
    else if t == VENDOR_ADVISORY_RANGES then "vendor_advisory_ranges"
    else if t == APPLICABILITY_ASSESSMENT_SNAPSHOTS then "applicability_assessment_snapshots"
    else if t == VULNERABILITY_APPLICABILITY_ASSESSMENTS then "vulnerability_applicability_assessments"
    else if t == CORPORATE_CHANGE_EVENTS then "change_events"
    else if t == CORPORATE_CHANGE_CLAIM_SNAPSHOTS then "change_claims"
    else if t == CORPORATE_CHANGE_SERVICE_MAPPINGS then "change_services"
    else if t == BUSINESS_RELATIONSHIPS then "biz_rel"
    else if t == RELATIONSHIP_EVIDENCE_SNAPSHOTS then "rel_ev"
    else if t == RELATIONSHIP_CONTEXTS then "rel_ctx"
    else if t == CORPORATE_GRAPH_NODES then "cg_node"
    else if t == CORPORATE_GRAPH_NODE_SNAPSHOTS then "cg_ns"
    else if t == CORPORATE_GRAPH_EDGES then "cg_edge"
    else if t == CORPORATE_GRAPH_EDGE_SNAPSHOTS then "cg_es"
    else if t == ENTITY_RESOLUTION_CANDIDATES then "er_candidate"
    else if t == ENTITY_RESOLUTION_DECISIONS then "er_decision"
    else if t == ENTITY_RESOLUTION_BINDINGS then "er_binding"
    else if t == PROFESSIONAL_PEOPLE then "pro_people"
    else if t == PROFESSIONAL_PERSON_SNAPSHOTS then "pro_ps"
    else if t == PROFESSIONAL_ROLES then "pro_role"
    else if t == PROFESSIONAL_ROLE_SNAPSHOTS then "pro_rs"
    else if t == PROFESSIONAL_REPORTING_LINES then "pro_rl"
    else if t == PROFESSIONAL_REPORTING_SNAPSHOTS then "pro_rls"
    else if t == PROFESSIONAL_CONTACTS then "pro_contact"
    else if t == PROFESSIONAL_CONTACT_SNAPSHOTS then "pro_cs"
    else if t == PROFESSIONAL_COMMUNITY_CONTEXTS then "pro_comm"
    else if t == PROFESSIONAL_COMMUNITY_SNAPSHOTS then "pro_cms"
    else if t == PROFESSIONAL_SERVICE_RELEVANCE then "pro_sr"
    else if t == PROFESSIONAL_DELETION_AUDIT then "pro_del"
    else if t == CONDITIONAL_PROVIDER_APPROVALS then "cp_approval"
    else if t == CONDITIONAL_PROVIDER_APPROVAL_REVISIONS then "cp_revision"
    else if t == CONDITIONAL_PROVIDER_RUNTIME_CONTROLS then "cp_control"
    else if t == CONDITIONAL_PROVIDER_CONTROL_DECISIONS then "cp_cd"
    else if t == CONDITIONAL_EXECUTION_DECISIONS then "cp_exec"
    else if t == RESEARCH_PLANS then "research_plan"
    else if t == RESEARCH_PLAN_REVISIONS then "research_revision"
    else if t == RESEARCH_STEPS then "research_step"
    else if t == RESEARCH_PLAN_DECISIONS then "research_pd"
    else if t == RESEARCH_STEP_DECISIONS then "research_sd"
    else if t == RESEARCH_STEP_ATTEMPTS then "research_attempt"
    else "research_result"
  }

  function At(n: string, k: nat): char { if k < |n| then n[k] else ' ' }

  /** The table an index name belongs to, read off the text after `ix_`. */
  function Decode(n: string): TableName {
    if At(n, 0) == 'v' then
      (if At(n, 1) == 'e' then
        (if At(n, 7) == 'p' then VENDOR_PRODUCTS
        else
          (if At(n, 17) == 'e' then VENDOR_ADVISORY_REVISIONS
          else VENDOR_ADVISORY_RANGES))
      else VULNERABILITY_APPLICABILITY_ASSESSMENTS)
    else if At(n, 0) == 'a' then APPLICABILITY_ASSESSMENT_SNAPSHOTS
    else if At(n, 0) == 'c' then
      (if At(n, 1) == 'h' then
        (if At(n, 7) == 'e' then CORPORATE_CHANGE_EVENTS
        else if At(n, 7) == 'c' then CORPORATE_CHANGE_CLAIM_SNAPSHOTS
        else CORPORATE_CHANGE_SERVICE_MAPPINGS)
      else if At(n, 1) == 'g' then
        (if At(n, 3) == 'n' then
          (if At(n, 4) == 'o' then CORPORATE_GRAPH_NODES
          else CORPORATE_GRAPH_NODE_SNAPSHOTS)
        else
          (if At(n, 4) == 'd' then CORPORATE_GRAPH_EDGES
          else CORPORATE_GRAPH_EDGE_SNAPSHOTS))
      else
        (if At(n, 3) == 'a' then CONDITIONAL_PROVIDER_APPROVALS
        else if At(n, 3) == 'r' then CONDITIONAL_PROVIDER_APPROVAL_REVISIONS
        else if At(n, 3) == 'c' then
          (if At(n, 4) == 'o' then CONDITIONAL_PROVIDER_RUNTIME_CONTROLS
          else CONDITIONAL_PROVIDER_CONTROL_DECISIONS)
        else CONDITIONAL_EXECUTION_DECISIONS))
    else if At(n, 0) == 'b' then BUSINESS_RELATIONSHIPS
    else if At(n, 0) == 'r' then
      (if At(n, 2) == 'l' then
        (if At(n, 4) == 'e' then RELATIONSHIP_EVIDENCE_SNAPSHOTS
        else RELATIONSHIP_CONTEXTS)
      else
        (if At(n, 9) == 'p' then
          (if At(n, 10) == 'l' then RESEARCH_PLANS
          else RESEARCH_PLAN_DECISIONS)
        else if At(n, 9) == 'r' then
          (if At(n, 11) == 'v' then RESEARCH_PLAN_REVISIONS
          else RESEARCH_RESULTS)
        else if At(n, 9) == 's' then
          (if At(n, 10) == 't' then RESEARCH_STEPS
          else RESEARCH_STEP_DECISIONS)
        else RESEARCH_STEP_ATTEMPTS))
    else if At(n, 0) == 'e' then
      (if At(n, 3) == 'c' then ENTITY_RESOLUTION_CANDIDATES
      else if At(n, 3) == 'd' then ENTITY_RESOLUTION_DECISIONS
      else ENTITY_RESOLUTION_BINDINGS)
    else
      (if At(n, 4) == 'p' then
        (if At(n, 5) == 'e' then PROFESSIONAL_PEOPLE
        else PROFESSIONAL_PERSON_SNAPSHOTS)
      else if At(n, 4) == 'r' then
        (if At(n, 5) == 'o' then PROFESSIONAL_ROLES
        else if At(n, 5) == 's' then PROFESSIONAL_ROLE_SNAPSHOTS
        else
          (if At(n, 6) == '_' then PROFESSIONAL_REPORTING_LINES
          else PROFESSIONAL_REPORTING_SNAPSHOTS))
      else if At(n, 4) == 'c' then
        (if At(n, 5) == 'o' then
          (if At(n, 6) == 'n' then PROFESSIONAL_CONTACTS
          else PROFESSIONAL_COMMUNITY_CONTEXTS)
        else if At(n, 5) == 's' then PROFESSIONAL_CONTACT_SNAPSHOTS
        else PROFESSIONAL_COMMUNITY_SNAPSHOTS)
      else if At(n, 4) == 's' then PROFESSIONAL_SERVICE_RELEVANCE
      else PROFESSIONAL_DELETION_AUDIT)
  }

  lemma DecodeFirst(t: TableName, rest: string)
    requires t < 11
    ensures Decode(Prefix(t) + "_" + rest) == t
  {}

  lemma DecodeSecond(t: TableName, rest: string)
    requires 11 <= t < 18
    ensures Decode(Prefix(t) + "_" + rest) == t
  {}

  lemma DecodeThird(t: TableName, rest: string)
    requires 18 <= t < 30
    ensures Decode(Prefix(t) + "_" + rest) == t
  {}

  lemma DecodeFourth(t: TableName, rest: string)
    requires 30 <= t < LENGTH
    ensures Decode(Prefix(t) + "_" + rest) == t
  {}

  lemma DecodePrefix(t: TableName, rest: string)
    requires t < LENGTH
    ensures Decode(Prefix(t) + "_" + rest) == t
  {
    hide Decode, Prefix;
    if t < 11 { DecodeFirst(t, rest); }
    else if t < 18 { DecodeSecond(t, rest); }
    else if t < 30 { DecodeThird(t, rest); }
    else { DecodeFourth(t, rest); }
  }

  /** An index name as it is written, for a spelling of the columns. */
  function NameText(n: IndexName, spell: ColumnName -> string): string {
    match n
    case Indexed(t, c) => "ix_" + (Prefix(t) + "_" + spell(c))
    case AdvisorySourceRecord => "ix_" + ("vendor_advisory_so" + "urce_record")
    case AssessmentsSnapshotId => "ix_" + ("vuln_" + "app_assessments_technology_snapshot_id")
    case ClaimSourceRecord => "ix_" + ("change_claim_" + "source_record")
    case Written(text) => text
  }

  ghost predicate Injective(spell: ColumnName -> string) {
    forall c, d :: spell(c) == spell(d) ==> c == d
  }

  lemma ComputedTextsDistinct(t: TableName, c: ColumnName, u: TableName, d: ColumnName, spell: ColumnName -> string)
    requires t < LENGTH && u < LENGTH && Injective(spell)
    requires NameText(Indexed(t, c), spell) == NameText(Indexed(u, d), spell)
    ensures t == u && c == d
  {
    hide Decode, Prefix;
    var a, b := Prefix(t) + "_" + spell(c), Prefix(u) + "_" + spell(d);
    assert a == ("ix_" + a)[3..] && b == ("ix_" + b)[3..];
    DecodePrefix(t, spell(c));
    DecodePrefix(u, spell(d));
    var stem := Prefix(t) + "_";
    assert spell(c) == (stem + spell(c))[|stem|..] && spell(d) == (stem + spell(d))[|stem|..];
  }

  /** A text that leaves the stem of the table it decodes to at some place is no computed index name. */
  lemma TailDistinct(tail: string, k: nat, u: TableName, d: ColumnName, spell: ColumnName -> string)
    requires u < LENGTH && Decode(tail) < LENGTH
    requires k <= |Prefix(Decode(tail))| && At(tail, k) != At(Prefix(Decode(tail)) + "_", k)
    ensures "ix_" + tail != NameText(Indexed(u, d), spell)
  {
    hide Decode, Prefix;
    var a := Prefix(u) + "_" + spell(d);
    if "ix_" + tail == "ix_" + a {
      assert tail == ("ix_" + tail)[3..] && a == ("ix_" + a)[3..];
      DecodePrefix(u, spell(d));
    }
  }

  lemma SourceRecordDistinct(u: TableName, d: ColumnName, spell: ColumnName -> string, rest: string)
    requires u < LENGTH
    ensures "ix_" + ("vendor_advisory_so" + rest) != NameText(Indexed(u, d), spell)
  {
    var tail := "vendor_advisory_so" + rest;
    assert Decode(tail) == VENDOR_ADVISORY_RANGES;
    TailDistinct(tail, 16, u, d, spell);
  }

  lemma SnapshotDistinct(u: TableName, d: ColumnName, spell: ColumnName -> string, rest: string)
    requires u < LENGTH
    ensures "ix_" + ("vuln_" + rest) != NameText(Indexed(u, d), spell)
  {
    var tail := "vuln_" + rest;
    assert Decode(tail) == VULNERABILITY_APPLICABILITY_ASSESSMENTS;
    TailDistinct(tail, 4, u, d, spell);
  }

  lemma ClaimSourceDistinct(u: TableName, d: ColumnName, spell: ColumnName -> string, rest: string)
    requires u < LENGTH
    ensures "ix_" + ("change_claim_" + rest) != NameText(Indexed(u, d), spell)
  {
    var tail := "change_claim_" + rest;
    assert Decode(tail) == CORPORATE_CHANGE_CLAIM_SNAPSHOTS;
    TailDistinct(tail, 12, u, d, spell);
  }

  lemma WrittenTextDistinct(n: IndexName, u: TableName, d: ColumnName, spell: ColumnName -> string)
    requires u < LENGTH && IndexPosition(n) < LENGTH && !n.Indexed?
    ensures NameText(n, spell) != NameText(Indexed(u, d), spell)
  {
    match n
    case AdvisorySourceRecord => SourceRecordDistinct(u, d, spell, "urce_record");
    case AssessmentsSnapshotId => SnapshotDistinct(u, d, spell, "app_assessments_technology_snapshot_id");
    case ClaimSourceRecord => ClaimSourceDistinct(u, d, spell, "source_record");
  }

  /** Different index names of the chain are written differently, however the columns are spelled. */
  lemma TextsDistinct(n: IndexName, m: IndexName, spell: ColumnName -> string)
    requires IndexPosition(n) < LENGTH && IndexPosition(m) < LENGTH && Injective(spell)
    requires NameText(n, spell) == NameText(m, spell)
    ensures n == m
  {
    if n.Indexed? && m.Indexed? {
      ComputedTextsDistinct(n.on, n.column, m.on, m.column, spell);
    } else if m.Indexed? {
      WrittenTextDistinct(n, m.on, m.column, spell);
    } else if n.Indexed? {
      WrittenTextDistinct(m, n.on, n.column, spell);
    } else {
      assert |NameText(n, spell)| == |NameText(m, spell)|;
    }
  }
}
