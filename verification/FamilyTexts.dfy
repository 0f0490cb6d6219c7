/** The service family ids as the texts they are stored as. */
module FamilyTexts {
  import opened Names

  const FAMILIES := 24

  function LegacyText(f: FamilyId): string
    requires 0 <= f < 6
  {
    if f == STRATEGY_VCISO then "strategy_vciso"
    else if f == AUDIT_RISK_ASSESSMENT then "audit_risk_assessment"
    else if f == RED_PURPLE_TEAMING then "red_purple_teaming"
    else if f == VULNERABILITY_ATTACK_SURFACE then "vulnerability_attack_surface"
    else if f == SOC_SIEM_MDR_XDR_SOAR then "soc_siem_mdr_xdr_soar"
    else "resilience_crisis_readiness"
  }

  function LegacyTextRest(f: FamilyId): string
    requires 6 <= f < 12
  {
    if f == IAM_IGA_PAM_ZERO_TRUST then "iam_iga_pam_zero_trust"
    else if f == CLOUD_CONTAINER_SECURITY then "cloud_container_security"
    else if f == APPSEC_DEVSECOPS then "appsec_devsecops"
    else if f == NETWORK_SASE_SECURITY then "network_sase_security"
    else if f == DATA_PROTECTION then "data_protection"
    else "awareness_training"
  }

  function CanonicalText(f: FamilyId): string
    requires 12 <= f < 18
  {
    if f == SECURITY_STRATEGY_VCISO then "security_strategy_vciso"
    else if f == RISK_ASSESSMENT_AUDIT then "risk_assessment_audit"
    else if f == RED_TEAM_PURPLE_TEAM then "red_team_purple_team"
    else if f == VULNERABILITY_MANAGEMENT_ASM then "vulnerability_management_asm"
    else if f == SOC_SIEM_MDR_DETECTION then "soc_siem_mdr_detection"
    else "resilience_bcp_drp"
  }

  function CanonicalTextRest(f: FamilyId): string
    requires 18 <= f < 24
  {
    if f == IAM_PAM_ZERO_TRUST then "iam_pam_zero_trust"
    else if f == CLOUD_SECURITY then "cloud_security"
    else if f == APPLICATION_SECURITY_DEVSECOPS then "application_security_devsecops"
    else if f == NETWORK_SECURITY_SASE then "network_security_sase"
    else if f == DATA_SECURITY_PRIVACY then "data_security_privacy"
    else "security_awareness_training"
  }

  function Text(f: FamilyId): string
    requires f < FAMILIES
  {
    if f < 6 then LegacyText(f) else if f < 12 then LegacyTextRest(f)
    else if f < 18 then CanonicalText(f) else CanonicalTextRest(f)
  }

  /** The family read off a text: its length and one letter tell. */
  function Decode(s: string): nat {
    if |s| == 14 then
      (if s[0] == 's' then STRATEGY_VCISO else CLOUD_SECURITY)
    else if |s| == 15 then DATA_PROTECTION
    else if |s| == 16 then APPSEC_DEVSECOPS
    else if |s| == 18 then
      (if s[2] == 'd' then RED_PURPLE_TEAMING else if s[2] == 'a' then AWARENESS_TRAINING
       else if s[2] == 's' then RESILIENCE_BCP_DRP else IAM_PAM_ZERO_TRUST)
    else if |s| == 20 then RED_TEAM_PURPLE_TEAM
    else if |s| == 21 then
      (if s[9] == 'k' then AUDIT_RISK_ASSESSMENT else if s[9] == 'm' then SOC_SIEM_MDR_XDR_SOAR
       else if s[9] == 'a' then NETWORK_SASE_SECURITY else if s[9] == 's' then RISK_ASSESSMENT_AUDIT
       else if s[9] == 'e' then NETWORK_SECURITY_SASE else DATA_SECURITY_PRIVACY)
    else if |s| == 22 then
      (if s[0] == 'i' then IAM_IGA_PAM_ZERO_TRUST else SOC_SIEM_MDR_DETECTION)
    else if |s| == 23 then SECURITY_STRATEGY_VCISO
    else if |s| == 24 then CLOUD_CONTAINER_SECURITY
    else if |s| == 27 then
      (if s[0] == 'r' then RESILIENCE_CRISIS_READINESS else SECURITY_AWARENESS_TRAINING)
    else if |s| == 28 then
      (if s[14] == 'a' then VULNERABILITY_ATTACK_SURFACE else VULNERABILITY_MANAGEMENT_ASM)
    else if |s| == 30 then APPLICATION_SECURITY_DEVSECOPS
    else FAMILIES
  }

  lemma LegacyTextDecodes(f: FamilyId)
    requires 0 <= f < 6
    ensures Decode(LegacyText(f)) == f
  {}

  lemma LegacyTextRestDecodes(f: FamilyId)
    requires 6 <= f < 12
    ensures Decode(LegacyTextRest(f)) == f
  {}

  lemma CanonicalTextDecodes(f: FamilyId)
    requires 12 <= f < 18
    ensures Decode(CanonicalText(f)) == f
  {}

  lemma CanonicalTextRestDecodes(f: FamilyId)
    requires 18 <= f < 24
    ensures Decode(CanonicalTextRest(f)) == f
  {}

  /** Two different family ids are different texts, so a comparison of stored texts compares families. */
  lemma TextsDistinct(f: FamilyId, g: FamilyId)
    requires f < FAMILIES && g < FAMILIES && f != g
    ensures Text(f) != Text(g)
  {
    TextDecodes(f);
    TextDecodes(g);
  }

  lemma TextDecodes(f: FamilyId)
    requires f < FAMILIES
    ensures Decode(Text(f)) == f
  {
    hide Decode, LegacyText, LegacyTextRest, CanonicalText, CanonicalTextRest;
    if f < 6 { LegacyTextDecodes(f); }
    else if f < 12 { LegacyTextRestDecodes(f); }
    else if f < 18 { CanonicalTextDecodes(f); }
    else { CanonicalTextRestDecodes(f); }
  }
}
