/**
 The failure codes: those the client lists, and those the service sets. They differ
 in one code, so a snapshot that carries it is refused.
 */
module FailureCodes {
  import opened Text

  // ----- the client's list ----------------------------------------------------------------------

  const LISTED1: seq<string> := [
    "none", "core_not_initialized", "core_missing", "runtime_directory_failed", "core_load_failed",
    "core_abi_incompatible", "core_capabilities_incompatible", "local_dpi_withdraw_failed"]
  const LISTED2: seq<string> := [
    "local_dpi_catalog_expired", "local_dpi_owner_changed", "telegram_ws_withdraw_failed", "runtime_path_invalid",
    "core_setup_failed", "profile_request_invalid", "profile_payload_invalid", "profile_write_failed"]
  const LISTED3: seq<string> := [
    "profile_security_failed", "runtime_running", "profile_not_staged", "profile_identity_failed",
    "profile_identity_mismatch", "core_identity_mismatch", "connect_deadline", "core_start_failed"]
  const LISTED4: seq<string> := [
    "core_egress_probe_failed", "core_egress_probe_unavailable", "core_smart_access_lease_expired",
    "invalid_runtime_control", "invalid_smart_access_runtime_control", "bound_runtime_control_capability_required",
    "smart_access_runtime_control_unsupported", "smart_access_profile_changed"]
  const LISTED5: seq<string> := [
    "smart_access_runtime_control_unconfirmed", "protected_handoff_unavailable", "transition_guard_failed",
    "transition_guard_active", "core_egress_dns_failed", "core_egress_connect_failed", "core_egress_tls_failed",
    "core_egress_tls_timeout"]
  const LISTED6: seq<string> := [
    "core_egress_response_timeout", "core_egress_timeout", "deadline_exceeded", "operation_cancelled",
    "network_context_unavailable", "connect_owner_changed", "runtime_busy", "core_stop_failed"]
  const LISTED7: seq<string> := [
    "recovery_unavailable", "recovery_journal_invalid", "recovery_required", "recovery_generation_failed",
    "recovery_stage_invalid", "recovery_write_failed", "recovery_core_stop_failed", "recovery_network_unavailable"]
  const LISTED8: seq<string> := [
    "recovery_network_capture_failed", "recovery_network_snapshot_invalid", "recovery_network_snapshot_too_large",
    "recovery_network_owner_ambiguous", "recovery_network_owner_missing", "recovery_network_restore_failed",
    "runtime_failure"]
  const CODES: seq<string> := LISTED1 + LISTED2 + LISTED3 + LISTED4 + LISTED5 + LISTED6 + LISTED7 + LISTED8

  // ----- the codes the service sets, by where they are set ---------------------------------------

  const RUNTIME1: seq<string> := [
    "core_not_initialized", "core_missing", "runtime_directory_failed", "core_load_failed", "core_abi_incompatible",
    "core_capabilities_incompatible", "local_dpi_withdraw_failed", "local_dpi_catalog_expired"]
  const RUNTIME2: seq<string> := [
    "local_dpi_owner_changed", "telegram_ws_withdraw_failed", "runtime_path_invalid", "core_setup_failed",
    "profile_request_invalid", "profile_payload_invalid", "profile_write_failed", "profile_security_failed"]
  const RUNTIME3: seq<string> := [
    "runtime_running", "profile_not_staged", "profile_identity_failed", "profile_identity_mismatch",
    "core_identity_mismatch", "core_start_failed", "core_smart_access_lease_expired",
    "invalid_smart_access_runtime_control"]
  const RUNTIME4: seq<string> := [
    "smart_access_runtime_control_unsupported", "smart_access_profile_changed",
    "smart_access_runtime_control_unconfirmed", "protected_handoff_unavailable", "transition_guard_failed",
    "transition_guard_active", "core_stop_failed", "recovery_unavailable"]
  const RUNTIME5: seq<string> := [
    "recovery_core_stop_failed", "runtime_failure"]
  const RECOVERY: seq<string> := [
    "recovery_journal_invalid", "recovery_required", "recovery_generation_failed", "recovery_stage_invalid",
    "recovery_write_failed", "recovery_network_unavailable", "recovery_network_snapshot_invalid"]
  const NETWORK: seq<string> := [
    "recovery_network_capture_failed", "recovery_network_snapshot_too_large", "recovery_network_owner_ambiguous",
    "recovery_network_owner_missing", "recovery_network_restore_failed"]
  const EGRESS: seq<string> := [
    "core_egress_probe_failed", "core_egress_probe_unavailable", "core_egress_dns_failed",
    "core_egress_connect_failed", "core_egress_tls_failed", "core_egress_tls_timeout",
    "core_egress_response_timeout", "core_egress_timeout"]
  const DISPATCHER: seq<string> := [
    "connect_deadline", "invalid_runtime_control", "deadline_exceeded", "operation_cancelled",
    "network_context_unavailable", "connect_owner_changed", "runtime_busy",
    "bound_runtime_control_capability_required"]
  const UNLISTED := "core_event_context_failed"
  const SERVICE: seq<string> := RUNTIME1 + RUNTIME2 + RUNTIME3 + RUNTIME4 + RUNTIME5 + RECOVERY + NETWORK + EGRESS
      + DISPATCHER + [UNLISTED]

  /** A code as the client reads it, and not the one it does not know. */
  predicate IsPlain(c: string) { 0 < |c| <= 50 && Without(c, ';') }
  predicate IsKnown(c: string) { IsPlain(c) && c != UNLISTED }
  predicate AllKnown(codes: seq<string>) { forall i :: 0 <= i < |codes| ==> IsKnown(codes[i]) }

  lemma LongPlain()
    ensures Without("bound_runtime_control_capability_required", ';')
            && Without("smart_access_runtime_control_unsupported", ';')
    ensures Without("smart_access_runtime_control_unconfirmed", ';')
  {
  }

  lemma Known1()
    ensures AllKnown(LISTED1)
  {
  }

  lemma Known2()
    ensures AllKnown(LISTED2)
  {
  }

  lemma Known3()
    ensures AllKnown(LISTED3)
  {
  }

  lemma Known45()
    ensures AllKnown(LISTED4) && AllKnown(LISTED5)
  {
    LongPlain();
  }

  lemma Known6()
    ensures AllKnown(LISTED6)
  {
  }

  lemma Known7()
    ensures AllKnown(LISTED7)
  {
  }

  lemma Known8()
    ensures AllKnown(LISTED8)
  {
  }

  // ----- the one difference -----------------------------------------------------------------------

  lemma Concat(a: seq<string>, b: seq<string>)
    requires AllKnown(a) && AllKnown(b)
    ensures AllKnown(a + b)
  {
  }

  lemma CodesKnown()
    ensures AllKnown(CODES)
  {
    Known1();
    Known2();
    Known3();
    Known45();
    Known6();
    Known7();
    Known8();
    Concat(LISTED1, LISTED2);
    Concat(LISTED1 + LISTED2, LISTED3);
    Concat(LISTED1 + LISTED2 + LISTED3, LISTED4);
    Concat(LISTED1 + LISTED2 + LISTED3 + LISTED4, LISTED5);
    Concat(LISTED1 + LISTED2 + LISTED3 + LISTED4 + LISTED5, LISTED6);
    Concat(LISTED1 + LISTED2 + LISTED3 + LISTED4 + LISTED5 + LISTED6, LISTED7);
    Concat(LISTED1 + LISTED2 + LISTED3 + LISTED4 + LISTED5 + LISTED6 + LISTED7, LISTED8);
  }

  /** Every code the service sets is listed by the client, but for one. */
  lemma ServiceCodes(c: string)
    requires c in SERVICE
    ensures IsPlain(c) && (c in CODES <==> c != UNLISTED)
  {
    CodesKnown();
    if c != UNLISTED { ServiceListed(c); }
  }

  lemma ServiceListed(c: string)
    requires c in SERVICE && c != UNLISTED
    ensures c in CODES
  {
  }

  lemma SnapshotDefaults()
    ensures "none" in CODES && "transition_guard_active" in CODES
  {
    assert LISTED1[0] == "none";
  }
}
