/** The field names of snapshot bodies, and that they tell the fields apart. */
module SnapshotNames {
  import opened Text

  datatype Key =
    | Phase | CoreReady | CanInitialize | CanConnect | Running | Egress | DnsReady | Staged | Effective | Failure
    | CatalogWindow | SmartAccess | CatalogControl | RuntimeControl | Capabilities | CoreModule | CoreVersion
    | Slipstream | Retained | DpiVersion | DpiServices | DpiAdmitted | DpiFailed | DpiWithdrawn | DpiLocal | DpiVpn
    | ProbeStage | ProbeOutcome | ErrorDomain | ErrorCode | Elapsed | FirstDns | ProbeTarget | OwnerRemaining
    | DnsAccepted | HttpLocal | ProofPending | LeaseActive

  function Name(k: Key): string {
    match k
    case Phase => "phase"
    case CoreReady => "core_ready"
    case CanInitialize => "can_initialize"
    case CanConnect => "can_connect"
    case Running => "running"
    case Egress => "core_egress_validated"
    case DnsReady => "dns_ready"
    case Staged => "staged_profile_digest"
    case Effective => "effective_profile_digest"
    case Failure => "failure"
    case CatalogWindow => "routing_catalog_window_version"
    case SmartAccess => "smart_access_lease_version"
    case CatalogControl => "routing_catalog_control_version"
    case RuntimeControl => "smart_access_runtime_control_version"
    case Capabilities => "transport_capabilities"
    case CoreModule => "core_module_sha256"
    case CoreVersion => "core_version"
    case Slipstream => "slipstream_client_ready"
    case Retained => "protection_retained"
    case DpiVersion => "windows_local_dpi_admission_version"
    case DpiServices => "windows_local_dpi_services"
    case DpiAdmitted => "windows_local_dpi_admitted"
    case DpiFailed => "windows_local_dpi_failed"
    case DpiWithdrawn => "windows_local_dpi_withdraw_completed"
    case DpiLocal => "windows_local_dpi_local_handoffs"
    case DpiVpn => "windows_local_dpi_vpn_handoffs"
    case ProbeStage => "egress_probe_stage"
    case ProbeOutcome => "egress_probe_outcome"
    case ErrorDomain => "egress_error_domain"
    case ErrorCode => "egress_error_code"
    case Elapsed => "egress_elapsed_ms"
    case FirstDns => "first_owned_dns_state"
    case ProbeTarget => "egress_probe_target"
    case OwnerRemaining => "egress_owner_remaining_ms_at_entry"
    case DnsAccepted => "egress_dns_a_accepted"
    case HttpLocal => "egress_http_local_is_tun"
    case ProofPending => "transport_proof_pending"
    case LeaseActive => "transport_lease_active"
  }

  // ----- names tell keys apart --------------------------------------------------------------

  /** The key of a name: by its size, then by comparing with one name after another. */
  function KeyOf(name: string): Key {
    if |name| <= 14 then ShortKey(name)
    else if |name| <= 19 then MiddleKey(name)
    else if |name| <= 23 then LongKey(name)
    else if |name| <= 30 then LongerKey(name)
    else LongestKey(name)
  }

  function ShortKey(name: string): Key {
    if name == "phase" then Phase
    else if name == "core_ready" then CoreReady
    else if name == "can_initialize" then CanInitialize
    else if name == "can_connect" then CanConnect
    else if name == "running" then Running
    else if name == "dns_ready" then DnsReady
    else if name == "failure" then Failure
    else CoreVersion
  }

  function MiddleKey(name: string): Key {
    if name == "core_module_sha256" then CoreModule
    else if name == "protection_retained" then Retained
    else if name == "egress_probe_stage" then ProbeStage
    else if name == "egress_error_domain" then ErrorDomain
    else if name == "egress_error_code" then ErrorCode
    else if name == "egress_elapsed_ms" then Elapsed
    else ProbeTarget
  }

  function LongKey(name: string): Key {
    if name == "core_egress_validated" then Egress
    else if name == "staged_profile_digest" then Staged
    else if name == "transport_capabilities" then Capabilities
    else if name == "slipstream_client_ready" then Slipstream
    else if name == "egress_probe_outcome" then ProbeOutcome
    else if name == "first_owned_dns_state" then FirstDns
    else if name == "egress_dns_a_accepted" then DnsAccepted
    else if name == "transport_proof_pending" then ProofPending
    else LeaseActive
  }

  function LongerKey(name: string): Key {
    if name == "effective_profile_digest" then Effective
    else if name == "routing_catalog_window_version" then CatalogWindow
    else if name == "smart_access_lease_version" then SmartAccess
    else if name == "windows_local_dpi_services" then DpiServices
    else if name == "windows_local_dpi_admitted" then DpiAdmitted
    else if name == "windows_local_dpi_failed" then DpiFailed
    else if name == "windows_local_dpi_vpn_handoffs" then DpiVpn
    else HttpLocal
  }

  function LongestKey(name: string): Key {
    if name == "routing_catalog_control_version" then CatalogControl
    else if name == "smart_access_runtime_control_version" then RuntimeControl
    else if name == "windows_local_dpi_admission_version" then DpiVersion
    else if name == "windows_local_dpi_withdraw_completed" then DpiWithdrawn
    else if name == "windows_local_dpi_local_handoffs" then DpiLocal
    else OwnerRemaining
  }

  predicate Clean(name: string) { 0 < |name| <= 36 && Without(name, ';') && Without(name, '=') }

  /** The fields every snapshot has. */
  predicate IsBase(k: Key) {
    k.Phase? || k.CoreReady? || k.CanInitialize? || k.CanConnect? || k.Running? || k.Egress? || k.DnsReady?
    || k.Staged? || k.Effective? || k.Failure? || k.CatalogWindow? || k.SmartAccess? || k.CatalogControl?
    || k.RuntimeControl? || k.Capabilities? || k.CoreModule? || k.CoreVersion? || k.Slipstream? || k.Retained?
    || k.DpiVersion?
  }

  lemma Clean1()
    ensures Clean("phase") && Clean("core_ready") && Clean("can_initialize") && Clean("can_connect") && Clean("running")
            && Clean("core_egress_validated") && Clean("dns_ready")
    ensures Clean("windows_local_dpi_admission_version")
    ensures Clean("transport_proof_pending") && Clean("transport_lease_active")
  {
  }

  lemma Clean2()
    ensures Clean("staged_profile_digest") && Clean("effective_profile_digest") && Clean("failure")
            && Clean("routing_catalog_window_version")
  {
  }

  lemma Clean3()
    ensures Clean("smart_access_lease_version") && Clean("routing_catalog_control_version")
            && Clean("smart_access_runtime_control_version")
  {
  }

  lemma Clean4()
    ensures Clean("transport_capabilities") && Clean("core_module_sha256") && Clean("core_version")
            && Clean("slipstream_client_ready") && Clean("protection_retained")
    ensures Clean("windows_local_dpi_services") && Clean("windows_local_dpi_admitted")
            && Clean("windows_local_dpi_failed")
  {
  }

  lemma Clean5()
    ensures Clean("windows_local_dpi_withdraw_completed") && Clean("windows_local_dpi_local_handoffs")
  {
  }

  lemma Clean6()
    ensures Clean("windows_local_dpi_vpn_handoffs") && Clean("egress_probe_stage") && Clean("egress_probe_outcome")
            && Clean("egress_error_domain")
  {
  }

  lemma Clean7()
    ensures Clean("egress_error_code") && Clean("egress_elapsed_ms") && Clean("first_owned_dns_state")
            && Clean("egress_probe_target")
  {
  }

  lemma Clean8()
    ensures Clean("egress_owner_remaining_ms_at_entry") && Clean("egress_dns_a_accepted")
            && Clean("egress_http_local_is_tun")
  {
  }

  lemma NameClean(k: Key)
    ensures Clean(Name(k))
  {
    Clean1();
    Clean2();
    Clean3();
    Clean4();
    Clean5();
    Clean6();
    Clean7();
    Clean8();
  }

  lemma KeysBack1()
    ensures KeyOf("phase") == Phase
    ensures KeyOf("core_ready") == CoreReady
    ensures KeyOf("can_initialize") == CanInitialize
    ensures KeyOf("can_connect") == CanConnect
    ensures KeyOf("running") == Running
    ensures KeyOf("dns_ready") == DnsReady
    ensures KeyOf("failure") == Failure
    ensures KeyOf("core_version") == CoreVersion
  {
  }

  lemma KeysBack2()
    ensures KeyOf("core_module_sha256") == CoreModule
    ensures KeyOf("protection_retained") == Retained
    ensures KeyOf("egress_probe_stage") == ProbeStage
    ensures KeyOf("egress_error_domain") == ErrorDomain
    ensures KeyOf("egress_error_code") == ErrorCode
    ensures KeyOf("egress_elapsed_ms") == Elapsed
    ensures KeyOf("egress_probe_target") == ProbeTarget
  {
  }

  lemma KeysBack3()
    ensures KeyOf("core_egress_validated") == Egress
    ensures KeyOf("staged_profile_digest") == Staged
    ensures KeyOf("transport_capabilities") == Capabilities
    ensures KeyOf("slipstream_client_ready") == Slipstream
    ensures KeyOf("egress_probe_outcome") == ProbeOutcome
    ensures KeyOf("first_owned_dns_state") == FirstDns
    ensures KeyOf("egress_dns_a_accepted") == DnsAccepted
    ensures KeyOf("transport_proof_pending") == ProofPending
    ensures KeyOf("transport_lease_active") == LeaseActive
  {
  }

  lemma KeysBack4()
    ensures KeyOf("effective_profile_digest") == Effective
    ensures KeyOf("routing_catalog_window_version") == CatalogWindow
    ensures KeyOf("smart_access_lease_version") == SmartAccess
    ensures KeyOf("windows_local_dpi_services") == DpiServices
    ensures KeyOf("windows_local_dpi_admitted") == DpiAdmitted
    ensures KeyOf("windows_local_dpi_failed") == DpiFailed
    ensures KeyOf("windows_local_dpi_vpn_handoffs") == DpiVpn
    ensures KeyOf("egress_http_local_is_tun") == HttpLocal
  {
  }

  lemma KeysBack5()
    ensures KeyOf("routing_catalog_control_version") == CatalogControl
    ensures KeyOf("smart_access_runtime_control_version") == RuntimeControl
    ensures KeyOf("windows_local_dpi_admission_version") == DpiVersion
    ensures KeyOf("windows_local_dpi_withdraw_completed") == DpiWithdrawn
    ensures KeyOf("windows_local_dpi_local_handoffs") == DpiLocal
    ensures KeyOf("egress_owner_remaining_ms_at_entry") == OwnerRemaining
  {
  }

  lemma BaseNameKey(k: Key)
    requires IsBase(k)
    ensures KeyOf(Name(k)) == k
  {
    KeysBack1();
    KeysBack2();
    KeysBack3();
    KeysBack4();
    KeysBack5();
  }

  lemma BlockNameKey(k: Key)
    requires !IsBase(k)
    ensures KeyOf(Name(k)) == k
  {
    KeysBack2();
    KeysBack3();
    KeysBack4();
    KeysBack5();
  }

  lemma NameKey(k: Key)
    ensures KeyOf(Name(k)) == k
  {
    if IsBase(k) { BaseNameKey(k); } else { BlockNameKey(k); }
  }

  lemma NameInjective(a: Key, b: Key)
    requires Name(a) == Name(b)
    ensures a == b
  {
    NameKey(a);
    NameKey(b);
  }
}
