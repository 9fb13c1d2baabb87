/** The language of the wire: which bytes are a frame, said by what was meant rather than by how it is read. */
module WireLanguage {
  import opened Wrappers
  import opened Text
  import opened Bodies
  import opened Protocol

  // ----- commands and their codes ------------------------------------------------------------

  lemma CodesInOrder(c: Command, n: nat)
    ensures Code(c) == n <==> CommandOf(n) == Some(c)
  {
    assert CommandOf(Code(c)) == Some(c);
  }

  // ----- bodies --------------------------------------------------------------------------------

  const NUL: char := 0 as char

  ghost predicate DigestText(body: string) { exists id: string :: |id| == 32 && IsBytes(id) && body == Hex(id) }

  ghost predicate ProfileText(body: string) {
    exists config: string :: 2 <= |config| <= MAX_PROFILE - 2 && Without(config, NUL)
                             && (body == "0\n" + config || body == "1\n" + config)
  }
  ghost predicate ControlText(body: string) {
    exists digest, config: string :: DigestText(digest) && 0 < |config| <= 16384 && Without(config, NUL)
                                     && body == digest + "|" + config
  }
  ghost predicate PolicyText(body: string) {
    exists digest :: DigestText(digest) && (body == digest + ":0" || body == digest + ":1")
  }
  ghost predicate ServiceText(body: string) {
    exists digest, name :: DigestText(digest) && IsServiceName(name) && |name| <= 64 && body == digest + ":" + name
  }

  function Target(t: CancellationTarget): string { Hex(t.session) + Hex(t.nonce) }
  function Flag(terminate: bool): string { if terminate then "1" else "0" }

  predicate TargetValid(t: CancellationTarget) { !IsZero(t.session) && !IsZero(t.nonce) }
  ghost predicate TargetText(body: string) {
    exists t :: TargetValid(t) && body == Target(t)
  }
  ghost predicate BoundControlText(body: string) {
    exists target, control :: TargetText(target) && ControlText(control) && body == target + "|" + control
  }

  ghost predicate PromotionText(body: string) {
    exists p :: PromotionValid(p)
                && body == Target(p.target) + "|" + p.digest + "|" + p.lease + "|" + p.issued + "|" + p.newUntil + "|"
                           + p.activeUntil
  }
  ghost predicate RevocationText(body: string) {
    exists r :: RevocationValid(r)
                && body == Target(r.target) + "|" + r.digest + "|" + r.lease + "|" + Flag(r.terminate)
  }
  predicate AccessRevocationValid(r: AccessRevocation) { IsProfileDigest(r.digest) && IsLeaseId(r.lease) }
  ghost predicate AccessRevocationText(body: string) {
    exists r :: AccessRevocationValid(r) && body == r.digest + ":" + r.lease + ":" + Flag(r.terminate)
  }
  predicate RenewalValid(r: Renewal) {
    && IsProfileDigest(r.digest) && IsLeaseId(r.expected) && IsLeaseId(r.next) && IsTimestamp(r.issued)
    && IsTimestamp(r.newUntil) && IsTimestamp(r.activeUntil)
  }
  ghost predicate RenewalText(body: string) {
    exists r :: RenewalValid(r)
                && body == r.digest + "|" + r.expected + "|" + r.next + "|" + r.issued + "|" + r.newUntil + "|"
                           + r.activeUntil
  }
  ghost predicate BoundConnectText(body: string) {
    exists t :: BoundConnectValid(t)
                && body == t.core + "|" + t.profile + "|" + t.boot + "|" + Decimal(t.started) + "|"
                           + Decimal(t.deadline) + "|" + t.network
  }
  ghost predicate ObservationText(body: string) {
    exists o :: ObservationValid(o)
                && body == o.host + "\n" + o.token + "\n" + o.version + "\n" + o.revision + "\n" + o.phase + "\n"
                           + o.run
  }
  ghost predicate ProbeText(body: string) {
    exists p :: ProbeValid(p)
                && body == p.id + "\n" + Decimal(p.timeout) + "\n" + p.network + "\n" + p.config
  }

  /** What a request for the command carries. */
  ghost predicate Carried(c: Command, body: string) {
    match c
    case ProbeCandidate => ProbeText(body)
    case ObserveNetworkContext => ObservationText(body)
    case ConnectWithIdentity => BoundConnectText(body)
    case PromoteTransportLease => PromotionText(body)
    case RevokeTransportLease => RevocationText(body)
    case RevokeSmartAccessLease => AccessRevocationText(body)
    case RenewSmartAccessLease => RenewalText(body)
    case Cancel => TargetText(body)
    case CancelConnectAndConfirm => TargetText(body)
    case CancelCandidateProbe => TargetText(body)
    case StageProfile => ProfileText(body)
    case StageBoundProfile => ProfileText(body)
    case ReplaceManagedProfile => ProfileText(body)
    case Connect => DigestText(body)
    case RevokeRoutingCatalog => DigestText(body)
    case AcknowledgeSmartAccessRestrictions => DigestText(body)
    case ReadSmartAccessLeases => DigestText(body)
    case RevokeSmartAccessPolicy => PolicyText(body)
    case RevokeRoutingCatalogService => ServiceText(body)
    case ConfigureSmartAccessRuntimeControl => ControlText(body)
    case ConfigureSmartAccessRenewal => ControlText(body)
    case ConfigureBoundSmartAccessRuntimeControl => BoundControlText(body)
    case _ => body == ""
  }

  // ----- joined fields ---------------------------------------------------------------------------

  lemma JoinTwo(a: string, b: string, d: char)
    ensures Join([a, b], d) == a + [d] + b
  {
    assert [a, b][1..] == [b];
  }

  lemma JoinFour(a: string, b: string, c: string, e: string, d: char)
    ensures Join([a, b, c, e], d) == a + [d] + b + [d] + c + [d] + e
  {
    JoinTwo(c, e, d);
    assert [b, c, e][1..] == [c, e] && [a, b, c, e][1..] == [b, c, e];
  }

  lemma JoinThree(a: string, b: string, c: string, d: char)
    ensures Join([a, b, c], d) == a + [d] + b + [d] + c
  {
    JoinTwo(b, c, d);
    assert [a, b, c][1..] == [b, c];
  }

  lemma JoinSix(a: string, b: string, c: string, e: string, f: string, g: string, d: char)
    ensures Join([a, b, c, e, f, g], d) == a + [d] + b + [d] + c + [d] + e + [d] + f + [d] + g
  {
    JoinFour(c, e, f, g, d);
    assert [b, c, e, f, g][1..] == [c, e, f, g] && [a, b, c, e, f, g][1..] == [b, c, e, f, g];
    assert Join([b, c, e, f, g], d) == b + [d] + Join([c, e, f, g], d);
  }

  // ----- each decoder accepts exactly its language --------------------------------------------------

  lemma {:induction false} HexTotal(h: string)
    requires AllHex(h) && |h| % 2 == 0
    ensures Unhex(h).Some?
  {
    if h != "" { HexTotal(h[2..]); }
  }

  lemma DigestExact(body: string)
    ensures IsProfileDigest(body) <==> DigestText(body)
  {
    if IsProfileDigest(body) {
      HexTotal(body);
      UnhexCanonical(body);
      var id := Unhex(body).value;
      assert |id| == 32 && IsBytes(id) && body == Hex(id);
    }
    if DigestText(body) {
      var id: string :| |id| == 32 && IsBytes(id) && body == Hex(id);
      HexRoundTrip(id);
    }
  }

  lemma TargetExact(body: string)
    ensures DecodeTarget(body).Some? <==> TargetText(body)
  {
    if DecodeTarget(body).Some? {
      var t := DecodeTarget(body).value;
      TargetCanonical(body);
      TargetRoundTrip(t);
      assert TargetValid(t);
    }
    if TargetText(body) {
      var t :| TargetValid(t) && body == Target(t);
      TargetRoundTrip(t);
    }
  }

  lemma PromotionWritten(p: Promotion)
    ensures EncodePromotion(p) == if PromotionValid(p) then Target(p.target) + "|" + p.digest + "|" + p.lease + "|"
        + p.issued + "|" + p.newUntil + "|" + p.activeUntil else ""
  {
    PromotionRoundTrip(p);
    JoinSix(EncodeTarget(p.target), p.digest, p.lease, p.issued, p.newUntil, p.activeUntil, '|');
  }

  lemma PromotionExact(body: string)
    ensures DecodePromotion(body).Some? <==> PromotionText(body)
  {
    if DecodePromotion(body).Some? {
      var p := DecodePromotion(body).value;
      PromotionCanonical(body);
      PromotionWritten(p);
    }
    if PromotionText(body) {
      var p :| PromotionValid(p)
          && body == Target(p.target) + "|" + p.digest + "|" + p.lease + "|" + p.issued + "|" + p.newUntil + "|"
                     + p.activeUntil;
      PromotionWritten(p);
      PromotionRoundTrip(p);
    }
  }

  lemma RevocationWritten(r: Revocation)
    ensures EncodeRevocation(r) == if RevocationValid(r) then Target(r.target) + "|" + r.digest + "|" + r.lease + "|"
        + Flag(r.terminate) else ""
  {
    RevocationRoundTrip(r);
    JoinFour(EncodeTarget(r.target), r.digest, r.lease, Flag(r.terminate), '|');
  }

  lemma RevocationExact(body: string)
    ensures DecodeRevocation(body).Some? <==> RevocationText(body)
  {
    if DecodeRevocation(body).Some? {
      RevocationCanonical(body);
      RevocationWritten(DecodeRevocation(body).value);
    }
    if RevocationText(body) {
      var r :| RevocationValid(r)
          && body == Target(r.target) + "|" + r.digest + "|" + r.lease + "|" + Flag(r.terminate);
      RevocationWritten(r);
      RevocationRoundTrip(r);
    }
  }

  lemma AccessRevocationWritten(r: AccessRevocation)
    ensures EncodeAccessRevocation(r) == if AccessRevocationValid(r) then r.digest + ":" + r.lease + ":"
        + Flag(r.terminate) else ""
  {
    AccessRevocationRoundTrip(r);
    JoinThree(r.digest, r.lease, Flag(r.terminate), ':');
  }

  lemma AccessRevocationExact(body: string)
    ensures DecodeAccessRevocation(body).Some? <==> AccessRevocationText(body)
  {
    if DecodeAccessRevocation(body).Some? {
      AccessRevocationCanonical(body);
      AccessRevocationWritten(DecodeAccessRevocation(body).value);
    }
    if AccessRevocationText(body) {
      var r :| AccessRevocationValid(r) && body == r.digest + ":" + r.lease + ":" + Flag(r.terminate);
      AccessRevocationWritten(r);
      AccessRevocationRoundTrip(r);
    }
  }

  lemma RenewalWritten(r: Renewal)
    ensures EncodeRenewal(r) == if RenewalValid(r) then r.digest + "|" + r.expected + "|" + r.next + "|" + r.issued
        + "|" + r.newUntil + "|" + r.activeUntil else ""
  {
    RenewalRoundTrip(r);
    JoinSix(r.digest, r.expected, r.next, r.issued, r.newUntil, r.activeUntil, '|');
  }

  lemma RenewalExact(body: string)
    ensures DecodeRenewal(body).Some? <==> RenewalText(body)
  {
    if DecodeRenewal(body).Some? {
      RenewalCanonical(body);
      RenewalWritten(DecodeRenewal(body).value);
    }
    if RenewalText(body) {
      var r :| RenewalValid(r)
          && body == r.digest + "|" + r.expected + "|" + r.next + "|" + r.issued + "|" + r.newUntil + "|"
                     + r.activeUntil;
      RenewalWritten(r);
      RenewalRoundTrip(r);
    }
  }

  lemma BoundConnectWritten(t: BoundConnect)
    ensures EncodeBoundConnect(t) == if BoundConnectValid(t) then t.core + "|" + t.profile + "|" + t.boot + "|"
        + Decimal(t.started) + "|" + Decimal(t.deadline) + "|" + t.network else ""
  {
    JoinSix(t.core, t.profile, t.boot, Decimal(t.started), Decimal(t.deadline), t.network, '|');
  }

  lemma BoundConnectExact(body: string)
    ensures DecodeBoundConnect(body).Some? <==> BoundConnectText(body)
  {
    if DecodeBoundConnect(body).Some? { BoundConnectWritten(DecodeBoundConnect(body).value); }
    if BoundConnectText(body) {
      var t :| BoundConnectValid(t)
          && body == t.core + "|" + t.profile + "|" + t.boot + "|" + Decimal(t.started) + "|" + Decimal(t.deadline)
                     + "|" + t.network;
      BoundConnectWritten(t);
      BoundConnectRoundTrip(t);
    }
  }

  lemma ObservationWritten(o: Observation)
    ensures EncodeObservation(o) == if ObservationValid(o) then o.host + "\n" + o.token + "\n" + o.version + "\n"
        + o.revision + "\n" + o.phase + "\n" + o.run else ""
  {
    JoinSix(o.host, o.token, o.version, o.revision, o.phase, o.run, '\n');
  }

  lemma ObservationExact(body: string)
    ensures DecodeObservation(body).Some? <==> ObservationText(body)
  {
    if DecodeObservation(body).Some? {
      ObservationWritten(DecodeObservation(body).value);
      assert body != "";
    }
    if ObservationText(body) {
      var o :| ObservationValid(o)
          && body == o.host + "\n" + o.token + "\n" + o.version + "\n" + o.revision + "\n" + o.phase + "\n"
                     + o.run;
      ObservationWritten(o);
      ObservationRoundTrip(o);
    }
  }

  lemma ProbeWritten(p: Probe)
    ensures EncodeProbe(p) == if ProbeValid(p) then p.id + "\n" + Decimal(p.timeout) + "\n" + p.network + "\n"
        + p.config else ""
  {
    JoinFour(p.id, Decimal(p.timeout), p.network, p.config, '\n');
  }

  lemma ProbeExact(body: string)
    ensures DecodeProbe(body).Some? <==> ProbeText(body)
  {
    if DecodeProbe(body).Some? {
      ProbeWritten(DecodeProbe(body).value);
      assert body != "";
    }
    if ProbeText(body) {
      var p :| ProbeValid(p) && body == p.id + "\n" + Decimal(p.timeout) + "\n" + p.network + "\n" + p.config;
      ProbeWritten(p);
      ProbeRoundTrip(p);
    }
  }

  lemma ProfileExact(body: string)
    ensures IsBoundedProfile(body) <==> ProfileText(body)
  {
    if IsBoundedProfile(body) {
      var config := body[2..];
      assert 2 <= |config| <= MAX_PROFILE - 2 && Without(config, NUL);
      assert body == [body[0], '\n'] + config;
    }
    if ProfileText(body) {
      var config: string :| 2 <= |config| <= MAX_PROFILE - 2 && Without(config, NUL)
          && (body == "0\n" + config || body == "1\n" + config);
    }
  }

  lemma ControlExact(body: string)
    ensures IsRuntimeControl(body) <==> ControlText(body)
  {
    if IsRuntimeControl(body) {
      DigestExact(body[..64]);
      var (digest, config) := (body[..64], body[65..]);
      assert DigestText(digest) && 0 < |config| <= 16384 && Without(config, NUL) && body == digest + "|" + config;
    }
    if ControlText(body) {
      var digest, config: string :| DigestText(digest) && 0 < |config| <= 16384 && Without(config, NUL)
          && body == digest + "|" + config;
      DigestExact(digest);
      assert body[..64] == digest;
      assert forall i :: 0 <= i < 64 ==> IsHexDigit(digest[i]);
    }
  }

  lemma BoundControlExact(body: string)
    ensures IsBoundRuntimeControl(body) <==> BoundControlText(body)
  {
    if IsBoundRuntimeControl(body) {
      var (target, control) := (body[..64], body[65..]);
      TargetExact(target);
      ControlExact(control);
      assert TargetText(target) && ControlText(control) && body == target + "|" + control;
    }
    if BoundControlText(body) {
      var target, control :| TargetText(target) && ControlText(control) && body == target + "|" + control;
      TargetExact(target);
      ControlExact(control);
      assert body[..64] == target && body[65..] == control;
    }
  }

  lemma PolicyExact(body: string)
    ensures IsPolicyRevocation(body) <==> PolicyText(body)
  {
    if IsPolicyRevocation(body) {
      var digest := body[..64];
      DigestExact(digest);
      assert body == digest + [':', body[65]];
    }
    if PolicyText(body) {
      var digest :| DigestText(digest) && (body == digest + ":0" || body == digest + ":1");
      DigestExact(digest);
      assert body[..64] == digest;
    }
  }

  lemma ServiceExact(body: string)
    ensures IsServiceRevocation(body) <==> ServiceText(body)
  {
    if IsServiceRevocation(body) {
      var (digest, name) := (body[..64], body[65..]);
      DigestExact(digest);
      assert DigestText(digest) && IsServiceName(name) && |name| <= 64 && body == digest + ":" + name;
    }
    if ServiceText(body) {
      var digest, name :| DigestText(digest) && IsServiceName(name) && |name| <= 64 && body == digest + ":" + name;
      DigestExact(digest);
      assert body[..64] == digest && body[65..] == name;
    }
  }

  /** Commands about a transport or a candidate, whose body is an encoded value. */
  predicate CarriesTransport(c: Command) {
    || c.ProbeCandidate? || c.ObserveNetworkContext? || c.ConnectWithIdentity? || c.PromoteTransportLease?
    || c.RevokeTransportLease?
  }

  /** Commands that name a digest, a target or a service. */
  predicate CarriesName(c: Command) {
    || c.Cancel? || c.CancelConnectAndConfirm? || c.CancelCandidateProbe? || c.Connect? || c.RevokeRoutingCatalog?
    || c.AcknowledgeSmartAccessRestrictions? || c.ReadSmartAccessLeases? || c.RevokeSmartAccessPolicy?
    || c.RevokeRoutingCatalogService?
  }

  lemma TransportsExact(c: Command, body: string)
    requires CarriesTransport(c)
    ensures RequestBody(c, body) <==> Carried(c, body)
  {
    match c
    case ProbeCandidate => ProbeExact(body);
    case ObserveNetworkContext => ObservationExact(body);
    case ConnectWithIdentity => BoundConnectExact(body);
    case PromoteTransportLease => PromotionExact(body);
    case RevokeTransportLease => RevocationExact(body);
  }

  lemma NamesExact(c: Command, body: string)
    requires CarriesName(c)
    ensures RequestBody(c, body) <==> Carried(c, body)
  {
    match c
    case Cancel | CancelConnectAndConfirm | CancelCandidateProbe => TargetExact(body);
    case RevokeSmartAccessPolicy => PolicyExact(body);
    case RevokeRoutingCatalogService => ServiceExact(body);
    case _ => DigestExact(body);
  }

  /** A request's body is accepted exactly when it is one its command carries. */
  lemma BodiesExact(c: Command, body: string)
    ensures RequestBody(c, body) <==> Carried(c, body)
  {
    if CarriesTransport(c) {
      TransportsExact(c, body);
    } else if CarriesName(c) {
      NamesExact(c, body);
    } else {
      match c
      case RevokeSmartAccessLease => AccessRevocationExact(body);
      case RenewSmartAccessLease => RenewalExact(body);
      case StageProfile | StageBoundProfile | ReplaceManagedProfile => ProfileExact(body);
      case ConfigureSmartAccessRuntimeControl | ConfigureSmartAccessRenewal => ControlExact(body);
      case ConfigureBoundSmartAccessRuntimeControl => BoundControlExact(body);
      case _ =>
    }
  }

  // ----- frames ------------------------------------------------------------------------------------

  /** How long an answer to the command may be. */
  function Room(c: Command, body: string): nat {
    if c.ReadSmartAccessRestrictions? then 1048576
    else if c.ReadSmartAccessLeases? then 65536
    else if c.ProbeCandidate? then 2048
    else if StartsWith(body, "phase=") then 8192
    else 512
  }

  /** What the two sides may say to each other. */
  ghost predicate Sayable(c: Command, f: Frame) {
    && !IsZero(f.correlation)
    && match f.kind
       case HelloRequest =>
         && c.Hello? && f.status == 0 && f.deadline == 0 && IsZero(f.session) && IsZero(f.nonce) && f.body == ""
       case Request =>
         && !c.Hello? && f.status == 0 && f.deadline != 0 && f.capabilities == 0
         && !IsZero(f.session) && !IsZero(f.nonce) && Carried(c, f.body)
       case Response =>
         && 1 <= f.status <= 7 && f.deadline == 0 && (f.capabilities == 0 || c.Hello?)
         && !IsZero(f.session) && IsZero(f.nonce) && IsAscii(f.body) && |f.body| <= Room(c, f.body)
  }

  lemma RoomExact(c: Command, body: string)
    ensures ResponseLimit(c, body) == Room(c, body)
  {
  }

  lemma SayableExact(c: Command, f: Frame)
    ensures IsKnownStatus(f.status) && !IsZero(f.correlation) && IsValidFor(f, c) <==> Sayable(c, f)
  {
    BodiesExact(c, f.body);
    RoomExact(c, f.body);
  }

  /** A frame of a known command decodes, and is encoded, exactly when it may be said. */
  lemma FrameExact(c: Command, f: Frame)
    requires f.command == Code(c) && Fits(f)
    ensures IsBytes(Header(f) + f.body)
    ensures Decode(Header(f) + f.body) == if Sayable(c, f) then Some(f) else None
    ensures Encode(f) == if Sayable(c, f) then Header(f) + f.body else ""
  {
    FieldsOfHeader(f);
    CodesInOrder(c, f.command);
    SayableExact(c, f);
  }

  /** The bytes accepted as a frame are exactly the images of what may be said. */
  lemma WireExact(wire: string)
    requires IsBytes(wire)
    ensures Decode(wire).Some?
        <==> exists c, f: Frame :: Code(c) == f.command && Fits(f) && Sayable(c, f) && wire == Header(f) + f.body
  {
    if Decode(wire).Some? {
      var f := Decode(wire).value;
      var c := CommandOf(f.command).value;
      HeaderOfFields(wire);
      CodesInOrder(c, f.command);
      NumbersFit(wire);
      FrameExact(c, f);
    }
    if c, f: Frame :| Code(c) == f.command && Fits(f) && Sayable(c, f) && wire == Header(f) + f.body {
      FrameExact(c, f);
    }
  }

  lemma NumbersFit(wire: string)
    requires IsBytes(wire) && HeaderHolds(wire)
    ensures Fits(Fields(wire))
  {
    Powers();
    BytesNumber(wire[8..10]);
    BytesNumber(wire[10..12]);
    BytesNumber(wire[64..72]);
    BytesNumber(wire[72..80]);
  }
}
