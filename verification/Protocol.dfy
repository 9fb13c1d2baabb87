/** The frame codec: a fixed little-endian header and a body whose shape the command fixes. */
module Protocol {
  import opened Wrappers
  import opened Text
  import opened Bodies

  const MAGIC: nat := 0x49534B50
  const VERSION: nat := 1
  const HEADER: nat := 80
  const MAX_CONTROL: nat := 512
  const MAX_PROBE_RESULT: nat := 2048
  const MAX_RUNTIME_SNAPSHOT: nat := 8192
  const MAX_LEASES: nat := 65536
  const MAX_BODY: nat := 1024 * 1024
  const MAX_FRAME: nat := HEADER + MAX_BODY

  // ----- little-endian integers ---------------------------------------------------------

  function Pow256(k: nat): nat { if k == 0 then 1 else 256 * Pow256(k - 1) }

  function Bytes(n: nat, k: nat): (s: string)
    ensures |s| == k && IsBytes(s)
  {
    if k == 0 then "" else [(n % 256) as char] + Bytes(n / 256, k - 1)
  }

  function Number(s: string): nat { if s == "" then 0 else s[0] as nat + 256 * Number(s[1..]) }

  lemma {:induction false} NumberBytes(n: nat, k: nat)
    requires n < Pow256(k)
    ensures Number(Bytes(n, k)) == n
    decreases k
  {
    if k > 0 { NumberBytes(n / 256, k - 1); }
  }

  lemma {:induction false} BytesNumber(s: string)
    requires IsBytes(s)
    ensures Bytes(Number(s), |s|) == s && Number(s) < Pow256(|s|)
  {
    if s != "" {
      BytesNumber(s[1..]);
      assert Number(s) % 256 == s[0] as nat && Number(s) / 256 == Number(s[1..]);
      assert [s[0]] + s[1..] == s;
    }
  }

  method AppendUint(output: string, n: nat, k: nat) returns (r: string)
    ensures r == output + Bytes(n, k)
  {
    r := output;
    var rest := n;
    for i := 0 to k
      invariant r + Bytes(rest, k - i) == output + Bytes(n, k)
    {
      r := r + [(rest % 256) as char];
      rest := rest / 256;
    }
  }

  method ReadUint(input: string) returns (n: nat)
    requires IsBytes(input)
    ensures n == Number(input)
  {
    n := 0;
    var i := |input|;
    while i > 0
      invariant 0 <= i <= |input| && n == Number(input[i..])
    {
      i := i - 1;
      assert input[i..][1..] == input[i + 1..];
      n := input[i] as nat + 256 * n;
    }
    assert input[0..] == input;
  }

  // ----- frames --------------------------------------------------------------------------

  datatype Kind = HelloRequest | Request | Response
  function KindCode(k: Kind): nat { match k case HelloRequest => 1 case Request => 2 case Response => 3 }
  function DecodeKind(n: nat): Option<Kind> {
    if n == 1 then Some(HelloRequest) else if n == 2 then Some(Request) else if n == 3 then Some(Response) else None
  }

  /** The commands, by name. */
  datatype Command = Hello | Status | Connect | Disconnect | Cancel | Recover | DiagnosticState | Initialize
    | StageProfile | InvalidateProfile | RevokeSmartAccessLease | RevokeRoutingCatalog
    | RevokeSmartAccessPolicy | RevokeRoutingCatalogService | RenewSmartAccessLease
    | ConfigureSmartAccessRuntimeControl | ReadSmartAccessRestrictions | AcknowledgeSmartAccessRestrictions
    | ReadSmartAccessLeases | ConfigureSmartAccessRenewal | ReadBootClock | ConnectWithIdentity
    | CancelConnectAndConfirm | ConfigureBoundSmartAccessRuntimeControl | ReadTransportNetworkContext
    | StageBoundProfile | PromoteTransportLease | RevokeTransportLease | ReadCandidateNetwork | ProbeCandidate
    | CancelCandidateProbe | ReplaceManagedProfile | ObserveNetworkContext

  /** The code a command has on the wire. */
  function Code(c: Command): nat {
    match c
    case Hello => 0
    case Status => 1
    case Connect => 2
    case Disconnect => 3
    case Cancel => 4
    case Recover => 5
    case DiagnosticState => 6
    case Initialize => 7
    case StageProfile => 8
    case InvalidateProfile => 9
    case RevokeSmartAccessLease => 10
    case RevokeRoutingCatalog => 11
    case RevokeSmartAccessPolicy => 12
    case RevokeRoutingCatalogService => 13
    case RenewSmartAccessLease => 14
    case ConfigureSmartAccessRuntimeControl => 15
    case ReadSmartAccessRestrictions => 16
    case AcknowledgeSmartAccessRestrictions => 17
    case ReadSmartAccessLeases => 18
    case ConfigureSmartAccessRenewal => 19
    case ReadBootClock => 20
    case ConnectWithIdentity => 21
    case CancelConnectAndConfirm => 22
    case ConfigureBoundSmartAccessRuntimeControl => 23
    case ReadTransportNetworkContext => 24
    case StageBoundProfile => 25
    case PromoteTransportLease => 26
    case RevokeTransportLease => 27
    case ReadCandidateNetwork => 28
    case ProbeCandidate => 29
    case CancelCandidateProbe => 30
    case ReplaceManagedProfile => 31
    case ObserveNetworkContext => 32
  }

  /** The command a code names. */
  function CommandOf(n: nat): (c: Option<Command>)
    ensures c.Some? <==> n <= 32
  {
    match n
    case 0 => Some(Hello)
    case 1 => Some(Status)
    case 2 => Some(Connect)
    case 3 => Some(Disconnect)
    case 4 => Some(Cancel)
    case 5 => Some(Recover)
    case 6 => Some(DiagnosticState)
    case 7 => Some(Initialize)
    case 8 => Some(StageProfile)
    case 9 => Some(InvalidateProfile)
    case 10 => Some(RevokeSmartAccessLease)
    case 11 => Some(RevokeRoutingCatalog)
    case 12 => Some(RevokeSmartAccessPolicy)
    case 13 => Some(RevokeRoutingCatalogService)
    case 14 => Some(RenewSmartAccessLease)
    case 15 => Some(ConfigureSmartAccessRuntimeControl)
    case 16 => Some(ReadSmartAccessRestrictions)
    case 17 => Some(AcknowledgeSmartAccessRestrictions)
    case 18 => Some(ReadSmartAccessLeases)
    case 19 => Some(ConfigureSmartAccessRenewal)
    case 20 => Some(ReadBootClock)
    case 21 => Some(ConnectWithIdentity)
    case 22 => Some(CancelConnectAndConfirm)
    case 23 => Some(ConfigureBoundSmartAccessRuntimeControl)
    case 24 => Some(ReadTransportNetworkContext)
    case 25 => Some(StageBoundProfile)
    case 26 => Some(PromoteTransportLease)
    case 27 => Some(RevokeTransportLease)
    case 28 => Some(ReadCandidateNetwork)
    case 29 => Some(ProbeCandidate)
    case 30 => Some(CancelCandidateProbe)
    case 31 => Some(ReplaceManagedProfile)
    case 32 => Some(ObserveNetworkContext)
    case _ => None
  }

  /** Commands and statuses travel as their wire codes. */
  datatype Frame = Frame(kind: Kind, command: nat, status: nat, correlation: Identifier, session: Identifier,
                         nonce: Identifier,
                         deadline: nat, capabilities: nat, body: string)

  const NO_STATUS: nat := 0
  predicate IsKnownStatus(s: nat) { s <= 7 }

  predicate IsBoundedProfile(body: string) {
    4 <= |body| <= MAX_PROFILE && (body[0] == '0' || body[0] == '1') && body[1] == '\n' && 0 as char !in body
  }
  predicate IsRuntimeControl(body: string) {
    65 < |body| <= 65 + 16384 && body[64] == '|' && IsProfileDigest(body[..64]) && 0 as char !in body
  }
  predicate IsBoundRuntimeControl(body: string) {
    |body| > 65 && body[64] == '|' && DecodeTarget(body[..64]).Some? && IsRuntimeControl(body[65..])
  }
  predicate IsPolicyRevocation(body: string) {
    |body| == 66 && body[64] == ':' && (body[65] == '0' || body[65] == '1') && IsProfileDigest(body[..64])
  }
  predicate IsServiceName(s: string) {
    && s != "" && ('a' <= s[0] <= 'z' || IsDigit(s[0]))
    && forall i :: 0 <= i < |s| ==> 'a' <= s[i] <= 'z' || IsDigit(s[i]) || s[i] == '.' || s[i] == '_' || s[i] == '-'
  }
  predicate IsServiceRevocation(body: string) {
    66 <= |body| <= 129 && body[64] == ':' && IsProfileDigest(body[..64]) && IsServiceName(body[65..])
  }

  predicate RequestBody(command: Command, body: string) {
    match command
    case ConfigureBoundSmartAccessRuntimeControl => IsBoundRuntimeControl(body)
    case ObserveNetworkContext => DecodeObservation(body).Some?
    case ProbeCandidate => DecodeProbe(body).Some?
    case Cancel | CancelConnectAndConfirm | CancelCandidateProbe => DecodeTarget(body).Some?
    case PromoteTransportLease => DecodePromotion(body).Some?
    case RevokeTransportLease => DecodeRevocation(body).Some?
    case ConnectWithIdentity => DecodeBoundConnect(body).Some?
    case StageProfile | StageBoundProfile | ReplaceManagedProfile => IsBoundedProfile(body)
    case Connect | RevokeRoutingCatalog | AcknowledgeSmartAccessRestrictions | ReadSmartAccessLeases =>
      IsProfileDigest(body)
    case RevokeSmartAccessLease => DecodeAccessRevocation(body).Some?
    case RevokeSmartAccessPolicy => IsPolicyRevocation(body)
    case RevokeRoutingCatalogService => IsServiceRevocation(body)
    case RenewSmartAccessLease => DecodeRenewal(body).Some?
    case ConfigureSmartAccessRuntimeControl | ConfigureSmartAccessRenewal => IsRuntimeControl(body)
    case _ => body == ""
  }

  function ResponseLimit(command: Command, body: string): nat {
    match command
    case ProbeCandidate => MAX_PROBE_RESULT
    case ReadSmartAccessLeases => MAX_LEASES
    case ReadSmartAccessRestrictions => MAX_BODY
    case _ => if StartsWith(body, "phase=") then MAX_RUNTIME_SNAPSHOT else MAX_CONTROL
  }

  /** The checks for a frame of a known command. */
  predicate IsValidFor(f: Frame, command: Command) {
    match f.kind
    case HelloRequest =>
      && command.Hello? && f.status == NO_STATUS && IsZero(f.session) && IsZero(f.nonce) && f.deadline == 0
      && f.body == ""
    case Request =>
      && !command.Hello? && f.status == NO_STATUS && !IsZero(f.session) && !IsZero(f.nonce) && f.deadline != 0
      && f.capabilities == 0 && RequestBody(command, f.body)
    case Response =>
      && f.status != NO_STATUS && !IsZero(f.session) && IsZero(f.nonce) && f.deadline == 0
      && (command.Hello? || f.capabilities == 0) && |f.body| <= ResponseLimit(command, f.body) && IsAscii(f.body)
  }

  predicate IsValidFrame(f: Frame) {
    && CommandOf(f.command).Some? && IsKnownStatus(f.status) && !IsZero(f.correlation) && |f.body| <= MAX_BODY
    && IsValidFor(f, CommandOf(f.command).value)
  }

  /** What the C++ types already bound. */
  predicate Representable(f: Frame) { f.deadline <= MAX_UINT64 && f.capabilities <= MAX_UINT64 && IsBytes(f.body) }

  function Prefix(kind: nat, command: nat, status: nat, size: nat): (p: string)
    ensures |p| == 16
  {
    Bytes(MAGIC, 4) + Bytes(VERSION, 2) + Bytes(kind, 2) + Bytes(command, 2) + Bytes(status, 2) + Bytes(size, 4)
  }

  function Header(f: Frame): (h: string)
    ensures |h| == HEADER
  {
    Prefix(KindCode(f.kind), f.command, f.status, |f.body|) + (f.correlation + f.session + f.nonce)
    + (Bytes(f.deadline, 8) + Bytes(f.capabilities, 8))
  }

  function Encode(f: Frame): string { if IsValidFrame(f) then Header(f) + f.body else "" }

  predicate HeaderHolds(wire: string) {
    && HEADER <= |wire| <= MAX_FRAME && Number(wire[..4]) == MAGIC && Number(wire[4..6]) == VERSION
    && Number(wire[12..16]) <= MAX_BODY && HEADER + Number(wire[12..16]) == |wire|
    && DecodeKind(Number(wire[6..8])).Some?
  }

  function Fields(wire: string): Frame
    requires IsBytes(wire) && HeaderHolds(wire)
  {
    Frame(DecodeKind(Number(wire[6..8])).value, Number(wire[8..10]), Number(wire[10..12]),
          wire[16..32], wire[32..48], wire[48..64], Number(wire[64..72]), Number(wire[72..80]), wire[80..])
  }

  function Decode(wire: string): Option<Frame>
    requires IsBytes(wire)
  {
    if HeaderHolds(wire) && IsValidFrame(Fields(wire)) then Some(Fields(wire)) else None
  }

  // ----- inverse and canonical -------------------------------------------------------------

  lemma Powers()
    ensures Pow256(2) == 65536 && Pow256(4) == 4294967296 && Pow256(8) == 18446744073709551616
  {
    assert Pow256(2) == 65536;
    assert Pow256(4) == 4294967296;
  }

  lemma MiddleSlice(x: string, y: string, z: string)
    ensures (x + y + z)[|x|..|x| + |y|] == y
  {
    assert forall k :: 0 <= k < |y| ==> (x + y + z)[|x| + k] == y[k];
  }

  /** Slices of a header made of a prefix, three identifiers and a suffix. */
  lemma HeaderSlices(p: string, a: string, b: string, c: string, d: string, e: string)
    requires |p| == 16 && |a| == 16 && |b| == 16 && |c| == 16 && |d| == 8 && |e| == 8
    ensures var h := p + (a + b + c) + (d + e);
            && h[..4] == p[..4] && h[4..6] == p[4..6] && h[6..8] == p[6..8] && h[8..10] == p[8..10]
            && h[10..12] == p[10..12]
            && h[12..16] == p[12..16] && h[16..32] == a && h[32..48] == b && h[48..64] == c && h[64..72] == d
            && h[72..80] == e
  {
    var h := p + (a + b + c) + (d + e);
    MiddleSlice(p, a, b + c + (d + e));
    assert h == p + a + (b + c + (d + e));
    MiddleSlice(p + a, b, c + (d + e));
    assert h == p + a + b + (c + (d + e));
    MiddleSlice(p + a + b, c, d + e);
    assert h == p + a + b + c + (d + e);
    MiddleSlice(p + a + b + c, d, e);
    assert h == p + a + b + c + d + e;
    MiddleSlice(p + a + b + c + d, e, "");
    assert h == p + a + b + c + d + e + "";
    assert h[..16] == p;
  }

  /** Where each field of the header lies. */
  lemma HeaderFields(f: Frame)
    ensures var h := Header(f);
            && h[..4] == Bytes(MAGIC, 4) && h[4..6] == Bytes(VERSION, 2) && h[6..8] == Bytes(KindCode(f.kind), 2)
            && h[8..10] == Bytes(f.command, 2) && h[10..12] == Bytes(f.status, 2) && h[12..16] == Bytes(|f.body|, 4)
            && h[16..32] == f.correlation && h[32..48] == f.session && h[48..64] == f.nonce
            && h[64..72] == Bytes(f.deadline, 8) && h[72..80] == Bytes(f.capabilities, 8)
  {
    HeaderSlices(Prefix(KindCode(f.kind), f.command, f.status, |f.body|), f.correlation, f.session, f.nonce,
                 Bytes(f.deadline, 8), Bytes(f.capabilities, 8));
  }

  /** The numbers fit their header fields. */
  predicate Fits(f: Frame) { f.command < 65536 && f.status < 65536 && |f.body| <= MAX_BODY && Representable(f) }

  lemma HeaderNumbers(f: Frame)
    requires Fits(f)
    ensures var h := Header(f);
            && Number(h[..4]) == MAGIC && Number(h[4..6]) == VERSION && Number(h[6..8]) == KindCode(f.kind)
            && Number(h[8..10]) == f.command && Number(h[10..12]) == f.status && Number(h[12..16]) == |f.body|
            && Number(h[64..72]) == f.deadline && Number(h[72..80]) == f.capabilities
  {
    HeaderFields(f);
    Powers();
    NumberBytes(MAGIC, 4);
    NumberBytes(VERSION, 2);
    NumberBytes(KindCode(f.kind), 2);
    NumberBytes(f.command, 2);
    NumberBytes(f.status, 2);
    NumberBytes(|f.body|, 4);
    NumberBytes(f.deadline, 8);
    NumberBytes(f.capabilities, 8);
  }

  lemma BytesConcat(a: string, b: string)
    requires IsBytes(a) && IsBytes(b)
    ensures IsBytes(a + b)
  {
  }

  /** The header's slices are the same with the body behind it. */
  lemma Slices(h: string, body: string)
    requires |h| == HEADER
    ensures var wire := h + body;
            && wire[80..] == body && wire[..4] == h[..4] && wire[4..6] == h[4..6] && wire[6..8] == h[6..8]
            && wire[8..10] == h[8..10] && wire[10..12] == h[10..12] && wire[12..16] == h[12..16]
            && wire[16..32] == h[16..32]
            && wire[32..48] == h[32..48] && wire[48..64] == h[48..64] && wire[64..72] == h[64..72]
            && wire[72..80] == h[72..80]
  {
  }

  /** A header that reads as the frame's fields. */
  ghost predicate Carries(h: string, f: Frame) {
    && |h| == HEADER && Number(h[..4]) == MAGIC && Number(h[4..6]) == VERSION && Number(h[6..8]) == KindCode(f.kind)
    && Number(h[8..10]) == f.command && Number(h[10..12]) == f.status && Number(h[12..16]) == |f.body|
    && h[16..32] == f.correlation && h[32..48] == f.session && h[48..64] == f.nonce
    && Number(h[64..72]) == f.deadline && Number(h[72..80]) == f.capabilities
  }

  lemma FieldsOfParts(h: string, f: Frame)
    requires Carries(h, f) && Fits(f) && IsBytes(h + f.body)
    ensures HeaderHolds(h + f.body) && Fields(h + f.body) == f
  {
    Slices(h, f.body);
  }

  lemma FieldsOfHeader(f: Frame)
    requires Fits(f)
    ensures IsBytes(Header(f) + f.body) && HeaderHolds(Header(f) + f.body) && Fields(Header(f) + f.body) == f
  {
    BytesConcat(Header(f), f.body);
    HeaderNumbers(f);
    HeaderFields(f);
    FieldsOfParts(Header(f), f);
  }

  lemma FrameRoundTrip(f: Frame)
    requires IsValidFrame(f) && Representable(f)
    ensures IsBytes(Encode(f)) && Decode(Encode(f)) == Some(f)
  {
    assert f.command <= 32 && Fits(f);
    FieldsOfHeader(f);
  }

  lemma BytesAt(s: string, a: nat, b: nat, n: nat, k: nat)
    requires IsBytes(s) && a <= b <= |s| && k == b - a && n == Number(s[a..b])
    ensures Bytes(n, k) == s[a..b]
  {
    BytesNumber(s[a..b]);
  }

  lemma Glue(p: string)
    requires |p| >= 16
    ensures p[0..4] + p[4..6] + p[6..8] + p[8..10] + p[10..12] + p[12..16] == p[..16]
  {
  }

  lemma PrefixOfNumbers(p: string, kind: nat, command: nat, status: nat, size: nat)
    requires |p| >= 16 && Bytes(MAGIC, 4) == p[0..4] && Bytes(VERSION, 2) == p[4..6] && Bytes(kind, 2) == p[6..8]
    requires Bytes(command, 2) == p[8..10] && Bytes(status, 2) == p[10..12] && Bytes(size, 4) == p[12..16]
    ensures Prefix(kind, command, status, size) == p[..16]
  {
    Glue(p);
  }

  lemma SuffixGlue(wire: string)
    requires |wire| >= HEADER
    ensures wire[..16] + (wire[16..32] + wire[32..48] + wire[48..64]) + (wire[64..72] + wire[72..80]) + wire[80..]
            == wire
  {
  }

  lemma HeaderOfFields(wire: string)
    requires IsBytes(wire) && HeaderHolds(wire)
    ensures Header(Fields(wire)) + Fields(wire).body == wire
  {
    var f := Fields(wire);
    assert wire[..4] == wire[0..4];
    BytesAt(wire, 0, 4, MAGIC, 4);
    BytesAt(wire, 4, 6, VERSION, 2);
    BytesAt(wire, 6, 8, KindCode(f.kind), 2);
    BytesAt(wire, 8, 10, f.command, 2);
    BytesAt(wire, 10, 12, f.status, 2);
    BytesAt(wire, 12, 16, |f.body|, 4);
    BytesAt(wire, 64, 72, f.deadline, 8);
    BytesAt(wire, 72, 80, f.capabilities, 8);
    PrefixOfNumbers(wire, KindCode(f.kind), f.command, f.status, |f.body|);
    SuffixGlue(wire);
  }

  lemma FrameCanonical(wire: string)
    requires IsBytes(wire) && Decode(wire).Some?
    ensures Encode(Decode(wire).value) == wire
  {
    HeaderOfFields(wire);
  }

  // ----- the loops -------------------------------------------------------------------------

  method EncodePrefix(kind: nat, command: nat, status: nat, size: nat) returns (p: string)
    ensures p == Prefix(kind, command, status, size)
  {
    p := AppendUint("", MAGIC, 4);
    p := AppendUint(p, VERSION, 2);
    p := AppendUint(p, kind, 2);
    p := AppendUint(p, command, 2);
    p := AppendUint(p, status, 2);
    p := AppendUint(p, size, 4);
  }

  method EncodeHeader(f: Frame) returns (h: string)
    ensures h == Header(f)
  {
    h := EncodePrefix(KindCode(f.kind), f.command, f.status, |f.body|);
    h := h + (f.correlation + f.session + f.nonce);
    ghost var middle := h;
    h := AppendUint(h, f.deadline, 8);
    h := AppendUint(h, f.capabilities, 8);
    assert h == middle + (Bytes(f.deadline, 8) + Bytes(f.capabilities, 8));
  }

  method EncodeFrame(f: Frame) returns (wire: string)
    ensures wire == Encode(f)
  {
    if !IsValidFrame(f) { return ""; }
    wire := EncodeHeader(f);
    wire := wire + f.body;
  }

  method DecodeFrame(wire: string) returns (r: Option<Frame>)
    requires IsBytes(wire)
    ensures r == Decode(wire)
  {
    if |wire| < HEADER || |wire| > MAX_FRAME { return None; }
    var magic := ReadUint(wire[..4]);
    var version := ReadUint(wire[4..6]);
    var size := ReadUint(wire[12..16]);
    var kind := ReadUint(wire[6..8]);
    if magic != MAGIC || version != VERSION || size > MAX_BODY || HEADER + size != |wire|
        || DecodeKind(kind).None? { return None; }
    var command := ReadUint(wire[8..10]);
    var status := ReadUint(wire[10..12]);
    var deadline := ReadUint(wire[64..72]);
    var capabilities := ReadUint(wire[72..80]);
    var f := Frame(DecodeKind(kind).value, command, status, wire[16..32], wire[32..48], wire[48..64], deadline,
        capabilities, wire[80..]);
    return if IsValidFrame(f) then Some(f) else None;
  }
}
