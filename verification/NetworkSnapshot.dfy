/** The captured network state as text, and its way through the journal and back. */
module NetworkSnapshot {
  import opened Wrappers
  import opened Text
  import Journal

  /** One value of a record, and the column it is written in. */
  datatype Cell = Flag(on: bool) | Count(n: nat) | Family(v6: bool) | Address(text: string) | Wide(bytes: string)
  datatype Column = Flags | Counts(max: nat) | Families | Scopes | Addresses | Wides

  const ULONG: nat := 4294967295
  const ULONG64: nat := 18446744073709551615
  const MAX_WIDE: nat := 4096     // bytes of 2048 UTF-16 units
  const MAX_ADDRESSES: nat := 32
  const MAX_ROUTES: nat := 256

  datatype Kind = Interface | Unicast | Route | Dns
  datatype Record = Record(kind: Kind, cells: seq<Cell>)

  function Prefix(k: Kind): string {
    match k case Interface => "if=" case Unicast => "addr=" case Route => "route=" case Dns => "dns="
  }

  function Schema(k: Kind): (columns: seq<Column>)
    ensures |columns| >= 1
  {
    match k
    // family, forwarding, weak send, weak receive, automatic metric, metric, mtu, router discovery, DAD, managed,
    // other, advertise
    case Interface =>
      [Families, Flags, Flags, Flags, Flags, Counts(ULONG), Counts(ULONG), Counts(ULONG), Counts(ULONG),
       Flags, Flags, Flags]
    // family, address, scope, prefix origin, suffix origin, valid, preferred, prefix length, skip as source, DAD state
    case Unicast =>
      [Families, Addresses, Scopes, Counts(ULONG), Counts(ULONG), Counts(ULONG), Counts(ULONG), Counts(128),
       Flags, Counts(ULONG)]
    // family, destination, scope, length, next hop, scope, site length, valid, preferred, metric, protocol, four flags,
    // origin
    case Route =>
      [Families, Addresses, Scopes, Counts(128), Addresses, Scopes, Counts(128), Counts(ULONG), Counts(ULONG),
       Counts(ULONG), Counts(ULONG), Flags, Flags, Flags, Flags, Counts(ULONG)]
    // family, flags, registration, adapter name, LLMNR, query, domain, name server, search list, profile name server
    case Dns =>
      [Families, Counts(ULONG64), Counts(ULONG), Counts(ULONG), Counts(ULONG), Counts(ULONG),
       Wides, Wides, Wides, Wides]
  }

  /** The text InetNtop gives an address; the address is identified with it. */
  predicate IsAddressText(s: string) {
    s != "" && forall i :: 0 <= i < |s| ==> IsHexDigit(s[i]) || s[i] == ':' || s[i] == '.'
  }

  function Show(c: Cell): string
    requires c.Wide? ==> IsBytes(c.bytes)
  {
    match c
    case Flag(on) => if on then "1" else "0"
    case Count(n) => Decimal(n)
    case Family(v6) => if v6 then "6" else "4"
    case Address(text) => text
    case Wide(bytes) => var text := UpToZero(bytes); if |text| > MAX_WIDE then "" else Hex(text)
  }

  /** A wide text is written as a C string: up to its first zero unit. */
  function UpToZero(bytes: string): (text: string)
    ensures |text| % 2 == 0 && text <= bytes
  {
    if |bytes| < 2 || (bytes[0] == 0 as char && bytes[1] == 0 as char) then "" else bytes[..2] + UpToZero(bytes[2..])
  }

  /** An IPv4 address has no scope, whatever the text says. */
  function Read(col: Column, v6: bool, s: string): Option<Cell> {
    match col
    case Flags => var n := ParseUnsigned(s, 1); if n.None? then None else Some(Flag(n.value == 1))
    case Counts(max) => var n := ParseUnsigned(s, max); if n.None? then None else Some(Count(n.value))
    case Families => if Value(s) == Some(4) then Some(Family(false))
        else if Value(s) == Some(6) then Some(Family(true)) else None
    case Scopes => var n := ParseUnsigned(s, ULONG); if n.None? then None else Some(Count(if v6 then n.value else 0))
    case Addresses => if IsAddressText(s) then Some(Address(s)) else None
    case Wides => if |s| % 4 != 0 || |s| > 2 * MAX_WIDE || Unhex(s).None? then None else Some(Wide(Unhex(s).value))
  }

  /** What a captured value of the column looks like. */
  predicate Fits(col: Column, v6: bool, c: Cell) {
    match col
    case Flags => c.Flag?
    case Counts(max) => c.Count? && c.n <= max
    case Families => c.Family? && c.v6 == v6
    case Scopes => c.Count? && c.n <= ULONG && (!v6 ==> c.n == 0)
    case Addresses => c.Address? && IsAddressText(c.text)
    case Wides =>
      c.Wide? && IsBytes(c.bytes) && |c.bytes| % 2 == 0 && |c.bytes| <= MAX_WIDE && UpToZero(c.bytes) == c.bytes
  }

  predicate Plain(s: string) { Without(s, ',') && Without(s, '\n') && IsBytes(s) }

  lemma DecimalPlain(n: nat)
    ensures Plain(Decimal(n)) && Value(Decimal(n)) == Some(n)
  {
    DecimalRoundTrip(n);
    var s := Decimal(n);
    assert forall i :: 0 <= i < |s| ==> IsDigit(s[i]);
  }

  lemma HexPlain(bytes: string)
    requires IsBytes(bytes)
    ensures Plain(Hex(bytes)) && Unhex(Hex(bytes)) == Some(bytes)
  {
    HexRoundTrip(bytes);
    var s := Hex(bytes);
    assert forall i :: 0 <= i < |s| ==> IsHexDigit(s[i]);
  }

  lemma AddressPlain(s: string)
    requires IsAddressText(s)
    ensures Plain(s)
  {
  }

  lemma ReadFlag(v6: bool, c: Cell)
    requires c.Flag?
    ensures Read(Flags, v6, Show(c)) == Some(c) && Plain(Show(c))
  {
  }

  lemma ReadFamily(v6: bool, c: Cell)
    requires c.Family?
    ensures Read(Families, v6, Show(c)) == Some(c) && Plain(Show(c))
  {
  }

  lemma ReadCount(col: Column, v6: bool, c: Cell)
    requires c.Count? && Fits(col, v6, c)
    ensures Read(col, v6, Show(c)) == Some(c) && Plain(Show(c))
  {
    DecimalPlain(c.n);
  }

  lemma ReadWide(v6: bool, c: Cell)
    requires Fits(Wides, v6, c)
    ensures Read(Wides, v6, Show(c)) == Some(c) && Plain(Show(c))
  {
    assert Show(c) == Hex(c.bytes);
    HexPlain(c.bytes);
  }

  /** A wide text comes back exactly when it has no zero unit and is not too long; a zero unit cuts it. */
  lemma WideExact(v6: bool, bytes: string)
    requires IsBytes(bytes)
    ensures Read(Wides, v6, Show(Wide(bytes)))
            == Some(Wide(if |UpToZero(bytes)| > MAX_WIDE then "" else UpToZero(bytes)))
    ensures Read(Wides, v6, Show(Wide(bytes))) == Some(Wide(bytes)) <==> UpToZero(bytes) == bytes && |bytes| <= MAX_WIDE
  {
    var text := UpToZero(bytes);
    HexPlain(text);
    if |text| > MAX_WIDE { assert Unhex("") == Some(""); }
  }

  lemma ReadShow(col: Column, v6: bool, c: Cell)
    requires Fits(col, v6, c)
    ensures Read(col, v6, Show(c)) == Some(c) && Plain(Show(c))
  {
    match col
    case Flags => ReadFlag(v6, c);
    case Counts(_) => ReadCount(col, v6, c);
    case Families => ReadFamily(v6, c);
    case Scopes => ReadCount(col, v6, c);
    case Addresses => AddressPlain(c.text);
    case Wides => ReadWide(v6, c);
  }

  // ----- records ----------------------------------------------------------------------------

  predicate IsV6(cells: seq<Cell>) { |cells| >= 1 && cells[0] == Family(true) }

  predicate RecordFits(r: Record) {
    && |r.cells| == |Schema(r.kind)| && Printable(r.cells)
    && forall i :: 0 <= i < |r.cells| ==> Fits(Schema(r.kind)[i], IsV6(r.cells), r.cells[i])
  }

  predicate Printable(cells: seq<Cell>) { forall i :: 0 <= i < |cells| && cells[i].Wide? ==> IsBytes(cells[i].bytes) }

  function Shown(cells: seq<Cell>): (s: seq<string>)
    requires Printable(cells)
    ensures |s| == |cells| && forall i :: 0 <= i < |s| ==> s[i] == Show(cells[i])
  {
    seq(|cells|, i requires 0 <= i < |cells| => Show(cells[i]))
  }

  function Line(r: Record): string
    requires RecordFits(r)
  {
    var fields := Shown(r.cells);
    Join([Prefix(r.kind) + fields[0]] + fields[1..], ',')
  }

  /** Every field reads in its column, or none does. */
  function ReadCells(columns: seq<Column>, v6: bool, fields: seq<string>): Option<seq<Cell>>
    requires |columns| == |fields|
  {
    if forall i :: 0 <= i < |fields| ==> Read(columns[i], v6, fields[i]).Some?
    then Some(seq(|fields|, i requires 0 <= i < |fields|
        && Read(columns[i], v6, fields[i]).Some? => Read(columns[i], v6, fields[i]).value))
    else None
  }

  function KindOf(line: string): Option<Kind> {
    if StartsWith(line, Prefix(Interface)) then Some(Interface)
    else if StartsWith(line, Prefix(Unicast)) then Some(Unicast)
    else if StartsWith(line, Prefix(Route)) then Some(Route)
    else if StartsWith(line, Prefix(Dns)) then Some(Dns)
    else None
  }

  function ReadRecord(line: string): Option<Record> {
    var kind := KindOf(line);
    if kind.None? then None
    else
      var fields := Split(line, ',');
      var w := |Prefix(kind.value)|;
      if |fields| != |Schema(kind.value)| || |fields[0]| < w then None
      else
        var family := Read(Families, false, fields[0][w..]);
        if family.None? then None
        else
          var cells := ReadCells(Schema(kind.value), family.value.v6, [fields[0][w..]] + fields[1..]);
          if cells.None? then None else Some(Record(kind.value, cells.value))
  }

  lemma ReadCellsShown(columns: seq<Column>, v6: bool, cells: seq<Cell>)
    requires |columns| == |cells| && Printable(cells) && forall i :: 0 <= i < |cells| ==> Fits(columns[i], v6, cells[i])
    ensures ReadCells(columns, v6, Shown(cells)) == Some(cells)
  {
    forall i | 0 <= i < |cells| ensures Read(columns[i], v6, Shown(cells)[i]) == Some(cells[i]) {
      ReadShow(columns[i], v6, cells[i]);
    }
    assert ReadCells(columns, v6, Shown(cells)).value == cells;
  }

  lemma ShownWithout(r: Record)
    requires RecordFits(r)
    ensures forall i :: 0 <= i < |r.cells| ==> Plain(Shown(r.cells)[i])
  {
    forall i | 0 <= i < |r.cells| ensures Plain(Shown(r.cells)[i]) {
      ReadShow(Schema(r.kind)[i], IsV6(r.cells), r.cells[i]);
    }
  }

  lemma PrefixKind(k: Kind, rest: string)
    ensures KindOf(Prefix(k) + rest) == Some(k)
  {
    var line := Prefix(k) + rest;
    assert line[..|Prefix(k)|] == Prefix(k);
    assert line[0] == Prefix(k)[0];
    assert forall other: Kind :: other != k ==> Prefix(other)[0] != Prefix(k)[0];
  }

  lemma JoinHead(prefix: string, fields: seq<string>, d: char)
    requires |fields| >= 1
    ensures Join([prefix + fields[0]] + fields[1..], d) == prefix + Join(fields, d)
  {
    var f := [prefix + fields[0]] + fields[1..];
    assert f[1..] == fields[1..];
    if |fields| > 1 {
      assert prefix + fields[0] + [d] + Join(fields[1..], d) == prefix + (fields[0] + [d] + Join(fields[1..], d));
    }
  }

  lemma RecordRoundTrip(r: Record)
    requires RecordFits(r)
    ensures ReadRecord(Line(r)) == Some(r)
  {
    var fields := Shown(r.cells);
    var prefixed := [Prefix(r.kind) + fields[0]] + fields[1..];
    ShownWithout(r);
    assert Without(Prefix(r.kind), ',');
    SplitJoin(prefixed, ',');
    JoinHead(Prefix(r.kind), fields, ',');
    PrefixKind(r.kind, Join(fields, ','));
    assert prefixed[0][|Prefix(r.kind)|..] == fields[0] && [fields[0]] + prefixed[1..] == fields;
    ReadShow(Families, IsV6(r.cells), r.cells[0]);
    ReadCellsShown(Schema(r.kind), IsV6(r.cells), r.cells);
  }

  // ----- snapshots ----------------------------------------------------------------------------

  datatype Snapshot =
    | Absent
    | Present(guid: string, interfaces: seq<Record>, addresses: seq<Record>, routes: seq<Record>, dns: seq<Record>)

  predicate AllOf(k: Kind, rs: seq<Record>) { forall i :: 0 <= i < |rs| ==> rs[i].kind == k && RecordFits(rs[i]) }

  /** What CaptureSnapshot produces. */
  predicate WellFormed(s: Snapshot) {
    s.Present? ==>
      && |s.guid| == 16 && IsBytes(s.guid) && |s.interfaces| == 2 && |s.dns| == 2
      && |s.addresses| <= MAX_ADDRESSES && |s.routes| <= MAX_ROUTES
      && AllOf(Interface, s.interfaces) && AllOf(Unicast, s.addresses) && AllOf(Route, s.routes) && AllOf(Dns, s.dns)
  }

  const MAGIC := "POKROV_NETWORK_V1"
  const GUID := "guid="

  function RecordLines(rs: seq<Record>): (lines: seq<string>)
    requires forall i :: 0 <= i < |rs| ==> RecordFits(rs[i])
    ensures |lines| == |rs| && forall i :: 0 <= i < |rs| ==> lines[i] == Line(rs[i])
  {
    seq(|rs|, i requires 0 <= i < |rs| && RecordFits(rs[i]) => Line(rs[i]))
  }

  function Lines(s: Snapshot): (lines: seq<string>)
    requires WellFormed(s)
    ensures |lines| >= 2
  {
    match s
    case Absent => [MAGIC, "adapter=absent"]
    case Present(guid, interfaces, addresses, routes, dns) =>
      [MAGIC, "adapter=present", GUID + Hex(guid)] + Records(interfaces, addresses, routes, dns)
  }

  function Records(interfaces: seq<Record>, addresses: seq<Record>, routes: seq<Record>, dns: seq<Record>): seq<string>
    requires AllOf(Interface, interfaces) && AllOf(Unicast, addresses) && AllOf(Route, routes) && AllOf(Dns, dns)
  {
    RecordLines(interfaces) + (RecordLines(addresses) + (RecordLines(routes) + RecordLines(dns)))
  }

  function Serialize(s: Snapshot): string requires WellFormed(s) { Join(Lines(s), '\n') + "\n" }

  /** The parser counts addresses, routes and DNS records as it meets them. */
  function Add(s: Snapshot, r: Record): Option<Snapshot>
    requires s.Present?
  {
    match r.kind
    case Interface => Some(s.(interfaces := s.interfaces + [r]))
    case Unicast => if |s.addresses| >= MAX_ADDRESSES then None else Some(s.(addresses := s.addresses + [r]))
    case Route => if |s.routes| >= MAX_ROUTES then None else Some(s.(routes := s.routes + [r]))
    case Dns => if |s.dns| >= 2 then None else Some(s.(dns := s.dns + [r]))
  }

  function AddLine(s: Snapshot, line: string): (r: Option<Snapshot>)
    requires s.Present?
    ensures r.Some? ==> r.value.Present?
  {
    var record := ReadRecord(line);
    if record.None? then None else Add(s, record.value)
  }

  function AddLines(s: Snapshot, lines: seq<string>): (r: Option<Snapshot>)
    requires s.Present?
    ensures r.Some? ==> r.value.Present?
    decreases |lines|
  {
    if lines == [] then Some(s)
    else
      var next := AddLine(s, lines[0]);
      if next.None? then None else AddLines(next.value, lines[1..])
  }

  function ParseLines(lines: seq<string>): Option<Snapshot>
    requires |lines| >= 1
  {
    if |lines| < 2 || lines[0] != MAGIC then None
    else if lines[1] == "adapter=absent" then if |lines| == 2 then Some(Absent) else None
    else if lines[1] != "adapter=present" || |lines| < 3 || !StartsWith(lines[2], GUID) then None
    else
      var hex := lines[2][|GUID|..];
      if |hex| != 32 || Unhex(hex).None? then None
      else
        var s := AddLines(Present(Unhex(hex).value, [], [], [], []), lines[3..]);
        if s.None? || |s.value.interfaces| != 2 || |s.value.dns| != 2 then None else s
  }

  function ParseSnapshot(text: string): Option<Snapshot> {
    if text == "" || text[|text| - 1] != '\n' then None else ParseLines(Split(text[..|text| - 1], '\n'))
  }

  method ParseSnapshotText(text: string) returns (r: Option<Snapshot>)
    ensures r == ParseSnapshot(text)
  {
    if text == "" || text[|text| - 1] != '\n' { return None; }
    var lines := SplitFields(text[..|text| - 1], '\n');
    if |lines| < 2 || lines[0] != MAGIC { return None; }
    if lines[1] == "adapter=absent" { return if |lines| == 2 then Some(Absent) else None; }
    if lines[1] != "adapter=present" || |lines| < 3 || !StartsWith(lines[2], GUID) { return None; }
    var hex := lines[2][|GUID|..];
    var guid := HexDecode(hex, 32);
    if |hex| != 32 || guid.None? { return None; }
    ghost var start := Present(guid.value, [], [], [], []);
    var s := Present(guid.value, [], [], [], []);
    var i := 3;
    while i < |lines|
      invariant 3 <= i <= |lines| && s.Present?
      invariant AddLines(start, lines[3..]) == AddLines(s, lines[i..])
    {
      assert lines[i..][0] == lines[i] && lines[i..][1..] == lines[i + 1..];
      var next := AddLine(s, lines[i]);
      if next.None? { return None; }
      s := next.value;
      i := i + 1;
    }
    return if |s.interfaces| != 2 || |s.dns| != 2 then None else Some(s);
  }

  // ----- the round trip --------------------------------------------------------------------------

  function Listed(s: Snapshot, k: Kind): seq<Record> requires s.Present? {
    match k case Interface => s.interfaces case Unicast => s.addresses case Route => s.routes case Dns => s.dns
  }
  function Extended(s: Snapshot, k: Kind, rs: seq<Record>): (t: Snapshot)
    requires s.Present?
    ensures t.Present?
  {
    match k
    case Interface => s.(interfaces := s.interfaces + rs)
    case Unicast => s.(addresses := s.addresses + rs)
    case Route => s.(routes := s.routes + rs)
    case Dns => s.(dns := s.dns + rs)
  }
  function Limit(k: Kind): nat {
    match k case Interface => 2 case Unicast => MAX_ADDRESSES case Route => MAX_ROUTES case Dns => 2
  }

  lemma ExtendedTwice(s: Snapshot, k: Kind, r: Record, rs: seq<Record>)
    requires s.Present?
    ensures Extended(Extended(s, k, [r]), k, rs) == Extended(s, k, [r] + rs)
  {
    assert Listed(s, k) + [r] + rs == Listed(s, k) + ([r] + rs);
  }

  lemma AddOne(s: Snapshot, k: Kind, r: Record)
    requires s.Present? && r.kind == k && RecordFits(r) && |Listed(s, k)| < Limit(k)
    ensures AddLine(s, Line(r)) == Some(Extended(s, k, [r]))
  {
    RecordRoundTrip(r);
  }

  lemma AddFirst(s: Snapshot, line: string, rest: seq<string>, t: Snapshot)
    requires s.Present? && t.Present? && AddLine(s, line) == Some(t)
    ensures AddLines(s, [line] + rest) == AddLines(t, rest)
  {
    assert ([line] + rest)[1..] == rest;
  }

  lemma NothingAdded(s: Snapshot, k: Kind, rs: seq<Record>, rest: seq<string>)
    requires s.Present? && rs == []
    ensures Extended(s, k, rs) == s && RecordLines(rs) + rest == rest
  {
  }

  lemma LinesOf(r: Record, rs: seq<Record>, rest: seq<string>)
    requires RecordFits(r) && forall i :: 0 <= i < |rs| ==> RecordFits(rs[i])
    ensures RecordLines([r] + rs) + rest == [Line(r)] + (RecordLines(rs) + rest)
  {
    assert RecordLines([r] + rs) == [Line(r)] + RecordLines(rs);
  }

  lemma {:induction false} AddAll(s: Snapshot, k: Kind, rs: seq<Record>, rest: seq<string>)
    requires s.Present? && AllOf(k, rs) && |Listed(s, k)| + |rs| <= Limit(k)
    ensures AddLines(s, RecordLines(rs) + rest) == AddLines(Extended(s, k, rs), rest)
    decreases |rs|
  {
    if rs == [] {
      NothingAdded(s, k, rs, rest);
    } else {
      var (r, tail, next) := (rs[0], rs[1..], Extended(s, k, [rs[0]]));
      assert rs == [r] + tail;
      AddOne(s, k, r);
      LinesOf(r, tail, rest);
      AddFirst(s, Line(r), RecordLines(tail) + rest, next);
      AddAll(next, k, tail, rest);
      ExtendedTwice(s, k, r, tail);
    }
  }

  lemma AddDns(s: Snapshot, dns: seq<Record>)
    requires s.Present? && s.dns == [] && AllOf(Dns, dns) && |dns| <= 2
    ensures AddLines(s, RecordLines(dns)) == Some(s.(dns := dns))
  {
    AddAll(s, Dns, dns, []);
    assert RecordLines(dns) + [] == RecordLines(dns);
    assert Extended(s, Dns, dns) == s.(dns := dns);
  }

  lemma AddRoutesAndDns(s: Snapshot, routes: seq<Record>, dns: seq<Record>)
    requires s.Present? && s.routes == [] && s.dns == [] && AllOf(Route, routes) && AllOf(Dns, dns)
    requires |routes| <= MAX_ROUTES && |dns| <= 2
    ensures AddLines(s, RecordLines(routes) + RecordLines(dns)) == Some(s.(routes := routes, dns := dns))
  {
    AddAll(s, Route, routes, RecordLines(dns));
    var t := Extended(s, Route, routes);
    assert t == s.(routes := routes);
    AddDns(t, dns);
  }

  lemma AddAddressesOn(s: Snapshot, addresses: seq<Record>, routes: seq<Record>, dns: seq<Record>)
    requires s.Present? && s.addresses == [] && s.routes == [] && s.dns == []
    requires AllOf(Unicast, addresses) && AllOf(Route, routes) && AllOf(Dns, dns)
    requires |addresses| <= MAX_ADDRESSES && |routes| <= MAX_ROUTES && |dns| <= 2
    ensures AddLines(s, RecordLines(addresses) + (RecordLines(routes) + RecordLines(dns)))
            == Some(s.(addresses := addresses, routes := routes, dns := dns))
  {
    AddAll(s, Unicast, addresses, RecordLines(routes) + RecordLines(dns));
    var t := Extended(s, Unicast, addresses);
    assert t == s.(addresses := addresses);
    AddRoutesAndDns(t, routes, dns);
  }

  lemma AddRecords(guid: string, interfaces: seq<Record>, addresses: seq<Record>, routes: seq<Record>, dns: seq<Record>)
    requires AllOf(Interface, interfaces) && AllOf(Unicast, addresses) && AllOf(Route, routes) && AllOf(Dns, dns)
    requires |interfaces| <= 2 && |addresses| <= MAX_ADDRESSES && |routes| <= MAX_ROUTES && |dns| <= 2
    ensures AddLines(Present(guid, [], [], [], []), Records(interfaces, addresses, routes, dns))
            == Some(Present(guid, interfaces, addresses, routes, dns))
  {
    var a := Present(guid, [], [], [], []);
    AddAll(a, Interface, interfaces, RecordLines(addresses) + (RecordLines(routes) + RecordLines(dns)));
    var b := Extended(a, Interface, interfaces);
    assert b == Present(guid, interfaces, [], [], []);
    AddAddressesOn(b, addresses, routes, dns);
  }

  lemma LinePlain(r: Record)
    requires RecordFits(r)
    ensures Without(Line(r), '\n') && IsBytes(Line(r))
  {
    ShownWithout(r);
    JoinHead(Prefix(r.kind), Shown(r.cells), ',');
    PlainJoin(Shown(r.cells));
    var joined := Join(Shown(r.cells), ',');
    assert Without(Prefix(r.kind), '\n') && IsBytes(Prefix(r.kind));
    assert Line(r) == Prefix(r.kind) + joined;
  }

  lemma {:induction false} PlainJoin(fields: seq<string>)
    requires |fields| >= 1 && forall i :: 0 <= i < |fields| ==> Plain(fields[i])
    ensures Without(Join(fields, ','), '\n') && IsBytes(Join(fields, ','))
  {
    if |fields| > 1 { PlainJoin(fields[1..]); }
  }

  predicate Unbroken(lines: seq<string>) {
    forall i :: 0 <= i < |lines| ==> Without(lines[i], '\n') && IsBytes(lines[i])
  }

  lemma RecordsUnbroken(rs: seq<Record>)
    requires forall i :: 0 <= i < |rs| ==> RecordFits(rs[i])
    ensures Unbroken(RecordLines(rs))
  {
    forall i | 0 <= i < |rs| ensures Without(RecordLines(rs)[i], '\n')
        && IsBytes(RecordLines(rs)[i]) { LinePlain(rs[i]); }
  }

  lemma BodyUnbroken(interfaces: seq<Record>, addresses: seq<Record>, routes: seq<Record>, dns: seq<Record>)
    requires AllOf(Interface, interfaces) && AllOf(Unicast, addresses) && AllOf(Route, routes) && AllOf(Dns, dns)
    ensures Unbroken(Records(interfaces, addresses, routes, dns))
  {
    RecordsUnbroken(interfaces);
    RecordsUnbroken(addresses);
    RecordsUnbroken(routes);
    RecordsUnbroken(dns);
  }

  lemma UnbrokenLine(a: string, b: string)
    requires Unbroken([a]) && Unbroken([b])
    ensures Unbroken([a + b])
  {
    assert [a][0] == a && [b][0] == b;
  }

  lemma HeadUnbroken(hex: string)
    requires Plain(hex)
    ensures Unbroken([MAGIC, "adapter=present", GUID + hex])
  {
    UnbrokenLine(GUID, hex);
    assert [GUID + hex][0] == GUID + hex;
    assert [MAGIC, "adapter=present"] + [GUID + hex] == [MAGIC, "adapter=present", GUID + hex];
  }

  lemma LinesUnbroken(s: Snapshot)
    requires WellFormed(s)
    ensures Unbroken(Lines(s))
  {
    if s.Present? {
      BodyUnbroken(s.interfaces, s.addresses, s.routes, s.dns);
      HexPlain(s.guid);
      HeadUnbroken(Hex(s.guid));
    }
  }

  lemma {:induction false} BytesJoin(lines: seq<string>)
    requires |lines| >= 1 && Unbroken(lines)
    ensures IsBytes(Join(lines, '\n'))
  {
    if |lines| > 1 { BytesJoin(lines[1..]); }
  }

  lemma PresentLines(s: Snapshot, hex: string, body: seq<string>)
    requires s.Present? && |hex| == 32 && Unhex(hex) == Some(s.guid) && |s.interfaces| == 2 && |s.dns| == 2
    requires AddLines(Present(s.guid, [], [], [], []), body) == Some(s)
    ensures ParseLines([MAGIC, "adapter=present", GUID + hex] + body) == Some(s)
  {
    var lines := [MAGIC, "adapter=present", GUID + hex] + body;
    assert lines[3..] == body && lines[2] == GUID + hex;
    assert lines[1] == "adapter=present" && lines[1] != "adapter=absent";
  }

  lemma SnapshotLines(s: Snapshot)
    requires WellFormed(s)
    ensures ParseLines(Lines(s)) == Some(s)
  {
    if s.Present? {
      AddRecords(s.guid, s.interfaces, s.addresses, s.routes, s.dns);
      HexPlain(s.guid);
      PresentLines(s, Hex(s.guid), Records(s.interfaces, s.addresses, s.routes, s.dns));
    }
  }

  lemma SnapshotRoundTrip(s: Snapshot)
    requires WellFormed(s)
    ensures ParseSnapshot(Serialize(s)) == Some(s) && IsBytes(Serialize(s)) && Serialize(s) != ""
  {
    LinesUnbroken(s);
    SplitJoin(Lines(s), '\n');
    BytesJoin(Lines(s));
    SnapshotLines(s);
    var text := Serialize(s);
    assert text[..|text| - 1] == Join(Lines(s), '\n');
  }

  /** A captured network state survives Serialize, the hex journal, Load and ParseSnapshot unchanged. */
  lemma DurableRoundTrip(s: Snapshot, stage: Journal.Stage, generation: string)
    requires WellFormed(s) && |Serialize(s)| <= Journal.MAX_SNAPSHOT
    requires !stage.Clean? && Journal.IsHexGeneration(generation) && generation != Journal.ZERO
    ensures IsBytes(Serialize(s))
    ensures var e := Journal.Entry(stage, generation, Serialize(s));
            && |Journal.Format(e)| <= Journal.MAX_JOURNAL
            && Journal.Parse(Journal.Format(e)) == Some(e)
            && ParseSnapshot(e.snapshot) == Some(s)
  {
    SnapshotRoundTrip(s);
    Journal.FormatSize(Journal.Entry(stage, generation, Serialize(s)));
    Journal.JournalRoundTrip(Journal.Entry(stage, generation, Serialize(s)));
  }
}
