/** The client reads back exactly the values a snapshot's text was printed from. */
module SnapshotReading {
  import opened Wrappers
  import opened Text
  import opened Substring
  import opened FieldText
  import opened SnapshotNames
  import opened RuntimeSnapshot
  import opened SnapshotText

  // ----- fields by key --------------------------------------------------------------------------

  lemma Avoids(n: Names, keys: seq<Key>, values: seq<string>, k: Key)
    requires Naming(n) && |keys| == |values|
    ensures NoName(Fields(n, keys, values), n(k)) <==> k !in keys
  {
    var fields := Fields(n, keys, values);
    if k in keys {
      var i :| 0 <= i < |keys| && keys[i] == k;
      assert fields[i].name == n(k);
    }
  }

  lemma PlanConcat(n: Names, a: seq<Key>, b: seq<Key>, has: Key -> bool)
    ensures Plan(n, a, has) + Plan(n, b, has) == Plan(n, a + b, has)
  {
  }

  lemma ShownPresent(n: Names, keys: seq<Key>, values: seq<string>, has: Key -> bool)
    requires |keys| == |values| && forall i :: 0 <= i < |keys| ==> Present(keys[i], has)
    ensures Shown(Plan(n, keys, has), values) == Fields(n, keys, values)
  {
    ShownWhole(Plan(n, keys, has), values);
  }

  lemma ShownNothing(n: Names, keys: seq<Key>, values: seq<string>, has: Key -> bool)
    requires |keys| == |values| && forall i :: 0 <= i < |keys| ==>
             !Present(keys[i], has) && values[i] == Absent(keys[i])
    ensures Shown(Plan(n, keys, has), values) == []
  {
    ReadsAbsent("", Plan(n, keys, has), values);
  }

  lemma ReadsPlan(n: Names, text: string, keys: seq<Key>, values: seq<string>, m: nat)
    requires AllFit(Plan(n, keys, Finder(n, text)), values) && Closed(Plan(n, keys, Finder(n, text)), m)
    requires Shown(Plan(n, keys, Finder(n, text)), values) != []
    requires text == Write(Shown(Plan(n, keys, Finder(n, text)), values))
    ensures ReadKeys(n, text, keys) == Some(values)
  {
    assert text[0..] == text;
    ReadsAll(text, 0, Plan(n, keys, Finder(n, text)), values, m);
  }

  /** The searches in a text of fields find exactly the fields behind the first. */
  lemma HasField(n: Names, fields: seq<Field>, k: Key)
    requires Naming(n) && |fields| >= 1 && AreFields(fields)
    ensures Finder(n, Write(fields))(k) <==> !NoName(fields[1..], n(k))
  {
    ShowPlain(fields[0]);
    Found(Show(fields[0]), fields[1..], n(k));
  }

  // ----- the DPI block ------------------------------------------------------------------------

  lemma DpiClosed(n: Names, has: Key -> bool)
    ensures Closed(Plan(n, DPI, has), 5) && forall i :: 0 <= i < 6 ==> Present(DPI[i], has)
  {
  }

  lemma DpiReads(n: Names, d: DpiText)
    requires Naming(n) && AreValues(DpiValues(d))
    ensures ReadDpi(n, Write(DpiFields(n, Some(d)))) == Some(d)
  {
    var (text, v) := (Write(DpiFields(n, Some(d))), DpiValues(d));
    DpiClosed(n, Finder(n, text));
    ShownPresent(n, DPI, v, Finder(n, text));
    ReadsPlan(n, text, DPI, v, 5);
  }

  // ----- the probe block ----------------------------------------------------------------------

  predicate ProbeAreValues(p: ProbeText) {
    AreValues(ReportValues(p)) && IsValue(p.local) && (p.target.Some? ==> AreValues(TargetValues(p.target.value)))
  }

  function TargetOr(p: ProbeText): seq<string> { if p.target.None? then ["", "", ""] else TargetValues(p.target.value) }

  lemma TargetAre(n: Names, t: Option<TargetText>)
    requires Naming(n) && (t.Some? ==> AreValues(TargetValues(t.value)))
    ensures AreFields(TargetFields(n, t))
    ensures NoName(TargetFields(n, t), n(Key.ProbeTarget)) <==> t.None?
    ensures NoName(TargetFields(n, t), n(Key.ProofPending))
  {
    if t.Some? {
      Avoids(n, TARGET, TargetValues(t.value), Key.ProbeTarget);
      Avoids(n, TARGET, TargetValues(t.value), Key.ProofPending);
    }
  }

  lemma ReportAre(n: Names, p: ProbeText)
    requires Naming(n) && ProbeAreValues(p)
    ensures var q := Fields(n, REPORT, ReportValues(p));
            AreFields(q) && |q| == 6 && q[0].name == n(Key.ProbeStage) && q[5].name == n(Key.FirstDns)
            && NoName(q, n(Key.ProbeTarget)) && NoName(q, n(Key.ProofPending))
  {
    Avoids(n, REPORT, ReportValues(p), Key.ProbeTarget);
    Avoids(n, REPORT, ReportValues(p), Key.ProofPending);
  }

  lemma LocalAre(n: Names, p: ProbeText)
    requires Naming(n) && ProbeAreValues(p)
    ensures var q := Fields(n, LOCAL, [p.local]);
            AreFields(q) && |q| == 1 && q[0].name == n(Key.HttpLocal)
            && NoName(q, n(Key.ProbeTarget)) && NoName(q, n(Key.ProofPending))
  {
  }

  lemma ProbeAre(n: Names, p: ProbeText)
    requires Naming(n) && ProbeAreValues(p)
    ensures var q := ProbeFields(n, Some(p));
            AreFields(q) && |q| >= 7 && q[0].name == n(Key.ProbeStage) && NoName(q, n(Key.ProofPending))
  {
    ReportAre(n, p);
    TargetAre(n, p.target);
    LocalAre(n, p);
    var (a, b, c) := (Fields(n, REPORT, ReportValues(p)), TargetFields(n, p.target), Fields(n, LOCAL, [p.local]));
    Three(a, b, c, n(Key.ProofPending));
  }

  lemma Three(a: seq<Field>, b: seq<Field>, c: seq<Field>, name: string)
    requires AreFields(a) && AreFields(b) && AreFields(c) && NoName(a, name) && NoName(b, name) && NoName(c, name)
    ensures AreFields(a + b + c) && NoName(a + b + c, name)
  {
  }

  lemma ProbeNames(q: seq<Field>, a: seq<Field>, b: seq<Field>, c: seq<Field>, dns: string, target: string,
                   local: string)
    requires q == a + b + c && |a| == 6 && |c| == 1 && a[5].name == dns && c[0].name == local && NoName(a, target)
             && NoName(c, target)
    ensures !NoName(q[1..], dns) && !NoName(q[1..], local) && (NoName(q[1..], target) <==> NoName(b, target))
  {
    assert q[1..][4].name == dns && q[1..][|q| - 2].name == local;
    if !NoName(b, target) {
      var i :| 0 <= i < |b| && b[i].name == target;
      assert q[1..][5 + i].name == target;
    }
  }

  /** What the three searches in the probe block find. */
  lemma ProbeHas(n: Names, p: ProbeText)
    requires Naming(n) && ProbeAreValues(p)
    ensures var has := Finder(n, Write(ProbeFields(n, Some(p))));
            has(Key.FirstDns) && has(Key.HttpLocal) && (has(Key.ProbeTarget) <==> p.target.Some?)
  {
    var q := ProbeFields(n, Some(p));
    ProbeAre(n, p);
    ReportAre(n, p);
    TargetAre(n, p.target);
    LocalAre(n, p);
    ProbeNames(q, Fields(n, REPORT, ReportValues(p)), TargetFields(n, p.target), Fields(n, LOCAL, [p.local]),
               n(Key.FirstDns), n(Key.ProbeTarget), n(Key.HttpLocal));
    HasField(n, q, Key.FirstDns);
    HasField(n, q, Key.HttpLocal);
    HasField(n, q, Key.ProbeTarget);
  }

  lemma ProbeClosed(n: Names, has: Key -> bool)
    requires has(Key.FirstDns) && has(Key.HttpLocal)
    ensures Closed(Plan(n, REPORT + TARGET + LOCAL, has), 9)
  {
  }

  lemma TargetShown(n: Names, p: ProbeText, has: Key -> bool)
    requires has(Key.ProbeTarget) <==> p.target.Some?
    ensures Shown(Plan(n, TARGET, has), TargetOr(p)) == TargetFields(n, p.target)
  {
    if p.target.Some? { ShownPresent(n, TARGET, TargetOr(p), has); } else { ShownNothing(n, TARGET, TargetOr(p), has); }
  }

  /** Three runs of reads show what each shows. */
  lemma Shown3(n: Names, a: seq<Key>, av: seq<string>, b: seq<Key>, bv: seq<string>, c: seq<Key>, cv: seq<string>,
               has: Key -> bool)
    requires |a| == |av| && |b| == |bv| && |c| == |cv|
    ensures Shown(Plan(n, a + b + c, has), av + bv + cv)
            == Shown(Plan(n, a, has), av) + Shown(Plan(n, b, has), bv) + Shown(Plan(n, c, has), cv)
  {
    PlanConcat(n, a, b, has);
    PlanConcat(n, a + b, c, has);
    ShownConcat(Plan(n, a, has), av, Plan(n, b, has), bv);
    ShownConcat(Plan(n, a + b, has), av + bv, Plan(n, c, has), cv);
  }

  lemma ProbeShown(n: Names, p: ProbeText, has: Key -> bool)
    requires has(Key.FirstDns) && has(Key.HttpLocal) && (has(Key.ProbeTarget) <==> p.target.Some?)
    ensures Shown(Plan(n, REPORT + TARGET + LOCAL, has), ReportValues(p) + TargetOr(p) + [p.local])
            == ProbeFields(n, Some(p))
  {
    Shown3(n, REPORT, ReportValues(p), TARGET, TargetOr(p), LOCAL, [p.local], has);
    ReportShown(n, p, has);
    TargetShown(n, p, has);
  }

  lemma ReportShown(n: Names, p: ProbeText, has: Key -> bool)
    requires has(Key.FirstDns) && has(Key.HttpLocal)
    ensures Shown(Plan(n, REPORT, has), ReportValues(p)) == Fields(n, REPORT, ReportValues(p))
    ensures Shown(Plan(n, LOCAL, has), [p.local]) == Fields(n, LOCAL, [p.local])
  {
    ShownPresent(n, REPORT, ReportValues(p), has);
    ShownPresent(n, LOCAL, [p.local], has);
  }

  lemma PresentFits(n: Names, keys: seq<Key>, values: seq<string>, has: Key -> bool)
    requires Naming(n) && |keys| == |values| && AreValues(values)
             && forall i :: 0 <= i < |keys| ==> Present(keys[i], has)
    ensures AllFit(Plan(n, keys, has), values)
  {
  }

  lemma AbsentFits(n: Names, keys: seq<Key>, values: seq<string>, has: Key -> bool)
    requires |keys| == |values| && forall i :: 0 <= i < |keys| ==>
             !Present(keys[i], has) && values[i] == Absent(keys[i])
    ensures AllFit(Plan(n, keys, has), values)
  {
  }

  lemma Fits3(n: Names, a: seq<Key>, av: seq<string>, b: seq<Key>, bv: seq<string>, c: seq<Key>, cv: seq<string>,
              has: Key -> bool)
    requires AllFit(Plan(n, a, has), av) && AllFit(Plan(n, b, has), bv) && AllFit(Plan(n, c, has), cv)
    ensures AllFit(Plan(n, a + b + c, has), av + bv + cv)
  {
    PlanConcat(n, a, b, has);
    PlanConcat(n, a + b, c, has);
  }

  lemma ProbeFits(n: Names, p: ProbeText, has: Key -> bool)
    requires Naming(n) && ProbeAreValues(p) && has(Key.FirstDns) && has(Key.HttpLocal)
             && (has(Key.ProbeTarget) <==> p.target.Some?)
    ensures AllFit(Plan(n, REPORT + TARGET + LOCAL, has), ReportValues(p) + TargetOr(p) + [p.local])
  {
    PresentFits(n, REPORT, ReportValues(p), has);
    PresentFits(n, LOCAL, [p.local], has);
    if p.target.Some? { PresentFits(n, TARGET, TargetOr(p), has); } else { AbsentFits(n, TARGET, TargetOr(p), has); }
    Fits3(n, REPORT, ReportValues(p), TARGET, TargetOr(p), LOCAL, [p.local], has);
  }

  lemma ProbeOf(n: Names, text: string, p: ProbeText)
    requires ReadKeys(n, text, REPORT + TARGET + LOCAL) == Some(ReportValues(p) + TargetOr(p) + [p.local])
    requires Has(n, text, Key.ProbeTarget) <==> p.target.Some?
    ensures ReadProbe(n, text) == Some(p)
  {
  }

  lemma ProbeReads(n: Names, p: ProbeText)
    requires Naming(n) && ProbeAreValues(p)
    ensures ReadProbe(n, Write(ProbeFields(n, Some(p)))) == Some(p)
  {
    var text := Write(ProbeFields(n, Some(p)));
    ProbeHas(n, p);
    ProbeShown(n, p, Finder(n, text));
    ProbeFits(n, p, Finder(n, text));
    ProbeClosed(n, Finder(n, text));
    ReadsPlan(n, text, REPORT + TARGET + LOCAL, ReportValues(p) + TargetOr(p) + [p.local], 9);
    ProbeOf(n, text, p);
  }

  // ----- the base fields ----------------------------------------------------------------------

  predicate AreFlags(b: Body) {
    (b.proof.Some? ==> IsValue(b.proof.value)) && (b.lease.Some? ==> b.proof.Some? && IsValue(b.lease.value))
  }
  function FlagOr(flag: Option<string>): string { if flag.None? then "0" else flag.value }

  lemma FlagAre(n: Names, keys: seq<Key>, flag: Option<string>, k: Key)
    requires Naming(n) && |keys| == 1 && (flag.Some? ==> IsValue(flag.value))
    ensures AreFields(FlagField(n, keys, flag))
    ensures NoName(FlagField(n, keys, flag), n(k)) <==> flag.None? || keys[0] != k
  {
    if flag.Some? { Avoids(n, keys, [flag.value], k); }
  }

  lemma TransportAre(n: Names, b: Body, k: Key)
    requires Naming(n) && AreFlags(b)
    ensures var t := TransportFields(n, b);
            && AreFields(t) && (t != [] ==> t[0].name == n(Key.ProofPending))
            && (NoName(t, n(k)) <==> !(k.ProofPending? && b.proof.Some?) && !(k.LeaseActive? && b.lease.Some?))
  {
    FlagAre(n, PROOF, b.proof, k);
    FlagAre(n, LEASE, b.lease, k);
    NoNameConcat(FlagField(n, PROOF, b.proof), FlagField(n, LEASE, b.lease), n(k));
  }

  lemma NoNameConcat(a: seq<Field>, b: seq<Field>, name: string)
    ensures NoName(a + b, name) <==> NoName(a, name) && NoName(b, name)
  {
    if NoName(a + b, name) {
      forall i | 0 <= i < |a| ensures a[i].name != name { assert (a + b)[i] == a[i]; }
      forall i | 0 <= i < |b| ensures b[i].name != name { assert (a + b)[|a| + i] == b[i]; }
    }
  }

  lemma BaseAre(n: Names, b: Body)
    requires Naming(n) && AreValues(BaseValues(b))
    ensures AreFields(BaseFields(n, b)) && |BaseFields(n, b)| == 20
  {
  }

  lemma BaseAvoids(n: Names, b: Body, k: Key)
    requires Naming(n) && k !in BASE
    ensures NoName(BaseFields(n, b)[1..], n(k)) && NoName(BaseFields(n, b), n(k))
  {
    Avoids(n, BASE, BaseValues(b), k);
  }

  function BaseText(n: Names, b: Body): string { Write(BaseFields(n, b) + TransportFields(n, b)) }

  lemma HasBase(n: Names, b: Body, i: nat)
    requires Naming(n) && AreValues(BaseValues(b)) && AreFlags(b) && 1 <= i < 20
    ensures Finder(n, BaseText(n, b))(BASE[i])
  {
    var fields := BaseFields(n, b) + TransportFields(n, b);
    BaseAre(n, b);
    TransportAre(n, b, BASE[i]);
    HasField(n, fields, BASE[i]);
    assert fields[1..][i - 1].name == n(BASE[i]);
  }

  lemma HasFlag(n: Names, b: Body, k: Key)
    requires Naming(n) && AreValues(BaseValues(b)) && AreFlags(b) && (k.ProofPending? || k.LeaseActive?)
    ensures Finder(n, BaseText(n, b))(k) <==> if k.ProofPending? then b.proof.Some? else b.lease.Some?
  {
    var (a, t) := (BaseFields(n, b), TransportFields(n, b));
    BaseAre(n, b);
    BaseAvoids(n, b, k);
    TransportAre(n, b, k);
    HasField(n, a + t, k);
    NoNameConcat(a[1..], t, n(k));
    assert (a + t)[1..] == a[1..] + t;
  }

  /** Every optional base field is there. */
  predicate AllThere(has: Key -> bool) {
    && has(Key.CatalogWindow) && has(Key.SmartAccess) && has(Key.CatalogControl) && has(Key.RuntimeControl)
    && has(Key.Capabilities)
    && has(Key.CoreModule) && has(Key.CoreVersion) && has(Key.Slipstream) && has(Key.Retained) && has(Key.DpiVersion)
  }

  lemma BaseHas(n: Names, b: Body)
    requires Naming(n) && AreValues(BaseValues(b)) && AreFlags(b)
    ensures AllThere(Finder(n, BaseText(n, b)))
  {
    HasBase(n, b, 10);
    HasBase(n, b, 11);
    HasBase(n, b, 12);
    HasBase(n, b, 13);
    HasBase(n, b, 14);
    HasBase(n, b, 15);
    HasBase(n, b, 16);
    HasBase(n, b, 17);
    HasBase(n, b, 18);
    HasBase(n, b, 19);
  }

  lemma BasePlan(has: Key -> bool)
    requires AllThere(has)
    ensures forall i :: 0 <= i < 20 ==>
            Present(BASE[i], has) && (IsLast(BASE[i], has) <==> i == 19 && !has(Key.ProofPending))
  {
    forall i | 0 <= i < 20 ensures Present(BASE[i], has)
        && (IsLast(BASE[i], has) <==> i == 19 && !has(Key.ProofPending)) {
    }
  }

  lemma BaseClosed(n: Names, has: Key -> bool)
    requires AllThere(has) && (has(Key.LeaseActive) ==> has(Key.ProofPending))
    ensures Closed(Plan(n, BASE + PROOF + LEASE, has), if has(Key.LeaseActive) then 21
            else if has(Key.ProofPending) then 20 else 19)
  {
    BasePlan(has);
    var keys := BASE + PROOF + LEASE;
    assert keys[20] == Key.ProofPending && keys[21] == Key.LeaseActive;
  }

  lemma FlagShown(n: Names, k: Key, flag: Option<string>, has: Key -> bool)
    requires Naming(n) && (flag.Some? ==> IsValue(flag.value)) && (k.ProofPending? || k.LeaseActive?)
             && (has(k) <==> flag.Some?)
    ensures Shown(Plan(n, [k], has), [FlagOr(flag)]) == FlagField(n, [k], flag)
    ensures AllFit(Plan(n, [k], has), [FlagOr(flag)])
  {
    if flag.Some? {
      ShownPresent(n, [k], [flag.value], has);
    } else {
      ShownNothing(n, [k], ["0"], has);
    }
  }

  lemma BaseShown(n: Names, b: Body, has: Key -> bool)
    requires Naming(n) && AreValues(BaseValues(b)) && AreFlags(b) && AllThere(has)
    requires (has(Key.ProofPending) <==> b.proof.Some?) && (has(Key.LeaseActive) <==> b.lease.Some?)
    ensures var (steps, v) := (Plan(n, BASE + PROOF + LEASE, has),
            BaseValues(b) + [FlagOr(b.proof)] + [FlagOr(b.lease)]);
            AllFit(steps, v) && Shown(steps, v) == BaseFields(n, b) + TransportFields(n, b)
  {
    BasePlan(has);
    Shown3(n, BASE, BaseValues(b), PROOF, [FlagOr(b.proof)], LEASE, [FlagOr(b.lease)], has);
    PresentFits(n, BASE, BaseValues(b), has);
    ShownPresent(n, BASE, BaseValues(b), has);
    FlagShown(n, Key.ProofPending, b.proof, has);
    FlagShown(n, Key.LeaseActive, b.lease, has);
    Fits3(n, BASE, BaseValues(b), PROOF, [FlagOr(b.proof)], LEASE, [FlagOr(b.lease)], has);
  }

  lemma BaseOf(n: Names, text: string, b: Body)
    requires ReadKeys(n, text, BASE + PROOF + LEASE) == Some(BaseValues(b) + [FlagOr(b.proof)] + [FlagOr(b.lease)])
    requires |text| <= MAX_SNAPSHOT && Coherent(Finder(n, text)) && Has(n, text, Key.Retained) && b.retainedKnown
    requires (Has(n, text, Key.ProofPending) <==> b.proof.Some?) && (Has(n, text, Key.LeaseActive) <==> b.lease.Some?)
    ensures ReadBase(n, text, b.dpi, b.probe) == Some(b)
  {
  }

  lemma BaseReads(n: Names, b: Body)
    requires Naming(n) && AreValues(BaseValues(b)) && AreFlags(b) && b.retainedKnown && |BaseText(n, b)| <= MAX_SNAPSHOT
    ensures ReadBase(n, BaseText(n, b), b.dpi, b.probe) == Some(b)
  {
    var text := BaseText(n, b);
    BaseHas(n, b);
    HasFlag(n, b, Key.ProofPending);
    HasFlag(n, b, Key.LeaseActive);
    BaseShown(n, b, Finder(n, text));
    BaseClosed(n, Finder(n, text));
    ReadsPlan(n, text, BASE + PROOF + LEASE, BaseValues(b) + [FlagOr(b.proof)] + [FlagOr(b.lease)],
              if b.lease.Some? then 21 else if b.proof.Some? then 20 else 19);
    BaseOf(n, text, b);
  }

  // ----- the whole text -----------------------------------------------------------------------

  predicate AreTexts(b: Body) {
    && AreValues(BaseValues(b)) && AreFlags(b) && (b.dpi.Some? ==> AreValues(DpiValues(b.dpi.value)))
    && (b.probe.Some? ==> ProbeAreValues(b.probe.value))
  }

  lemma DpiAre(n: Names, d: Option<DpiText>)
    requires Naming(n) && (d.Some? ==> AreValues(DpiValues(d.value)))
    ensures var p := DpiFields(n, d);
            && AreFields(p) && (p == [] <==> d.None?) && (p != [] ==> p[0].name == n(Key.DpiServices))
            && NoName(p, n(Key.ProbeStage)) && NoName(p, n(Key.ProofPending))
  {
    if d.Some? {
      Avoids(n, DPI, DpiValues(d.value), Key.ProbeStage);
      Avoids(n, DPI, DpiValues(d.value), Key.ProofPending);
    }
  }

  lemma BlockAre(n: Names, p: Option<ProbeText>)
    requires Naming(n) && (p.Some? ==> ProbeAreValues(p.value))
    ensures var q := ProbeFields(n, p);
            && AreFields(q) && (q == [] <==> p.None?) && (q != [] ==> q[0].name == n(Key.ProbeStage))
            && NoName(q, n(Key.ProofPending))
  {
    if p.Some? { ProbeAre(n, p.value); }
  }

  /** The text once the probe block is gone. */
  function Kept(n: Names, b: Body): string { Write(BaseFields(n, b) + DpiFields(n, b.dpi) + TransportFields(n, b)) }

  lemma NothingBehind(a: seq<Field>, b: seq<Field>)
    requires b == []
    ensures a + b == a
  {
  }

  lemma FrontAre(n: Names, b: Body)
    requires Naming(n) && AreTexts(b)
    ensures var a := BaseFields(n, b) + DpiFields(n, b.dpi);
            AreFields(a) && |a| >= 1 && NoName(a[1..], n(Key.ProbeStage))
  {
    var (a, p) := (BaseFields(n, b), DpiFields(n, b.dpi));
    BaseAre(n, b);
    BaseAvoids(n, b, Key.ProbeStage);
    DpiAre(n, b.dpi);
    NoNameConcat(a[1..], p, n(Key.ProbeStage));
    assert (a + p)[1..] == a[1..] + p;
  }

  lemma CutProbe(n: Names, b: Body)
    requires Naming(n) && AreTexts(b)
    ensures CutBlock(TextOf(n, b), Needle(n(Key.ProbeStage)), Needle(n(Key.ProofPending)))
            == if b.probe.None? then None else Some(Block(Write(ProbeFields(n, b.probe)), Kept(n, b)))
    ensures b.probe.None? ==> TextOf(n, b) == Kept(n, b)
  {
    FrontAre(n, b);
    BlockAre(n, b.probe);
    TransportAre(n, b, Key.ProbeStage);
    CutMiddle(BaseFields(n, b) + DpiFields(n, b.dpi), ProbeFields(n, b.probe), TransportFields(n, b), n(Key.ProbeStage),
        n(Key.ProofPending));
    if b.probe.None? { NothingBehind(BaseFields(n, b) + DpiFields(n, b.dpi), ProbeFields(n, b.probe)); }
  }

  lemma CutDpi(n: Names, b: Body)
    requires Naming(n) && AreTexts(b)
    ensures CutBlock(Kept(n, b), Needle(n(Key.DpiServices)), Needle(n(Key.ProofPending)))
            == if b.dpi.None? then None else Some(Block(Write(DpiFields(n, b.dpi)), BaseText(n, b)))
    ensures b.dpi.None? ==> Kept(n, b) == BaseText(n, b)
  {
    BaseAre(n, b);
    BaseAvoids(n, b, Key.DpiServices);
    DpiAre(n, b.dpi);
    TransportAre(n, b, Key.DpiServices);
    CutMiddle(BaseFields(n, b), DpiFields(n, b.dpi), TransportFields(n, b), n(Key.DpiServices), n(Key.ProofPending));
    if b.dpi.None? { NothingBehind(BaseFields(n, b), DpiFields(n, b.dpi)); }
  }

  /** What the parser makes of the two cuts. */
  lemma BodyOf(n: Names, text: string, kept: string, base: string, b: Body)
    requires var cut := CutBlock(text, Needle(n(Key.ProbeStage)), Needle(n(Key.ProofPending)));
             if b.probe.None? then cut.None? && kept == text
             else cut.Some? && cut.value.rest == kept && ReadProbe(n, cut.value.body) == b.probe
    requires var cut := CutBlock(kept, Needle(n(Key.DpiServices)), Needle(n(Key.ProofPending)));
             if b.dpi.None? then cut.None? && base == kept
             else cut.Some? && cut.value.rest == base && ReadDpi(n, cut.value.body) == b.dpi
    ensures ReadBody(n, text) == ReadBase(n, base, b.dpi, b.probe)
  {
  }

  /** The text of a body reads back as that body. */
  lemma BodyReads(n: Names, b: Body)
    requires Naming(n) && AreTexts(b) && b.retainedKnown && |BaseText(n, b)| <= MAX_SNAPSHOT
    ensures ReadBody(n, TextOf(n, b)) == Some(b)
  {
    CutProbe(n, b);
    CutDpi(n, b);
    if b.probe.Some? { ProbeReads(n, b.probe.value); }
    if b.dpi.Some? { DpiReads(n, b.dpi.value); }
    BodyOf(n, TextOf(n, b), Kept(n, b), BaseText(n, b), b);
    BaseReads(n, b);
  }
}
