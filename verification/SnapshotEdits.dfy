/** The dispatcher's edits of a snapshot's text change exactly the fields they are meant to. */
module SnapshotEdits {
  import opened Wrappers
  import opened Text
  import opened Substring
  import opened FieldText
  import opened SnapshotNames
  import opened RuntimeSnapshot
  import opened SnapshotText
  import opened SnapshotReading

  /** What stands behind the base fields. */
  function Behind20(n: Names, b: Body): seq<Field> {
    DpiFields(n, b.dpi) + ProbeFields(n, b.probe) + TransportFields(n, b)
  }

  lemma AllOf(n: Names, b: Body)
    ensures AllFields(n, b) == BaseFields(n, b) + Behind20(n, b)
  {
  }

  lemma BlockKeys(k: Key)
    requires IsBase(k)
    ensures k !in DPI && k !in REPORT && k !in TARGET && k !in LOCAL
  {
  }

  /** The optional blocks have no base field. */
  lemma BlocksAvoid(n: Names, b: Body, k: Key)
    requires Naming(n) && IsBase(k)
    ensures NoName(DpiFields(n, b.dpi), n(k)) && NoName(ProbeFields(n, b.probe), n(k))
  {
    BlockKeys(k);
    if b.dpi.Some? { Avoids(n, DPI, DpiValues(b.dpi.value), k); }
    if b.probe.Some? { ProbeAvoids(n, b.probe.value, k); }
  }

  lemma ProbeAvoids(n: Names, p: ProbeText, k: Key)
    requires Naming(n) && IsBase(k)
    ensures NoName(ProbeFields(n, Some(p)), n(k))
  {
    var (a, b, c) := (Fields(n, REPORT, ReportValues(p)), TargetFields(n, p.target), Fields(n, LOCAL, [p.local]));
    BlockKeys(k);
    Avoids(n, REPORT, ReportValues(p), k);
    Avoids(n, LOCAL, [p.local], k);
    if p.target.Some? { Avoids(n, TARGET, TargetValues(p.target.value), k); }
    NoNameConcat(a, b, n(k));
    NoNameConcat(a + b, c, n(k));
  }

  lemma BehindAre(n: Names, b: Body, k: Key)
    requires Naming(n) && AreTexts(b) && IsBase(k)
    ensures AreFields(Behind20(n, b)) && NoName(Behind20(n, b), n(k))
  {
    DpiAre(n, b.dpi);
    BlockAre(n, b.probe);
    TransportAre(n, b, k);
    BlocksAvoid(n, b, k);
    Three(DpiFields(n, b.dpi), ProbeFields(n, b.probe), TransportFields(n, b), n(k));
  }

  /** The base field at `i` is the only one of its name. */
  lemma BaseOnly(n: Names, b: Body, i: nat, k: Key)
    requires Naming(n) && AreTexts(b) && (i == 5 || i == 9) && k == BASE[i]
    ensures var all := AllFields(n, b);
            AreFields(all) && all[i].name == n(k) && NoName(all[1..i], n(k)) && NoName(all[i + 1..], n(k))
  {
    AllOf(n, b);
    BaseAre(n, b);
    BehindAre(n, b, BASE[i]);
    KeyOnce(i);
  }

  lemma KeyOnce(i: nat)
    requires i == 5 || i == 9
    ensures forall j :: 0 <= j < 20 && j != i ==> BASE[j] != BASE[i]
  {
  }

  // ----- another failure ----------------------------------------------------------------------

  lemma FailureFields(n: Names, b: Body, code: string)
    ensures AllFields(n, b.(failure := code)) == AllFields(n, b)[9 := Field(n(Key.Failure), code)]
  {
    var c := b.(failure := code);
    assert BaseValues(c) == BaseValues(b)[9 := code];
    assert BaseFields(n, c) == BaseFields(n, b)[9 := Field(n(Key.Failure), code)];
    AllOf(n, b);
    AllOf(n, c);
  }

  lemma FailureReplaced(n: Names, b: Body, code: string)
    requires Naming(n) && AreTexts(b)
    ensures ReplaceField(TextOf(n, b), Needle(n(Key.Failure)), code) == Some(TextOf(n, b.(failure := code)))
  {
    BaseOnly(n, b, 9, Key.Failure);
    FailureFields(n, b, code);
    ReplaceNth(AllFields(n, b), 9, code);
  }

  lemma FailureTexts(b: Body, code: string)
    requires AreTexts(b) && IsValue(code)
    ensures AreTexts(b.(failure := code))
  {
    assert BaseValues(b.(failure := code)) == BaseValues(b)[9 := code];
  }

  /** Replacing the failure in the text and cutting the probe block is replacing both values. */
  lemma FailureCommutes(n: Names, b: Body, code: string)
    requires Naming(n) && AreTexts(b) && IsValue(code)
    ensures WithFailureText(n, TextOf(n, b), code) == TextOf(n, WithFailure(b, Some(code)))
  {
    var c := b.(failure := code);
    FailureReplaced(n, b, code);
    FailureTexts(b, code);
    CutProbe(n, c);
    CutProbe(n, c.(probe := None));
  }

  /** A stored snapshot may be given another failure again and again. */
  function FailuresText(n: Names, text: string, codes: seq<string>): string {
    if codes == [] then text else WithFailureText(n, FailuresText(n, text, codes[..|codes| - 1]), codes[|codes| - 1])
  }

  function LastCode(codes: seq<string>): Option<string> { if codes == [] then None else Some(codes[|codes| - 1]) }

  /** Of all the failures written into a text the last one counts, and one is enough to drop the probe. */
  lemma {:induction false} FailuresCommute(n: Names, b: Body, codes: seq<string>)
    requires Naming(n) && AreTexts(b) && forall i :: 0 <= i < |codes| ==> IsValue(codes[i])
    ensures FailuresText(n, TextOf(n, b), codes) == TextOf(n, WithFailure(b, LastCode(codes)))
    decreases |codes|
  {
    if codes != [] {
      var (front, code) := (codes[..|codes| - 1], codes[|codes| - 1]);
      FailuresCommute(n, b, front);
      var c := WithFailure(b, LastCode(front));
      if front != [] { FailureTexts(b, LastCode(front).value); }
      assert BaseValues(c) == BaseValues(b.(failure := c.failure));
      FailureCommutes(n, c, code);
    }
  }

  // ----- the transport state --------------------------------------------------------------------

  lemma MaskFields(n: Names, b: Body)
    ensures AllFields(n, b.(egress := "0", dns := "0"))
            == AllFields(n, b)[5 := Field(n(Key.Egress), "0")][6 := Field(n(Key.DnsReady), "0")]
  {
    var c := b.(egress := "0", dns := "0");
    assert BaseValues(c) == BaseValues(b)[5 := "0"][6 := "0"];
    assert BaseFields(n, c) == BaseFields(n, b)[5 := Field(n(Key.Egress), "0")][6 := Field(n(Key.DnsReady), "0")];
    AllOf(n, b);
    AllOf(n, c);
  }

  lemma OneFurther(fields: seq<Field>, i: nat, name: string)
    requires i < |fields| && NoName(fields[i..], name)
    ensures NoName(fields[i + 1..], name)
  {
    assert fields[i + 1..] == fields[i..][1..];
  }

  lemma PairIsHere(n: Names, b: Body, on: bool)
    requires Naming(n) && AreTexts(b) && b.egress == b.dns == Bit(on)
    ensures PairHere(AllFields(n, b), 5, n(Key.Egress), n(Key.DnsReady), on)
  {
    BaseOnly(n, b, 5, Key.Egress);
    MakePair(AllFields(n, b), n(Key.Egress), n(Key.DnsReady), Bit(on), on);
  }

  lemma MakePair(fields: seq<Field>, first: string, second: string, v: string, on: bool)
    requires AreFields(fields) && |fields| >= 7 && first != second && v == Bit(on)
    requires NoName(fields[1..5], first) && NoName(fields[6..], first)
    requires fields[5] == Field(first, v) && fields[6] == Field(second, v)
    ensures PairHere(fields, 5, first, second, on)
  {
    OneFurther(fields, 6, first);
  }

  lemma Masked(n: Names, b: Body, on: bool)
    requires Naming(n) && AreTexts(b) && b.egress == b.dns == Bit(on)
    ensures ReplaceFirst(TextOf(n, b), Pair(n(Key.Egress), n(Key.DnsReady), "1"),
            Pair(n(Key.Egress), n(Key.DnsReady), "0"))
            == TextOf(n, b.(egress := "0", dns := "0"))
  {
    PairIsHere(n, b, on);
    MaskFields(n, b);
    MaskNth(AllFields(n, b), AllFields(n, b.(egress := "0", dns := "0")), 5, n(Key.Egress), n(Key.DnsReady), on);
  }

  lemma AppendProof(n: Names, b: Body, v: string)
    requires b.proof.None? && b.lease.None?
    ensures TextOf(n, b) + (Needle(n(Key.ProofPending)) + v) == TextOf(n, b.(proof := Some(v)))
  {
    var f := Field(n(Key.ProofPending), v);
    assert Fields(n, PROOF, [v]) == [f];
    assert AllFields(n, b.(proof := Some(v))) == AllFields(n, b) + [f];
    Append(AllFields(n, b), f);
  }

  lemma AppendLease(n: Names, b: Body, v: string)
    requires b.lease.None?
    ensures TextOf(n, b) + (Needle(n(Key.LeaseActive)) + v) == TextOf(n, b.(lease := Some(v)))
  {
    var f := Field(n(Key.LeaseActive), v);
    assert Fields(n, LEASE, [v]) == [f];
    assert AllFields(n, b.(lease := Some(v))) == AllFields(n, b) + [f];
    Append(AllFields(n, b), f);
  }

  lemma Head(n: Names, b: Body, value: string)
    requires Naming(n) && AreTexts(b) && Without(value, ';')
    ensures StartsWith(TextOf(n, b), n(Key.Phase) + "=")
    ensures StartsWith(TextOf(n, b), n(Key.Phase) + "=" + value + ";") <==> b.phase == value
  {
    var all := AllFields(n, b);
    BaseAre(n, b);
    AllOf(n, b);
    Begins(all[0], Tail(all[1..]), n(Key.Phase));
    HeadBehind(all);
    HeadIs(all[0], Show(all[1]) + Tail(all[2..]), value);
  }

  lemma HeadBehind(fields: seq<Field>)
    requires |fields| >= 2
    ensures Write(fields) == Show(fields[0]) + ";" + (Show(fields[1]) + Tail(fields[2..]))
  {
    assert fields[1..][1..] == fields[2..];
    Regroup(Show(fields[0]), ";", Show(fields[1]) + Tail(fields[2..]), "");
  }

  /** Masking health and appending the two flags in the text is setting the four values. */
  lemma TransportCommutes(n: Names, b: Body, pending: bool, active: bool, on: bool)
    requires Naming(n) && AreTexts(b) && b.egress == b.dns == Bit(on) && b.proof.None? && b.lease.None?
    ensures WithTransportText(n, TextOf(n, b), pending, active) == TextOf(n, WithTransportState(b, pending, active))
  {
    var c := Cleared(b, pending);
    Head(n, b, "");
    if pending { Masked(n, b, on); }
    MaskTexts(b, c, Bit(pending));
    FlagsAppended(n, c, pending, active);
  }

  function Cleared(b: Body, pending: bool): Body { if pending then b.(egress := "0", dns := "0") else b }

  lemma FlagsAppended(n: Names, c: Body, pending: bool, active: bool)
    requires Naming(n) && AreTexts(c) && AreTexts(c.(proof := Some(Bit(pending)))) && c.proof.None? && c.lease.None?
    ensures WithFlags(n, TextOf(n, c), pending, active)
            == TextOf(n, c.(proof := Some(Bit(pending)), lease := Some(Bit(active && c.phase == "running"))))
  {
    var d := c.(proof := Some(Bit(pending)));
    AppendProof(n, c, Bit(pending));
    Head(n, d, "running");
    AppendLease(n, d, Bit(active && c.phase == "running"));
  }

  lemma MaskTexts(b: Body, c: Body, v: string)
    requires AreTexts(b) && b.lease.None? && b.proof.None? && c in [b, b.(egress := "0", dns := "0")] && IsValue(v)
    ensures AreTexts(c) && AreTexts(c.(proof := Some(v)))
  {
    if c != b { assert BaseValues(c) == BaseValues(b)[5 := "0"][6 := "0"]; }
    assert BaseValues(c.(proof := Some(v))) == BaseValues(c);
  }
}
