/** Profile bundles: a header, numbered base64 rule sets and a profile with one slot marker per rule set. */
module ProfileBundle {
  import opened Wrappers
  import opened Text
  import opened Substring
  import Base64

  // ----- occurrences -------------------------------------------------------------------

  /** What lies between successive occurrences, found from left to right without overlap. */
  function Pieces(s: string, needle: string): (pieces: seq<string>)
    requires needle != ""
    ensures |pieces| >= 1
  {
    var i := First(s, needle);
    if i.None? then [s] else [s[..i.value]] + Pieces(s[i.value + |needle|..], needle)
  }

  function Glue(pieces: seq<string>, between: string): string
    requires |pieces| >= 1
  {
    if |pieces| == 1 then pieces[0] else pieces[0] + between + Glue(pieces[1..], between)
  }

  lemma BeforeFirst(s: string, needle: string, i: nat)
    requires needle != "" && First(s, needle) == Some(i)
    ensures !Occurs(s[..i], needle)
  {
    FirstIs(s, needle);
    forall k ensures !At(s[..i], needle, k) {
      if At(s[..i], needle, k) { AtPrefix(s, i, needle, k); }
    }
  }

  lemma GlueFirst(first: string, rest: seq<string>, between: string)
    requires |rest| >= 1
    ensures Glue([first] + rest, between) == first + between + Glue(rest, between)
  {
    assert ([first] + rest)[1..] == rest;
  }

  lemma {:induction false} PiecesGlue(s: string, needle: string)
    requires needle != ""
    ensures Glue(Pieces(s, needle), needle) == s
    decreases |s|
  {
    var found := First(s, needle);
    if found.Some? {
      var i := found.value;
      PiecesGlue(s[i + |needle|..], needle);
      GlueFirst(s[..i], Pieces(s[i + |needle|..], needle), needle);
      FirstIs(s, needle);
    }
  }

  lemma {:induction false} PiecesClean(s: string, needle: string)
    requires needle != ""
    ensures forall i :: 0 <= i < |Pieces(s, needle)| ==> !Occurs(Pieces(s, needle)[i], needle)
  {
    var i := First(s, needle);
    FirstIs(s, needle);
    if i.Some? {
      BeforeFirst(s, needle, i.value);
      PiecesClean(s[i.value + |needle|..], needle);
    }
  }

  function Count(s: string, needle: string): nat requires needle != "" { |Pieces(s, needle)| - 1 }
  function Replaced(s: string, needle: string, replacement: string): string requires needle != "" {
    Glue(Pieces(s, needle), replacement)
  }

  method CountOccurrences(s: string, needle: string) returns (count: nat)
    requires needle != ""
    ensures count == Count(s, needle)
  {
    count := 0;
    var offset := 0;
    assert s[0..] == s;
    while true
      invariant 0 <= offset <= |s| && count + Count(s[offset..], needle) == Count(s, needle)
      decreases |s| - offset
    {
      var found := FindText(s, needle, offset);
      if found.None? { return; }
      assert s[offset..][found.value - offset + |needle|..] == s[found.value + |needle|..];
      count := count + 1;
      offset := found.value + |needle|;
    }
  }

  method FindFirst(s: string, needle: string) returns (r: Option<nat>)
    ensures r == First(s, needle)
  {
    assert s[0..] == s;
    r := FindText(s, needle, 0);
  }

  /** `done` is finished, and what replacing does to `rest` still follows it. */
  ghost predicate Finished(done: string, rest: string, value: string, needle: string, replacement: string)
      requires needle != "" {
    done + Replaced(rest, needle, replacement) == Replaced(value, needle, replacement)
  }

  lemma NothingFinished(value: string, needle: string, replacement: string)
    requires needle != ""
    ensures Finished("", value, value, needle, replacement)
  {
    assert "" + Replaced(value, needle, replacement) == Replaced(value, needle, replacement);
  }

  lemma MoreFinished(done: string, rest: string, value: string, needle: string, replacement: string, i: nat)
    requires needle != "" && First(rest, needle) == Some(i) && Finished(done, rest, value, needle, replacement)
    ensures Finished(done + (rest[..i] + replacement), rest[i + |needle|..], value, needle, replacement)
  {
    ReplacedOnto(done, rest, needle, replacement, i);
  }

  /** One replacement: the string is `done + rest`, and the search resumes behind the text just put in. */
  method ReplaceNext(done: string, rest: string, ghost value: string, needle: string, replacement: string)
      returns (found: bool, more: string, left: string)
    requires needle != "" && Finished(done, rest, value, needle, replacement)
    ensures if found then |left| < |rest| && Finished(more, left, value, needle, replacement)
            else more + left == Replaced(value, needle, replacement)
  {
    var i := FindFirst(rest, needle);
    if i.None? {
      return false, done, rest;
    }
    MoreFinished(done, rest, value, needle, replacement, i.value);
    return true, done + (rest[..i.value] + replacement), rest[i.value + |needle|..];
  }

  method ReplaceAll(value: string, needle: string, replacement: string) returns (r: string)
    requires needle != ""
    ensures r == Replaced(value, needle, replacement)
  {
    var found, done, rest := true, "", value;
    NothingFinished(value, needle, replacement);
    while found
      invariant if found then Finished(done, rest, value, needle, replacement)
                else done + rest == Replaced(value, needle, replacement)
      decreases found, |rest|
    {
      found, done, rest := ReplaceNext(done, rest, value, needle, replacement);
    }
    return done + rest;
  }

  lemma ReplacedOnto(done: string, rest: string, needle: string, replacement: string, i: nat)
    requires needle != "" && First(rest, needle) == Some(i)
    ensures done + (rest[..i] + replacement) + Replaced(rest[i + |needle|..], needle, replacement)
            == done + Replaced(rest, needle, replacement)
  {
    ReplacedStep(rest, needle, replacement, i);
    Associates(done, rest[..i] + replacement, Replaced(rest[i + |needle|..], needle, replacement));
  }

  lemma Associates(a: string, b: string, c: string)
    ensures a + b + c == a + (b + c)
  {
  }

  lemma ReplacedStep(s: string, needle: string, replacement: string, i: nat)
    requires needle != "" && First(s, needle) == Some(i)
    ensures Replaced(s, needle, replacement) == s[..i] + replacement + Replaced(s[i + |needle|..], needle, replacement)
  {
    GlueFirst(s[..i], Pieces(s[i + |needle|..], needle), replacement);
  }

  predicate Disjoint(a: string, b: string) { forall c :: c in a ==> c !in b }

  /** An occurrence that reaches into the text between two others shares a character with it. */
  lemma Shares(a: string, between: string, rest: string, needle: string, k: int)
    requires needle != "" && between != "" && At(a + between + rest, needle, k) && |a| < k + |needle|
             && k < |a| + |between|
    ensures !Disjoint(between, needle)
  {
    var s := a + between + rest;
    var m := if k < |a| then |a| else k;
    assert s[m] == between[m - |a|] && s[k..k + |needle|][m - k] == s[m];
    assert between[m - |a|] in between && needle[m - k] in needle;
  }

  /** Text glued with something that shares no character with the needle holds it only inside a piece. */
  lemma {:induction false} GlueLocates(pieces: seq<string>, between: string, needle: string, k: int)
    requires |pieces| >= 1 && needle != "" && between != "" && Disjoint(between, needle)
             && At(Glue(pieces, between), needle, k)
    ensures exists i :: 0 <= i < |pieces| && Occurs(pieces[i], needle)
    decreases |pieces|
  {
    if |pieces| == 1 {
      assert At(pieces[0], needle, k);
    } else {
      var (a, rest) := (pieces[0], Glue(pieces[1..], between));
      var s := a + between + rest;
      if |a| < k + |needle| && k < |a| + |between| { Shares(a, between, rest, needle, k); }
      if k + |needle| <= |a| {
        assert a[k..k + |needle|] == s[k..k + |needle|];
        assert At(a, needle, k);
      } else {
        AtSuffix(s, |a| + |between|, needle, k);
        assert s[|a| + |between|..] == rest;
        GlueLocates(pieces[1..], between, needle, k - |a| - |between|);
        var i :| 0 <= i < |pieces[1..]| && Occurs(pieces[1..][i], needle);
        assert Occurs(pieces[i + 1], needle);
      }
    }
  }

  /** A replacement made of other characters leaves no occurrence behind. */
  lemma ReplacedLeavesNone(s: string, needle: string, replacement: string)
    requires needle != "" && replacement != "" && Disjoint(replacement, needle)
    ensures !Occurs(Replaced(s, needle, replacement), needle)
  {
    PiecesClean(s, needle);
    forall k ensures !At(Replaced(s, needle, replacement), needle, k) {
      if At(Replaced(s, needle, replacement), needle, k) { GlueLocates(Pieces(s, needle), replacement, needle, k); }
    }
  }

  const SLOT := "__POKROV_RULE_SET_SLOT__"

  lemma SlotNames()
    ensures Disjoint("profile-a", SLOT) && Disjoint("profile-b", SLOT)
  {
    assert forall i :: 0 <= i < |SLOT| ==> SLOT[i] == '_' || 'A' <= SLOT[i] <= 'Z';
  }

  /** The two slot names a profile is staged under. */
  lemma SlotsLeaveNoMarker(profile: string, second: bool)
    ensures !Occurs(Replaced(profile, SLOT, if second then "profile-b" else "profile-a"), SLOT)
  {
    SlotNames();
    ReplacedLeavesNone(profile, SLOT, if second then "profile-b" else "profile-a");
  }

  function Copies(n: nat, size: nat): nat { if n == 0 then 0 else size + Copies(n - 1, size) }

  /** As many replacements as occurrences were counted. */
  lemma {:induction false} ReplacedSize(s: string, needle: string, replacement: string)
    requires needle != ""
    ensures |Replaced(s, needle, replacement)| + Copies(Count(s, needle), |needle|) == |s|
            + Copies(Count(s, needle), |replacement|)
    decreases |s|
  {
    var i := First(s, needle);
    if i.Some? {
      var rest := s[i.value + |needle|..];
      ReplacedStep(s, needle, replacement, i.value);
      ReplacedSize(rest, needle, replacement);
      assert Count(s, needle) == Count(rest, needle) + 1;
    }
  }

  // ----- the bundle ---------------------------------------------------------------------------

  const HEADER := "POKROV_PROFILE_BUNDLE_V1"
  const JSON := "POKROV_PROFILE_JSON"
  const MAX_TOTAL: nat := 160 * 1024

  datatype Bundle = Bundle(profile: string, ruleSets: seq<string>)

  /** What ReadBundleLine takes as a line. */
  predicate IsLine(s: string) { s != "" && Without(s, '\n') && Without(s, '\r') }

  function Name(index: nat): string { "ruleset-" + Decimal(index) + ".srs" }

  /** The encoded rule sets behind their numbered name lines. */
  function ReadPairs(lines: seq<string>, index: nat): Option<seq<string>> {
    if lines == [] then Some([])
    else if |lines| == 1 || lines[0] != Name(index) || !IsLine(lines[1]) then None
    else
      var rest := ReadPairs(lines[2..], index + 1);
      if rest.None? then None else Some([lines[1]] + rest.value)
  }

  /** Each rule set decodes and still fits the total. */
  function DecodeAll(encoded: seq<string>, total: nat, decode: string -> Option<string>): Option<seq<string>> {
    if encoded == [] then Some([])
    else
      var first := decode(encoded[0]);
      if first.None? || total + |first.value| > MAX_TOTAL then None
      else
        var rest := DecodeAll(encoded[1..], total + |first.value|, decode);
        if rest.None? then None else Some([first.value] + rest.value)
  }

  predicate IsCount(digit: string) { |digit| == 1 && '1' <= digit[0] <= '8' }

  /** Every failure of the parser is the same, so the lines can be taken at once: a count, the pairs, the marker. */
  function ParseBody(body: string): Option<(seq<string>, string)> {
    var first := Head(body, '\n', 1);
    if first.None? || |first.value| != 2 || !IsCount(first.value[0]) then None
    else
      var n := 2 * (first.value[0][0] - '0') as nat;
      var lines := Head(body, '\n', n + 2);
      if lines.None? || |lines.value| != n + 3 then None else ReadLines(lines.value, n)
  }

  function ReadLines(lines: seq<string>, n: nat): Option<(seq<string>, string)>
    requires |lines| == n + 3
  {
    var encoded := ReadPairs(lines[1..n + 1], 0);
    if encoded.None? || lines[n + 1] != JSON || lines[n + 2] == "" then None else Some((encoded.value, lines[n + 2]))
  }

  function Parse(value: string): Option<Bundle> {
    if !StartsWith(value, HEADER + "\n") then Some(Bundle(value, []))
    else
      var body := ParseBody(value[|HEADER| + 1..]);
      if body.None? then None
      else
        var sets := DecodeAll(body.value.0, 0, Base64.Decode);
        if sets.None? || Count(body.value.1, SLOT) != |sets.value| then None else Some(Bundle(body.value.1, sets.value))
  }

  // ----- the text of a bundle -------------------------------------------------------------------

  function Total(sets: seq<string>): nat { if sets == [] then 0 else |sets[0]| + Total(sets[1..]) }

  predicate Decoded(sets: seq<string>) { forall i :: 0 <= i < |sets| ==> Base64.Fits(sets[i]) }

  predicate Valid(b: Bundle) {
    if b.ruleSets == [] then !StartsWith(b.profile, HEADER + "\n")
    else
      && |b.ruleSets| <= 8 && Decoded(b.ruleSets) && Total(b.ruleSets) <= MAX_TOTAL && b.profile != ""
      && Count(b.profile, SLOT) == |b.ruleSets|
  }

  function Encoded(sets: seq<string>): (encoded: seq<string>)
    requires Decoded(sets)
    ensures |encoded| == |sets| && forall i :: 0 <= i < |sets| ==> encoded[i] == Base64.Encode(sets[i])
  {
    seq(|sets|, i requires 0 <= i < |sets| => Base64.Encode(sets[i]))
  }

  function Pairs(encoded: seq<string>, index: nat): (lines: seq<string>)
    ensures |lines| == 2 * |encoded|
  {
    if encoded == [] then [] else [Name(index), encoded[0]] + Pairs(encoded[1..], index + 1)
  }

  function Lines(encoded: seq<string>, profile: string): (lines: seq<string>)
    requires |encoded| <= 8
    ensures |lines| == 2 * |encoded| + 3
  {
    [['0' + |encoded| as char]] + Pairs(encoded, 0) + [JSON, profile]
  }

  function Body(encoded: seq<string>, profile: string): string
    requires |encoded| <= 8
  {
    Join(Lines(encoded, profile), '\n')
  }

  function Written(b: Bundle): string
    requires Valid(b)
  {
    if b.ruleSets == [] then b.profile else HEADER + "\n" + Body(Encoded(b.ruleSets), b.profile)
  }

  lemma NamePlain(index: nat)
    ensures IsLine(Name(index))
  {
    var s := Decimal(index);
    assert forall i :: 0 <= i < |s| ==> IsDigit(s[i]);
  }

  lemma {:induction false} PairsRead(encoded: seq<string>, index: nat)
    requires forall i :: 0 <= i < |encoded| ==> IsLine(encoded[i])
    ensures ReadPairs(Pairs(encoded, index), index) == Some(encoded)
    ensures forall i :: 0 <= i < |Pairs(encoded, index)| ==> IsLine(Pairs(encoded, index)[i])
  {
    if encoded != [] {
      NamePlain(index);
      PairsRead(encoded[1..], index + 1);
      assert Pairs(encoded, index)[2..] == Pairs(encoded[1..], index + 1);
      assert encoded == [encoded[0]] + encoded[1..];
    } else {
      assert encoded == [];
    }
  }

  lemma {:induction false} PairsText(lines: seq<string>, index: nat)
    requires ReadPairs(lines, index).Some?
    ensures Pairs(ReadPairs(lines, index).value, index) == lines
    decreases |lines|
  {
    if lines != [] {
      PairsText(lines[2..], index + 1);
      var encoded := ReadPairs(lines, index).value;
      assert encoded[1..] == ReadPairs(lines[2..], index + 1).value;
      assert lines == [lines[0], lines[1]] + lines[2..];
    }
  }

  lemma EncodedLines(sets: seq<string>)
    requires Decoded(sets)
    ensures forall i :: 0 <= i < |sets| ==> IsLine(Encoded(sets)[i])
  {
    forall i | 0 <= i < |sets| ensures IsLine(Encoded(sets)[i]) { Base64.EncodePlain(sets[i]); }
  }

  /** Decoding all is decoding each, within the total. */
  lemma {:induction false} DecodeEach(encoded: seq<string>, total: nat, decode: string -> Option<string>,
                                      sets: seq<string>)
    requires |encoded| == |sets| && (forall i :: 0 <= i < |sets| ==> decode(encoded[i]) == Some(sets[i]))
             && total + Total(sets) <= MAX_TOTAL
    ensures DecodeAll(encoded, total, decode) == Some(sets)
    decreases |sets|
  {
    if sets != [] {
      DecodeEach(encoded[1..], total + |sets[0]|, decode, sets[1..]);
      assert sets == [sets[0]] + sets[1..];
    } else {
      assert sets == [];
    }
  }

  lemma {:induction false} DecodedEach(encoded: seq<string>, total: nat, decode: string -> Option<string>)
    requires DecodeAll(encoded, total, decode).Some? && total <= MAX_TOTAL
    ensures var sets := DecodeAll(encoded, total, decode).value;
            && |sets| == |encoded| && total + Total(sets) <= MAX_TOTAL
            && forall i :: 0 <= i < |sets| ==> decode(encoded[i]) == Some(sets[i])
    decreases |encoded|
  {
    if encoded != [] {
      var first := decode(encoded[0]).value;
      DecodedEach(encoded[1..], total + |first|, decode);
      var sets := DecodeAll(encoded, total, decode).value;
      assert sets[1..] == DecodeAll(encoded[1..], total + |first|, decode).value;
    }
  }

  lemma DecodeEncoded(sets: seq<string>)
    requires Decoded(sets) && Total(sets) <= MAX_TOTAL
    ensures DecodeAll(Encoded(sets), 0, Base64.Decode) == Some(sets)
  {
    forall i | 0 <= i < |sets| ensures Base64.Decode(Encoded(sets)[i])
        == Some(sets[i]) { Base64.DecodeAllEncodings(sets[i]); }
    DecodeEach(Encoded(sets), 0, Base64.Decode, sets);
  }

  lemma EncodeDecoded(encoded: seq<string>)
    requires DecodeAll(encoded, 0, Base64.Decode).Some?
    ensures var sets := DecodeAll(encoded, 0, Base64.Decode).value;
            |sets| == |encoded| && Decoded(sets) && Total(sets) <= MAX_TOTAL && Encoded(sets) == encoded
  {
    DecodedEach(encoded, 0, Base64.Decode);
    var sets := DecodeAll(encoded, 0, Base64.Decode).value;
    forall i | 0 <= i < |sets| ensures Base64.Fits(sets[i]) && Base64.Encode(sets[i]) == encoded[i] {
      Base64.DecodeOnlyEncodings(encoded[i]);
    }
  }

  lemma LinesRead(encoded: seq<string>, profile: string)
    requires 1 <= |encoded| <= 8 && profile != "" && forall i :: 0 <= i < |encoded| ==> IsLine(encoded[i])
    ensures ReadLines(Lines(encoded, profile), 2 * |encoded|) == Some((encoded, profile))
    ensures IsCount(Lines(encoded, profile)[0])
            && forall i :: 0 <= i < |Lines(encoded, profile)| - 1 ==> Without(Lines(encoded, profile)[i], '\n')
  {
    var n := 2 * |encoded|;
    PairsRead(encoded, 0);
    assert Lines(encoded, profile)[1..n + 1] == Pairs(encoded, 0);
    assert Without(JSON, '\n');
  }

  lemma HeadOfLines(lines: seq<string>)
    requires |lines| >= 3 && forall i :: 0 <= i < |lines| - 1 ==> Without(lines[i], '\n')
    ensures var body := Join(lines, '\n');
            Head(body, '\n', |lines| - 1) == Some(lines)
                && Head(body, '\n', 1) == Some([lines[0], Join(lines[1..], '\n')])
  {
    HeadJoin(lines, '\n');
    var two := [lines[0], Join(lines[1..], '\n')];
    assert two[1..] == [two[1]];
    HeadJoin(two, '\n');
    assert Join(two, '\n') == Join(lines, '\n');
  }

  lemma BodyRead(encoded: seq<string>, profile: string)
    requires 1 <= |encoded| <= 8 && profile != "" && forall i :: 0 <= i < |encoded| ==> IsLine(encoded[i])
    ensures ParseBody(Body(encoded, profile)) == Some((encoded, profile))
  {
    LinesRead(encoded, profile);
    HeadOfLines(Lines(encoded, profile));
  }

  lemma {:induction false} HeadText(body: string, n: nat)
    requires Head(body, '\n', n).Some?
    ensures |Head(body, '\n', n).value| == n + 1 && Join(Head(body, '\n', n).value, '\n') == body
    ensures n >= 1 ==> Head(body, '\n', 1).Some? && Head(body, '\n', 1).value[0] == Head(body, '\n', n).value[0]
    decreases n
  {
    if n > 0 {
      var w := |Split(body, '\n')[0]|;
      HeadText(body[w + 1..], n - 1);
      HeadIsPrefix(body, '\n');
      var rest := Head(body[w + 1..], '\n', n - 1).value;
      assert ([body[..w]] + rest)[1..] == rest;
      assert body == body[..w] + [body[w]] + body[w + 1..];
    }
  }

  lemma {:induction false} HeadIsPrefix(s: string, d: char)
    ensures |Split(s, d)| > 1 ==>
            |Split(s, d)[0]| < |s| && s[..|Split(s, d)[0]|] == Split(s, d)[0] && s[|Split(s, d)[0]|] == d
  {
    if s != "" { HeadIsPrefix(s[1..], d); }
  }

  lemma LinesText(lines: seq<string>, n: nat)
    requires |lines| == n + 3 && IsCount(lines[0]) && n == 2 * (lines[0][0] - '0') as nat && ReadLines(lines, n).Some?
    ensures var r := ReadLines(lines, n).value; 1 <= |r.0| <= 8 && r.1 != "" && lines == Lines(r.0, r.1)
  {
    var r := ReadLines(lines, n).value;
    PairsText(lines[1..n + 1], 0);
    assert lines[0] == ['0' + |r.0| as char];
    assert lines == [lines[0]] + lines[1..n + 1] + [lines[n + 1], lines[n + 2]];
  }

  lemma BodyText(body: string)
    requires ParseBody(body).Some?
    ensures var r := ParseBody(body).value; 1 <= |r.0| <= 8 && r.1 != "" && body == Body(r.0, r.1)
  {
    var n := 2 * (Head(body, '\n', 1).value[0][0] - '0') as nat;
    HeadText(body, n + 2);
    LinesText(Head(body, '\n', n + 2).value, n);
  }

  /** A valid bundle's text parses to it. */
  lemma ParseWritten(b: Bundle)
    requires Valid(b)
    ensures Parse(Written(b)) == Some(b)
  {
    if b.ruleSets != [] {
      var value := Written(b);
      EncodedLines(b.ruleSets);
      DecodeEncoded(b.ruleSets);
      BodyRead(Encoded(b.ruleSets), b.profile);
      assert value[..|HEADER| + 1] == HEADER + "\n" && value[|HEADER| + 1..] == Body(Encoded(b.ruleSets), b.profile);
    }
  }

  /** An accepted text is the text of what it decoded to, so equal contents come from equal texts. */
  lemma ParseCanonical(value: string)
    requires Parse(value).Some?
    ensures Valid(Parse(value).value) && Written(Parse(value).value) == value
  {
    if StartsWith(value, HEADER + "\n") {
      var body := value[|HEADER| + 1..];
      BodyText(body);
      EncodeDecoded(ParseBody(body).value.0);
      assert value == HEADER + "\n" + body;
    }
  }

  lemma ParseInjective(a: string, b: string)
    requires Parse(a).Some? && Parse(a) == Parse(b)
    ensures a == b
  {
    ParseCanonical(a);
    ParseCanonical(b);
  }
}
