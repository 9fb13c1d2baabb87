/** The durable recovery journal: its stages and its text. */
module Journal {
  import opened Wrappers
  import opened Text

  datatype Stage = Clean | Snapshotted | CoreStarted | NetworkApplied | Verified | Committed | RollingBack | Recovered

  function StageName(stage: Stage): string {
    match stage
    case Clean => "clean"
    case Snapshotted => "snapshotted"
    case CoreStarted => "core_started"
    case NetworkApplied => "network_applied"
    case Verified => "verified"
    case Committed => "committed"
    case RollingBack => "rolling_back"
    case Recovered => "recovered"
  }

  function ParseStage(name: string): Option<Stage> {
    if name == "clean" then Some(Clean)
    else if name == "snapshotted" then Some(Snapshotted)
    else if name == "core_started" then Some(CoreStarted)
    else if name == "network_applied" then Some(NetworkApplied)
    else if name == "verified" then Some(Verified)
    else if name == "committed" then Some(Committed)
    else if name == "rolling_back" then Some(RollingBack)
    else if name == "recovered" then Some(Recovered)
    else None
  }

  predicate IsForwardTransition(current: Stage, next: Stage) {
    match current
    case Clean => next == Snapshotted
    case Snapshotted => next == CoreStarted || next == RollingBack
    case CoreStarted => next == NetworkApplied || next == RollingBack
    case NetworkApplied => next == Verified || next == RollingBack
    case Verified => next == Committed || next == RollingBack
    case Committed => next == RollingBack
    case RollingBack => next == Recovered
    case Recovered => next == Clean
  }

  /** The stages between announcing the Core start and confirming its rollback. */
  predicate MayHaveCore(stage: Stage) {
    stage.CoreStarted? || stage.NetworkApplied? || stage.Verified? || stage.Committed? || stage.RollingBack?
  }

  const MAGIC := "POKROV_RECOVERY_V1"
  const STAGE := "stage="
  const GENERATION := "generation="
  const NETWORK := "network_state="
  const ZERO := "00000000000000000000000000000000"
  const MAX_SNAPSHOT: nat := 64 * 1024
  const MAX_JOURNAL: nat := MAX_SNAPSHOT * 2 + 256

  datatype Entry = Entry(stage: Stage, generation: string, snapshot: string)

  predicate IsHexGeneration(g: string) { |g| == 32 && forall i :: 0 <= i < |g| ==> IsHexDigit(g[i]) }

  /** What Load accepts of the parsed fields. */
  predicate Consistent(e: Entry) {
    && IsHexGeneration(e.generation)
    && (if e.stage.Clean? then e.snapshot == "" else e.generation != ZERO && e.snapshot != "")
  }

  predicate WellFormed(e: Entry) { Consistent(e) && IsBytes(e.snapshot) && |e.snapshot| <= MAX_SNAPSHOT }

  function Lines(e: Entry): seq<string> requires IsBytes(e.snapshot) {
    [MAGIC, STAGE + StageName(e.stage), GENERATION + e.generation, NETWORK + Hex(e.snapshot)]
  }

  function Format(e: Entry): string requires IsBytes(e.snapshot) { Join(Lines(e), '\n') + "\n" }

  function ParseLines(lines: seq<string>): Option<Entry> {
    if |lines| != 4 || lines[0] != MAGIC || !StartsWith(lines[1], STAGE) || !StartsWith(lines[2], GENERATION)
       || !StartsWith(lines[3], NETWORK) then None
    else
      var hex := lines[3][|NETWORK|..];
      var stage := ParseStage(lines[1][|STAGE|..]);
      var snapshot := if |hex| > MAX_SNAPSHOT * 2 then None else Unhex(hex);
      if stage.None? || snapshot.None? then None
      else
        var e := Entry(stage.value, lines[2][|GENERATION|..], snapshot.value);
        if Consistent(e) then Some(e) else None
  }

  /** A bounded file whose last line is terminated, taken line by line. */
  function Parse(content: string): Option<Entry> {
    if content == "" || |content| > MAX_JOURNAL || content[|content| - 1] != '\n' then None
    else ParseLines(Split(content[..|content| - 1], '\n'))
  }

  // ----- the round trip -------------------------------------------------------------

  lemma StageNames(stage: Stage)
    ensures ParseStage(StageName(stage)) == Some(stage) && Without(StageName(stage), '\n') && |StageName(stage)| <= 15
  {
    assert ParseStage(StageName(stage)) == Some(stage) by {
      assert StageName(Snapshotted)[0] == 's' && StageName(CoreStarted)[1] == 'o' && StageName(NetworkApplied)[0] == 'n'
             && StageName(Verified)[0] == 'v' && StageName(RollingBack)[1] == 'o' && StageName(Recovered)[1] == 'e'
             && StageName(Clean)[1] == 'l' && StageName(Committed)[2] == 'm' && StageName(CoreStarted)[2] == 'r'
             && StageName(RollingBack)[0] == 'r' && StageName(Recovered)[0] == 'r';
    }
  }

  lemma LinesWithoutBreaks(e: Entry)
    requires WellFormed(e)
    ensures forall i :: 0 <= i < 4 ==> Without(Lines(e)[i], '\n')
  {
    StageNames(e.stage);
    HexRoundTrip(e.snapshot);
    assert Without(e.generation, '\n');
    assert Without(Hex(e.snapshot), '\n');
  }

  lemma FormatSize(e: Entry)
    requires WellFormed(e)
    ensures 0 < |Format(e)| <= MAX_JOURNAL
  {
    StageNames(e.stage);
    var l := Lines(e);
    assert Join(l, '\n') == l[0] + "\n" + (l[1] + "\n" + (l[2] + "\n" + l[3])) by {
      assert l[1..][1..] == l[2..] && l[2..][1..] == l[3..];
      assert Join(l[3..], '\n') == l[3];
      assert Join(l[2..], '\n') == l[2] + "\n" + l[3];
      assert Join(l[1..], '\n') == l[1] + "\n" + (l[2] + "\n" + l[3]);
    }
  }

  /** Every well-formed entry is written within the read bound and reads back unchanged. */
  lemma JournalRoundTrip(e: Entry)
    requires WellFormed(e)
    ensures Parse(Format(e)) == Some(e)
  {
    FormatSize(e);
    LinesWithoutBreaks(e);
    var content := Format(e);
    assert content[..|content| - 1] == Join(Lines(e), '\n');
    SplitJoin(Lines(e), '\n');
    StageNames(e.stage);
    HexRoundTrip(e.snapshot);
    var l := Lines(e);
    assert l[1][|STAGE|..] == StageName(e.stage) && l[2][|GENERATION|..] == e.generation
           && l[3][|NETWORK|..] == Hex(e.snapshot);
  }

  lemma StageParsed(name: string)
    requires ParseStage(name).Some?
    ensures StageName(ParseStage(name).value) == name
  {
  }

  /** And nothing else reads as that entry: an accepted file is exactly what Write produces. */
  lemma JournalCanonical(content: string)
    requires Parse(content).Some?
    ensures WellFormed(Parse(content).value) && Format(Parse(content).value) == content
  {
    var e := Parse(content).value;
    var body := content[..|content| - 1];
    var lines := Split(body, '\n');
    JoinSplit(body, '\n');
    UnhexCanonical(lines[3][|NETWORK|..]);
    StageParsed(lines[1][|STAGE|..]);
    assert lines[1] == STAGE + lines[1][|STAGE|..] && lines[2] == GENERATION + e.generation
           && lines[3] == NETWORK + Hex(e.snapshot);
    assert lines == Lines(e);
  }

  /** Load's loop over terminated lines. */
  method ReadLines(content: string) returns (lines: seq<string>)
    requires content != "" && content[|content| - 1] == '\n'
    ensures lines == Split(content[..|content| - 1], '\n')
  {
    lines := [];
    var start := 0;
    ghost var body := content[..|content| - 1];
    assert body[0..] == body;
    while start < |content|
      invariant 0 <= start <= |content| && (start == |content| || start <= |body|)
      invariant start < |content| ==> lines + Split(body[start..], '\n') == Split(body, '\n')
      invariant start == |content| ==> lines == Split(body, '\n')
    {
      var end := Find(content, '\n', start);
      assert end < |content|;
      assert content[start..end] == body[start..end];
      SplitStep(body, '\n', start, end);
      lines := lines + [content[start..end]];
      start := end + 1;
    }
  }

  method Load(content: string) returns (r: Option<Entry>)
    ensures r == Parse(content)
  {
    if content == "" || |content| > MAX_JOURNAL || content[|content| - 1] != '\n' { return None; }
    var lines := ReadLines(content);
    if |lines| != 4 || lines[0] != MAGIC || !StartsWith(lines[1], STAGE) || !StartsWith(lines[2], GENERATION)
       || !StartsWith(lines[3], NETWORK) { return None; }
    var stage := ParseStage(lines[1][|STAGE|..]);
    var snapshot := HexDecode(lines[3][|NETWORK|..], MAX_SNAPSHOT * 2);
    if stage.None? || snapshot.None? { return None; }
    var e := Entry(stage.value, lines[2][|GENERATION|..], snapshot.value);
    if !Consistent(e) { return None; }
    return Some(e);
  }
}
