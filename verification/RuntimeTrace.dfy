/**
 The calls a runtime host makes on the outside world, in order, over every
 process the service ever runs as. `Allowed` is what each call promises about
 the calls before it; the lemmas below say it without the monitor.
 */
module RuntimeTrace {
  import opened Journal

  /** What became of a revocation; `Refused` never reached Core. */
  datatype Answer = Refused | NoAnswer | NotFound | Found
  datatype Interrupt = GoOn | Cancelled | Late

  datatype Event =
    | Capture(snapshot: string)                 // the network state was read
    | Write(stage: Stage, snapshot: string)     // the journal file was replaced
    | Start | Stop(ok: bool)                    // Core
    | Restore(snapshot: string, ok: bool)       // network state
    | Probe(ok: bool)                           // egress verification
    | Install(committed: bool)                  // the persisted firewall block, whatever was reported
    | Remove(committed: bool)
    | Staged                                    // a profile was staged
    | Revocation(answer: Answer)                // Core was asked to revoke, and what it answered
    | Control                                   // a renewal or runtime control was handed to Core
    | Withdrawn                                 // a revoked catalog was stopped under the guard
    | Interruption(cause: Interrupt)            // the caller was asked whether to go on
    | UserOff                                   // an explicit Disconnect began
    | Rollback(ok: bool)                        // a rollback ended
    | Return                                    // the request ended
    | Crash                                     // the process died

  datatype GuardState = Off | Armed | Incomplete

  datatype Monitor = Monitor(stage: Stage, snapshot: string, captured: string, live: bool, halted: bool, restored: bool,
                             proved: bool, withheld: bool, userOff: bool, failed: bool, resisted: bool)

  /** The monitor and the persisted filters at one moment. */
  datatype Moment = Moment(monitor: Monitor, filters: GuardState)

  const START := Monitor(Clean, "", "", false, false, false, false, false, false, false, false)

  predicate Writes(e: Event, stage: Stage) { e.Write? && e.stage == stage }

  /** Core found the target, was handed a control, or was stopped for a revoked catalog: the staged bytes are stale. */
  predicate Withholds(e: Event) { e == Revocation(Found) || e.Control? || e.Withdrawn? }

  function Next(m: Monitor, e: Event): Monitor {
    Monitor(
      if e.Write? then e.stage else m.stage,
      if e.Write? then e.snapshot else m.snapshot,
      if e.Capture? then e.snapshot else m.captured,
      e.Start? || (m.live && e != Stop(true)),
      e == Stop(true) || (m.halted && !e.Start? && !Writes(e, RollingBack)),
      if e.Restore? then e.ok else m.restored && !e.Start? && !Writes(e, RollingBack) && !Writes(e, Snapshotted),
      if e.Probe? then e.ok else m.proved && !e.Start?,
      Withholds(e) || (m.withheld && !e.Staged?),
      e.UserOff? || (m.userOff && !e.Return? && !e.Crash?),
      !e.UserOff? && (m.failed || e == Rollback(false)),
      e == Stop(false) || (m.resisted && e != Stop(true) && !e.Return? && !e.Crash?))
  }

  predicate WriteAllowed(m: Monitor, stage: Stage, snapshot: string) {
    && IsForwardTransition(m.stage, stage)
    && (stage.Snapshotted? ==> snapshot == m.captured)
    && (stage.Clean? ==> snapshot == "")
    && (!stage.Snapshotted? && !stage.Clean? ==> snapshot == m.snapshot)
    && (stage.Recovered? ==> m.restored && !m.live)
  }

  predicate Allowed(m: Monitor, e: Event) {
    match e
    case Write(stage, snapshot) => WriteAllowed(m, stage, snapshot)
    case Start => m.stage.CoreStarted? && !m.withheld && !m.live
    case Restore(snapshot, _) => m.stage.RollingBack? && m.halted && !m.live && snapshot == m.snapshot && snapshot != ""
    case Remove(_) => (m.stage.Committed? && m.live && m.proved) || (m.userOff && !m.failed)
    case _ => true
  }

  /** Only a committed call changes the persisted filters. */
  function FiltersNext(filters: GuardState, e: Event): GuardState {
    if e == Install(true) then Armed else if e == Remove(true) then Off else filters
  }

  /** The persisted filters after these calls. */
  function FiltersAfter(initial: GuardState, trace: seq<Event>): GuardState {
    if trace == [] then initial
    else FiltersNext(FiltersAfter(initial, trace[..|trace| - 1]), trace[|trace| - 1])
  }

  function After(trace: seq<Event>): Monitor {
    if trace == [] then START else Next(After(trace[..|trace| - 1]), trace[|trace| - 1])
  }

  ghost predicate Lawful(trace: seq<Event>) {
    trace != [] ==> Lawful(trace[..|trace| - 1]) && Allowed(After(trace[..|trace| - 1]), trace[|trace| - 1])
  }

  /** A trace written down with the moments before and after each event. */
  ghost predicate Chronicle(trace: seq<Event>, states: seq<Moment>, initial: GuardState, now: Monitor,
                            filters: GuardState) {
    && |states| == |trace| + 1 && states[0] == Moment(START, initial) && states[|trace|] == Moment(now, filters)
    && forall i :: 0 <= i < |trace| ==>
         && Allowed(states[i].monitor, trace[i])
         && states[i + 1] == Moment(Next(states[i].monitor, trace[i]), FiltersNext(states[i].filters, trace[i]))
  }

  lemma Extend(trace: seq<Event>, states: seq<Moment>, initial: GuardState, now: Monitor, filters: GuardState, e: Event)
    requires Chronicle(trace, states, initial, now, filters) && Allowed(now, e)
    ensures Chronicle(trace + [e], states + [Moment(Next(now, e), FiltersNext(filters, e))], initial, Next(now, e),
                      FiltersNext(filters, e))
  {
  }

  lemma {:induction false} ChronicleLawful(trace: seq<Event>, states: seq<Moment>, initial: GuardState, now: Monitor,
                                           filters: GuardState)
    requires Chronicle(trace, states, initial, now, filters)
    ensures Lawful(trace) && now == After(trace) && filters == FiltersAfter(initial, trace)
    decreases |trace|
  {
    if trace != [] {
      var n := |trace| - 1;
      ChronicleLawful(trace[..n], states[..n + 1], initial, states[n].monitor, states[n].filters);
    }
  }

  // ----- what the monitor means -------------------------------------------------------

  function Drop(trace: seq<Event>): seq<Event> requires trace != [] { trace[..|trace| - 1] }

  lemma {:induction false} LawfulPrefix(trace: seq<Event>, i: nat)
    requires Lawful(trace) && i < |trace|
    ensures Lawful(trace[..i]) && Allowed(After(trace[..i]), trace[i])
  {
    if i < |trace| - 1 {
      LawfulPrefix(Drop(trace), i);
      assert Drop(trace)[..i] == trace[..i];
    }
  }

  ghost predicate WrittenAt(trace: seq<Event>, i: int, stage: Stage, snapshot: string) {
    0 <= i < |trace| && trace[i] == Write(stage, snapshot) && forall j :: i < j < |trace| ==> !trace[j].Write?
  }

  /** The journal file's stage: the last one written, or clean while there is no file. */
  ghost predicate LastWrite(trace: seq<Event>, stage: Stage, snapshot: string) {
    || ((forall i :: 0 <= i < |trace| ==> !trace[i].Write?) && stage == Clean && snapshot == "")
    || exists i :: WrittenAt(trace, i, stage, snapshot)
  }

  lemma {:induction false} StageMeans(trace: seq<Event>)
    ensures LastWrite(trace, After(trace).stage, After(trace).snapshot)
  {
    if trace != [] {
      var t := Drop(trace);
      StageMeans(t);
      if trace[|trace| - 1].Write? {
        assert WrittenAt(trace, |trace| - 1, After(trace).stage, After(trace).snapshot);
      } else if i :| WrittenAt(t, i, After(t).stage, After(t).snapshot) {
        assert WrittenAt(trace, i, After(trace).stage, After(trace).snapshot);
      }
    }
  }

  /** Core was started at `i` and no later stop was confirmed. */
  ghost predicate LiveSince(trace: seq<Event>, i: int) {
    0 <= i < |trace| && trace[i].Start? && forall j :: i < j < |trace| ==> trace[j] != Stop(true)
  }

  lemma {:induction false} LiveMeans(trace: seq<Event>, i: int)
    requires LiveSince(trace, i)
    ensures After(trace).live
    decreases |trace|
  {
    if i < |trace| - 1 {
      assert LiveSince(Drop(trace), i);
      LiveMeans(Drop(trace), i);
    }
  }

  lemma {:induction false} LiveStage(trace: seq<Event>)
    requires Lawful(trace)
    ensures After(trace).live ==> MayHaveCore(After(trace).stage)
  {
    if trace != [] {
      LiveStage(Drop(trace));
    }
  }

  /**
   Write-ahead: Core starts only under a durable core_started entry, and while a
   start is not confirmed stopped the file holds a stage that rolls it back.
   */
  lemma WriteAhead(trace: seq<Event>, i: nat)
    requires Lawful(trace) && i < |trace| && trace[i].Start?
    ensures exists snapshot :: LastWrite(trace[..i], CoreStarted, snapshot)
    ensures LiveSince(trace, i) ==> exists stage, snapshot :: MayHaveCore(stage) && LastWrite(trace, stage, snapshot)
  {
    LawfulPrefix(trace, i);
    StageMeans(trace[..i]);
    if LiveSince(trace, i) {
      LiveMeans(trace, i);
      LiveStage(trace);
      StageMeans(trace);
    }
  }

  ghost predicate HaltedSince(trace: seq<Event>, j: int) {
    0 <= j < |trace| && trace[j] == Stop(true)
    && forall k :: j < k < |trace| ==> !trace[k].Start? && !Writes(trace[k], RollingBack)
  }

  lemma {:induction false} HaltedMeans(trace: seq<Event>)
    requires After(trace).halted
    ensures exists j :: HaltedSince(trace, j)
  {
    var t := Drop(trace);
    if trace[|trace| - 1] == Stop(true) {
      assert HaltedSince(trace, |trace| - 1);
    } else {
      HaltedMeans(t);
      var j :| HaltedSince(t, j);
      assert HaltedSince(trace, j);
    }
  }

  /** The transaction in progress recorded `snapshot`, which had been captured for it. */
  ghost predicate CapturedAt(trace: seq<Event>, k: int, snapshot: string) {
    && 0 <= k < |trace| && trace[k] == Write(Snapshotted, snapshot)
    && (forall j :: k < j < |trace| ==> !Writes(trace[j], Snapshotted) && !Writes(trace[j], Clean))
    && exists c :: 0 <= c < k && trace[c] == Capture(snapshot)
  }

  lemma {:induction false} CapturedMeans(trace: seq<Event>)
    ensures After(trace).captured == "" || exists c :: 0 <= c < |trace| && trace[c] == Capture(After(trace).captured)
  {
    if trace != [] {
      var t := Drop(trace);
      CapturedMeans(t);
      if trace[|trace| - 1].Capture? {
        assert trace[|trace| - 1] == Capture(After(trace).captured);
      } else if After(t).captured != "" {
        var c :| 0 <= c < |t| && t[c] == Capture(After(t).captured);
        assert trace[c] == Capture(After(trace).captured);
      }
    }
  }

  lemma CapturedExtends(trace: seq<Event>, k: int, snapshot: string)
    requires trace != [] && CapturedAt(Drop(trace), k, snapshot)
    requires !Writes(trace[|trace| - 1], Snapshotted) && !Writes(trace[|trace| - 1], Clean)
    ensures CapturedAt(trace, k, snapshot)
  {
    var c :| 0 <= c < k && Drop(trace)[c] == Capture(snapshot);
    assert trace[c] == Capture(snapshot);
  }

  lemma {:induction false} SnapshotMeans(trace: seq<Event>)
    requires Lawful(trace) && !After(trace).stage.Clean? && After(trace).snapshot != ""
    ensures exists k :: CapturedAt(trace, k, After(trace).snapshot)
  {
    var t := Drop(trace);
    var e := trace[|trace| - 1];
    if e.Write? && e.stage.Snapshotted? {
      CapturedMeans(t);
      assert CapturedAt(trace, |trace| - 1, After(trace).snapshot);
    } else {
      assert !Writes(e, Clean) && After(t).snapshot == After(trace).snapshot && !After(t).stage.Clean?;
      SnapshotMeans(t);
      var k :| CapturedAt(t, k, After(t).snapshot);
      CapturedExtends(trace, k, After(trace).snapshot);
    }
  }

  /** Restore runs only after a confirmed stop of this rollback, with what this transaction captured. */
  lemma RestoreIsOrdered(trace: seq<Event>, i: nat)
    requires Lawful(trace) && i < |trace| && trace[i].Restore?
    ensures exists j :: HaltedSince(trace[..i], j)
    ensures exists k :: CapturedAt(trace[..i], k, trace[i].snapshot)
  {
    LawfulPrefix(trace, i);
    HaltedMeans(trace[..i]);
    SnapshotMeans(trace[..i]);
  }

  ghost predicate RestoredSince(trace: seq<Event>, j: int) {
    0 <= j < |trace| && trace[j].Restore? && trace[j].ok
    && forall k :: j < k < |trace| ==>
    !trace[k].Start? && !Writes(trace[k], RollingBack) && !Writes(trace[k], Snapshotted)
  }

  lemma {:induction false} RestoredMeans(trace: seq<Event>)
    requires After(trace).restored
    ensures exists j :: RestoredSince(trace, j)
  {
    var t := Drop(trace);
    var e := trace[|trace| - 1];
    if e.Restore? {
      assert RestoredSince(trace, |trace| - 1);
    } else {
      RestoredMeans(t);
      var j :| RestoredSince(t, j);
      assert RestoredSince(trace, j);
    }
  }

  /** Recovered is written only after that Restore succeeded. */
  lemma RecoveredIsRestored(trace: seq<Event>, i: nat)
    requires Lawful(trace) && i < |trace| && trace[i].Write? && trace[i].stage.Recovered?
    ensures exists j :: RestoredSince(trace[..i], j)
  {
    LawfulPrefix(trace, i);
    RestoredMeans(trace[..i]);
  }

  /** The last egress probe of the running Core succeeded. */
  ghost predicate ProvedSince(trace: seq<Event>, j: int) {
    0 <= j < |trace| && trace[j] == Probe(true) && forall k :: j < k < |trace| ==> !trace[k].Probe? && !trace[k].Start?
  }

  lemma {:induction false} ProvedMeans(trace: seq<Event>)
    requires After(trace).proved
    ensures exists j :: ProvedSince(trace, j)
  {
    if trace[|trace| - 1] == Probe(true) {
      assert ProvedSince(trace, |trace| - 1);
    } else {
      ProvedMeans(Drop(trace));
      var j :| ProvedSince(Drop(trace), j);
      assert ProvedSince(trace, j);
    }
  }

  /** An explicit Disconnect is in progress, and no rollback of it failed. */
  ghost predicate UserOffSince(trace: seq<Event>, j: int) {
    0 <= j < |trace| && trace[j].UserOff?
    && forall k :: j < k < |trace| ==> !trace[k].Return? && !trace[k].Crash? && trace[k] != Rollback(false)
  }

  lemma {:induction false} UserOffMeans(trace: seq<Event>)
    requires After(trace).userOff && !After(trace).failed
    ensures exists j :: UserOffSince(trace, j)
  {
    if trace[|trace| - 1].UserOff? {
      assert UserOffSince(trace, |trace| - 1);
    } else {
      UserOffMeans(Drop(trace));
      var j :| UserOffSince(Drop(trace), j);
      assert UserOffSince(trace, j);
    }
  }

  /** In the request in progress Core refused to stop, and has not stopped since. */
  ghost predicate ResistedSince(trace: seq<Event>, j: int) {
    0 <= j < |trace| && trace[j] == Stop(false)
    && forall k :: j < k < |trace| ==> !trace[k].Return? && !trace[k].Crash? && trace[k] != Stop(true)
  }

  lemma {:induction false} ResistedMeans(trace: seq<Event>)
    requires After(trace).resisted
    ensures exists j :: ResistedSince(trace, j)
  {
    if trace[|trace| - 1] == Stop(false) {
      assert ResistedSince(trace, |trace| - 1);
    } else {
      ResistedMeans(Drop(trace));
      var j :| ResistedSince(Drop(trace), j);
      assert ResistedSince(trace, j);
    }
  }

  /** What licenses a call to remove the block: an explicit Disconnect, or a committed profile with validated egress. */
  ghost predicate MayRemove(trace: seq<Event>) {
    || (exists j :: UserOffSince(trace, j))
    || ((exists j :: ProvedSince(trace, j)) && (exists snapshot :: LastWrite(trace, Committed, snapshot)))
  }

  /** The block is removed only with a licence. */
  lemma RemoveIsFailClosed(trace: seq<Event>, i: nat)
    requires Lawful(trace) && i < |trace| && trace[i].Remove?
    ensures MayRemove(trace[..i])
  {
    LawfulPrefix(trace, i);
    var m := After(trace[..i]);
    if m.userOff && !m.failed {
      UserOffMeans(trace[..i]);
    } else {
      ProvedMeans(trace[..i]);
      StageMeans(trace[..i]);
    }
  }

  /** Armed filters stay armed over every later call but a committed removal. */
  lemma {:induction false} BlockKept(initial: GuardState, trace: seq<Event>, i: nat)
    requires i <= |trace| && FiltersAfter(initial, trace[..i]).Armed?
    requires forall j :: i <= j < |trace| ==> trace[j] != Remove(true)
    ensures FiltersAfter(initial, trace).Armed?
    decreases |trace|
  {
    if i < |trace| {
      assert Drop(trace)[..i] == trace[..i];
      BlockKept(initial, Drop(trace), i);
    } else {
      assert trace[..i] == trace;
    }
  }

  /** The committed removal at `j` had a licence. */
  ghost predicate Lifts(trace: seq<Event>, j: int) {
    0 <= j < |trace| && trace[j] == Remove(true) && MayRemove(trace[..j])
  }

  /** Between a moment with the block and a moment without it lies a licensed committed removal. */
  lemma BlockFallsLicensed(initial: GuardState, trace: seq<Event>, i: nat)
    requires Lawful(trace) && i <= |trace|
    requires FiltersAfter(initial, trace[..i]).Armed? && !FiltersAfter(initial, trace).Armed?
    ensures exists j :: i <= j && Lifts(trace, j)
  {
    if forall j :: i <= j < |trace| ==> trace[j] != Remove(true) {
      BlockKept(initial, trace, i);
    } else {
      var j :| i <= j < |trace| && trace[j] == Remove(true);
      RemoveIsFailClosed(trace, j);
      assert Lifts(trace, j);
    }
  }

  lemma {:induction false} WithheldMeans(trace: seq<Event>, k: nat)
    requires k < |trace| && Withholds(trace[k]) && forall j :: k < j < |trace| ==> !trace[j].Staged?
    ensures After(trace).withheld
    decreases |trace|
  {
    if k < |trace| - 1 { WithheldMeans(Drop(trace), k); }
  }

  /** No stale restart: between a withholding and the next Core start a profile is staged afresh. */
  lemma NoStaleRestart(trace: seq<Event>, k: nat, i: nat)
    requires Lawful(trace) && k < i < |trace| && Withholds(trace[k]) && trace[i].Start?
    ensures exists j :: k < j < i && trace[j].Staged?
  {
    LawfulPrefix(trace, i);
    if forall j :: k < j < i ==> !trace[j].Staged? {
      WithheldMeans(trace[..i], k);
    }
  }
}
