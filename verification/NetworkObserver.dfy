/**
 The network observer: a revision counter that OS callbacks bump at any moment,
 and readers that sample adapters under one lock and hand out references under
 another. Every atomic access is its own step, so a run is an arbitrary
 interleaving of readers and callbacks.
 */
module NetworkObserver {
  import opened Wrappers

  type Tid = nat
  type Material = string
  type Reference = string

  datatype Context = Context(revision: nat, reference: Reference)

  /** Where a ReadContext call stands. */
  datatype Pc =
    | Idle
    | WantSample
    | Sampling(sampling: SamplePc)                      // holds the sample lock
    | WantReference(revision: nat, material: Material)
    | Referring(referring: ReferPc, revision: nat, material: Material)  // holds the reference lock

  datatype SamplePc =
    | Load
    | Read(before: nat)
    | Compare(before: nat, current: Option<Material>)
    | Bump
    | Swap(before: nat, read: Material)
    | Publish(captured: nat, read: Material)
  datatype ReferPc = FirstCheck | Retain | LastCheck

  /** A context returned to a caller: what its own sample read, and how many bumps had happened. */
  datatype Given = Given(context: Context, material: Material, bumps: nat)

  datatype State = State(
    revision: nat, ready: bool, previous: Option<Material>, retained: Option<Context>,
    sampleLock: Option<Tid>, referenceLock: Option<Tid>, threads: map<Tid, Pc>,
    // history: last sampled revision, what each sampled revision read, the reference of each, returned contexts, bumps
    last: nat, readings: map<nat, Material>, references: map<nat, Reference>, given: seq<Given>, bumps: nat)

  datatype Move =
    | Callback                                   // an interface, address, route or Wi-Fi notification
    | Close
    | Call(tid: Tid)
    | Step(tid: Tid, read: Option<Material>, drawn: Option<Reference>)

  const FIRST: nat := 1

  ghost predicate Init(s: State) {
    && s.revision == FIRST && s.previous.None? && s.retained.None? && s.sampleLock.None? && s.referenceLock.None?
    && s.threads == map[] && s.readings == map[] && s.references == map[] && s.given == [] && s.bumps == 0
  }

  function PcOf(s: State, tid: Tid): Pc { if tid in s.threads then s.threads[tid] else Idle }
  function At(s: State, tid: Tid, pc: Pc): State { s.(threads := s.threads[tid := pc]) }
  function Bumped(s: State): State { s.(revision := s.revision + 1, bumps := s.bumps + 1) }

  predicate Enabled(s: State, m: Move) {
    match m
    case Callback => true
    case Close => true
    case Call(tid) => PcOf(s, tid).Idle?
    case Step(tid, _, drawn) =>
      match PcOf(s, tid)
      case Idle => false
      case WantSample => s.sampleLock.None?
      case WantReference(_, _) => s.referenceLock.None?
      case Sampling(_) => true
      case Referring(_, _, _) => drawn.Some? ==> drawn.value !in s.references.Values   // drawn references are fresh
  }

  function SampleStep(s: State, tid: Tid, p: SamplePc, read: Option<Material>): State {
    match p
    case Load => At(s, tid, Sampling(Read(s.revision)))
    case Read(before) => At(s, tid, Sampling(Compare(before, read)))
    case Compare(before, current) =>
      At(s, tid, Sampling(if current.None? || before != s.revision then Bump
                          else if s.previous.Some? && s.previous != current then Swap(before, current.value)
                          else Publish(before, current.value)))
    case Bump => At(Bumped(s), tid, Idle).(previous := None, sampleLock := None)
    case Swap(before, current) =>
      if s.revision == before then At(Bumped(s), tid, Sampling(Publish(before + 1, current)))
      else At(s, tid, Idle).(previous := None, sampleLock := None)
    case Publish(captured, current) =>
      At(s, tid, WantReference(captured, current)).(
        previous := Some(current), sampleLock := None, last := captured, readings := s.readings[captured := current])
  }

  predicate IsCurrent(s: State, revision: nat) { s.ready && s.revision == revision }

  function ReferStep(s: State, tid: Tid, p: ReferPc, revision: nat, material: Material,
                     drawn: Option<Reference>): State {
    match p
    case FirstCheck =>
      if IsCurrent(s, revision) then At(s, tid, Referring(Retain, revision, material))
      else At(s, tid, Idle).(referenceLock := None)
    case Retain =>
      if s.retained.Some? && s.retained.value.revision == revision
          then At(s, tid, Referring(LastCheck, revision, material))
      else if drawn.None? then At(s, tid, Idle).(referenceLock := None)
      else At(s, tid, Referring(LastCheck, revision, material)).(
             retained := Some(Context(revision, drawn.value)), references := s.references[revision := drawn.value])
    case LastCheck =>
      At(s, tid, Idle).(
        referenceLock := None,
        given := s.given + if IsCurrent(s, revision) && s.retained.Some?
            then [Given(s.retained.value, material, s.bumps)] else [])
  }

  function Apply(s: State, m: Move): State
    requires Enabled(s, m)
  {
    match m
    case Callback => Bumped(s)
    case Close => s.(ready := false)
    case Call(tid) => if s.ready then At(s, tid, WantSample) else s
    case Step(tid, read, drawn) =>
      match PcOf(s, tid)
      case WantSample => At(s, tid, Sampling(Load)).(sampleLock := Some(tid))
      case WantReference(revision, material) =>
          At(s, tid, Referring(FirstCheck, revision, material)).(referenceLock := Some(tid))
      case Sampling(p) => SampleStep(s, tid, p, read)
      case Referring(p, revision, material) => ReferStep(s, tid, p, revision, material, drawn)
  }

  ghost predicate Run(s: State, moves: seq<Move>, t: State)
    decreases |moves|
  {
    if moves == [] then s == t
    else Enabled(s, moves[0]) && Run(Apply(s, moves[0]), moves[1..], t)
  }

  // ----- the invariant ------------------------------------------------------------------

  ghost predicate Locks(s: State) {
    forall tid | tid in s.threads ::
      (s.threads[tid].Sampling? ==> s.sampleLock == Some(tid))
          && (s.threads[tid].Referring? ==> s.referenceLock == Some(tid))
  }

  ghost predicate SampledBy(s: State, x: nat) { forall r | r in s.readings :: r <= x }

  /** `previous` is what the newest sampled revision read, and that is at most `x`; without it `x` is unsampled. */
  ghost predicate Previous(s: State, x: nat) {
    && (s.previous.Some? ==>
    s.last in s.readings && s.readings[s.last] == s.previous.value && s.last <= x && SampledBy(s, s.last))
    && (s.previous.None? ==> forall r | r in s.readings :: r < x)
  }

  ghost predicate SampleOk(s: State, p: SamplePc) {
    match p
    case Load => true
    case Read(before) => before <= s.revision && Previous(s, before)
    case Compare(before, _) => before <= s.revision && Previous(s, before)
    case Bump => true
    case Swap(before, read) => before <= s.revision && Previous(s, before) && s.previous.Some?
    case Publish(captured, read) =>
      captured <= s.revision && SampledBy(s, captured) && (captured in s.readings ==> s.readings[captured] == read)
  }

  ghost predicate Referenced(s: State, x: nat) { forall r | r in s.references :: r <= x }

  ghost predicate ReferOk(s: State, p: ReferPc, revision: nat) {
    match p
    case FirstCheck => true
    case Retain => revision <= s.revision && Referenced(s, revision)
    case LastCheck => s.retained.Some? && s.retained.value.revision == revision
  }

  ghost predicate ThreadOk(s: State, tid: Tid) requires tid in s.threads {
    match s.threads[tid]
    case Idle => true
    case WantSample => true
    case Sampling(p) => SampleOk(s, p)
    case WantReference(revision, material) => revision in s.readings && s.readings[revision] == material
    case Referring(p, revision, material) =>
      revision in s.readings && s.readings[revision] == material && ReferOk(s, p, revision)
  }

  ghost predicate Retained(s: State) {
    && (s.retained.None? ==> s.references == map[])
    && (s.retained.Some? ==>
          var c := s.retained.value;
          c.revision in s.references && s.references[c.revision] == c.reference && c.revision <= s.revision
          && Referenced(s, c.revision))
  }

  ghost predicate Distinct(s: State) {
    forall a, b | a in s.references && b in s.references && s.references[a] == s.references[b] :: a == b
  }

  ghost predicate GivenOk(s: State, g: Given) {
    && g.context.revision in s.readings && s.readings[g.context.revision] == g.material
    && g.context.revision in s.references && s.references[g.context.revision] == g.context.reference
    && g.context.revision == FIRST + g.bumps
  }

  ghost predicate Inv(s: State) {
    && s.revision == FIRST + s.bumps && Locks(s) && Previous(s, s.revision) && Retained(s) && Distinct(s)
    && (forall tid | tid in s.threads :: ThreadOk(s, tid))
    && (forall i | 0 <= i < |s.given| :: GivenOk(s, s.given[i]))
  }

  // ----- every move keeps it ---------------------------------------------------------------

  /** Histories only grow, and the counter only rises. */
  ghost predicate Grows(s: State, t: State) {
    && s.revision <= t.revision && t.revision - t.bumps == s.revision - s.bumps
    && (forall r | r in s.readings :: r in t.readings && t.readings[r] == s.readings[r])
    && (forall r | r in s.references :: r in t.references && t.references[r] == s.references[r])
  }

  /** A thread that does not move keeps its facts: a sampler or a referrer alone holds its lock. */
  lemma OthersKeep(s: State, t: State, j: Tid)
    requires Grows(s, t) && j in s.threads && j in t.threads && t.threads[j] == s.threads[j] && ThreadOk(s, j)
    requires s.threads[j].Sampling? ==> t.previous == s.previous && t.last == s.last && t.readings == s.readings
    requires s.threads[j].Referring? ==> t.retained == s.retained && t.references == s.references
    ensures ThreadOk(t, j)
  {
  }

  /** What a move of one thread has to show for the invariant to survive it. */
  ghost predicate Moves(s: State, t: State, tid: Tid) {
    && Grows(s, t) && tid in t.threads && t.threads == s.threads[tid := t.threads[tid]] && ThreadOk(t, tid)
    && t.revision == FIRST + t.bumps && Previous(t, t.revision) && Retained(t) && Distinct(t)
    && (!PcOf(s, tid).Sampling? ==> t.previous == s.previous && t.last == s.last && t.readings == s.readings)
    && (!PcOf(s, tid).Referring? ==> t.retained == s.retained && t.references == s.references)
    && LockMoves(s.sampleLock, t.sampleLock, tid, PcOf(s, tid).Sampling?, t.threads[tid].Sampling?)
    && LockMoves(s.referenceLock, t.referenceLock, tid, PcOf(s, tid).Referring?, t.threads[tid].Referring?)
    && (t.given == s.given || (|t.given| == |s.given| + 1 && t.given[..|s.given|] == s.given
    && GivenOk(t, t.given[|s.given|])))
  }

  predicate LockMoves(before: Option<Tid>, after: Option<Tid>, tid: Tid, held: bool, holds: bool) {
    && (if holds then after == Some(tid) else if held then after.None? else after == before)
    && (holds && !held ==> before.None?)
  }

  lemma MovesKeepLocks(s: State, t: State, tid: Tid)
    requires Locks(s) && Moves(s, t, tid)
    ensures Locks(t)
  {
    assert forall j | j in t.threads && j != tid :: j in s.threads && t.threads[j] == s.threads[j];
  }

  lemma MovesKeep(s: State, t: State, tid: Tid)
    requires Inv(s) && Moves(s, t, tid)
    ensures Inv(t)
  {
    MovesKeepLocks(s, t, tid);
    forall j | j in t.threads && j != tid ensures ThreadOk(t, j) {
      assert j in s.threads && t.threads[j] == s.threads[j];
      OthersKeep(s, t, j);
    }
    forall i | 0 <= i < |t.given| ensures GivenOk(t, t.given[i]) {
      if i < |s.given| { assert t.given[i] == s.given[i] && GivenOk(s, s.given[i]); }
    }
  }

  lemma ReadMoves(s: State, tid: Tid, p: SamplePc, read: Option<Material>)
    requires Inv(s) && tid in s.threads && s.threads[tid] == Sampling(p) && (p.Load? || p.Read?)
    ensures Moves(s, SampleStep(s, tid, p, read), tid)
  {
    assert ThreadOk(s, tid);
  }

  lemma CompareMoves(s: State, tid: Tid, p: SamplePc, read: Option<Material>)
    requires Inv(s) && tid in s.threads && s.threads[tid] == Sampling(p) && p.Compare?
    ensures Moves(s, SampleStep(s, tid, p, read), tid)
  {
    assert ThreadOk(s, tid);
  }

  lemma BumpMoves(s: State, tid: Tid, p: SamplePc, read: Option<Material>)
    requires Inv(s) && tid in s.threads && s.threads[tid] == Sampling(p) && (p.Bump? || p.Swap?)
    ensures Moves(s, SampleStep(s, tid, p, read), tid)
  {
    assert ThreadOk(s, tid);
  }

  lemma PublishMoves(s: State, tid: Tid, p: SamplePc, read: Option<Material>)
    requires Inv(s) && tid in s.threads && s.threads[tid] == Sampling(p) && p.Publish?
    ensures Moves(s, SampleStep(s, tid, p, read), tid)
  {
    assert ThreadOk(s, tid);
  }

  lemma RetainMoves(s: State, tid: Tid, p: ReferPc, revision: nat, material: Material, drawn: Option<Reference>)
    requires Inv(s) && tid in s.threads && s.threads[tid] == Referring(p, revision, material) && p.Retain?
    requires drawn.Some? ==> drawn.value !in s.references.Values
    ensures Moves(s, ReferStep(s, tid, p, revision, material, drawn), tid)
  {
    assert ThreadOk(s, tid);
  }

  lemma CheckMoves(s: State, tid: Tid, p: ReferPc, revision: nat, material: Material, drawn: Option<Reference>)
    requires Inv(s) && tid in s.threads && s.threads[tid] == Referring(p, revision, material) && !p.Retain?
    ensures Moves(s, ReferStep(s, tid, p, revision, material, drawn), tid)
  {
    assert ThreadOk(s, tid);
  }

  lemma StepMoves(s: State, tid: Tid, read: Option<Material>, drawn: Option<Reference>)
    requires Inv(s) && Enabled(s, Step(tid, read, drawn))
    ensures Moves(s, Apply(s, Step(tid, read, drawn)), tid)
  {
    match PcOf(s, tid)
    case WantSample =>
    case WantReference(revision, material) => assert ThreadOk(s, tid);
    case Sampling(p) =>
      if p.Publish? { PublishMoves(s, tid, p, read); }
      else if p.Bump? || p.Swap? { BumpMoves(s, tid, p, read); }
      else if p.Compare? { CompareMoves(s, tid, p, read); }
      else { ReadMoves(s, tid, p, read); }
    case Referring(p, revision, material) =>
      if p.Retain? { RetainMoves(s, tid, p, revision, material, drawn); }
          else { CheckMoves(s, tid, p, revision, material, drawn); }
  }

  lemma CallbackKeeps(s: State)
    requires Inv(s)
    ensures Inv(Bumped(s)) && Grows(s, Bumped(s))
  {
    var t := Bumped(s);
    forall j | j in t.threads ensures ThreadOk(t, j) { OthersKeep(s, t, j); }
    forall i | 0 <= i < |t.given| ensures GivenOk(t, t.given[i]) { assert GivenOk(s, s.given[i]); }
  }

  lemma CloseKeeps(s: State)
    requires Inv(s)
    ensures Inv(s.(ready := false))
  {
    var t := s.(ready := false);
    forall j | j in t.threads ensures ThreadOk(t, j) { OthersKeep(s, t, j); }
    forall i | 0 <= i < |t.given| ensures GivenOk(t, t.given[i]) { assert GivenOk(s, s.given[i]); }
  }

  lemma MoveKeeps(s: State, m: Move)
    requires Inv(s) && Enabled(s, m)
    ensures Inv(Apply(s, m)) && Grows(s, Apply(s, m)) && s.given <= Apply(s, m).given
  {
    match m
    case Callback => CallbackKeeps(s);
    case Close => CloseKeeps(s);
    case Call(tid) => if s.ready { MovesKeep(s, Apply(s, m), tid); }
    case Step(tid, read, drawn) =>
      StepMoves(s, tid, read, drawn);
      MovesKeep(s, Apply(s, m), tid);
  }

  lemma {:induction false} RunKeeps(s: State, moves: seq<Move>, t: State)
    requires Inv(s) && Run(s, moves, t)
    ensures Inv(t) && Grows(s, t) && s.given <= t.given
    decreases |moves|
  {
    if moves != [] {
      MoveKeeps(s, moves[0]);
      RunKeeps(Apply(s, moves[0]), moves[1..], t);
    }
  }

  // ----- soundness of the fence ---------------------------------------------------------------

  ghost predicate Reachable(s: State) {
    exists s0: State, moves: seq<Move> :: Init(s0) && Run(s0, moves, s)
  }

  lemma ReachableInv(s: State)
    requires Reachable(s)
    ensures Inv(s)
  {
    var s0: State, moves: seq<Move> :| Init(s0) && Run(s0, moves, s);
    RunKeeps(s0, moves, s);
  }

  /** A sampled revision never changes what it read, nor a revision its reference, as the run goes on. */
  lemma RevisionsAreFixed(s: State, moves: seq<Move>, t: State, r: nat)
    requires Reachable(s) && Run(s, moves, t)
    ensures r in s.readings ==> r in t.readings && t.readings[r] == s.readings[r]
    ensures r in s.references ==> r in t.references && t.references[r] == s.references[r]
  {
    ReachableInv(s);
    RunKeeps(s, moves, t);
  }

  /**
   Two contexts with the same reference were given for the same revision, to
   samples that read the same adapters, with no callback and no detected change
   in between.
   */
  lemma FenceSound(s: State, i: nat, j: nat)
    requires Reachable(s) && i < |s.given| && j < |s.given|
    requires s.given[i].context.reference == s.given[j].context.reference
    ensures s.given[i] == s.given[j]
  {
    ReachableInv(s);
    assert GivenOk(s, s.given[i]) && GivenOk(s, s.given[j]);
  }

  /** A context is current exactly as long as the observer is open and nothing bumped the counter since it was given. */
  lemma CurrentMeansUnchanged(s: State, i: nat)
    requires Reachable(s) && i < |s.given|
    ensures IsCurrent(s, s.given[i].context.revision) <==> s.ready && s.bumps == s.given[i].bumps
    ensures s.given[i].bumps <= s.bumps
  {
    ReachableInv(s);
    assert GivenOk(s, s.given[i]);
  }

  // ----- a reader that is left alone gets its context -----------------------------------------------

  lemma {:induction false} RunOn(s: State, moves: seq<Move>, t: State, more: seq<Move>, u: State)
    requires Run(s, moves, t) && Run(t, more, u)
    ensures Run(s, moves + more, u)
    decreases |moves|
  {
    if moves == [] {
      assert moves + more == more;
    } else {
      assert (moves + more)[1..] == moves[1..] + more;
      RunOn(Apply(s, moves[0]), moves[1..], t, more, u);
    }
  }

  lemma OneMove(s: State, m: Move)
    requires Enabled(s, m)
    ensures Run(s, [m], Apply(s, m))
  {
    assert [m][1..] == [];
  }

  /** Both locks are free and the observer is open. */
  predicate Free(s: State) { s.ready && s.sampleLock.None? && s.referenceLock.None? }

  /** The revision a sample that reads `material` gets: the next one if it differs from the last one's. */
  function Captured(s: State, material: Material): nat {
    if s.previous.Some? && s.previous.value != material then s.revision + 1 else s.revision
  }

  /** The state after a sample that nothing interrupted. */
  function Sampled(s: State, tid: Tid, material: Material): State {
    var captured := Captured(s, material);
    At(s, tid, WantReference(captured, material)).(
      revision := captured, bumps := s.bumps + captured - s.revision, previous := Some(material), last := captured,
      readings := s.readings[captured := material])
  }

  /** One step of `tid` to the program point `pc`, everything else already as in `t`. */
  lemma StepTo(s: State, moves: seq<Move>, t: State, tid: Tid, read: Option<Material>, drawn: Option<Reference>,
               u: State)
    requires Run(s, moves, t) && Enabled(t, Step(tid, read, drawn)) && Apply(t, Step(tid, read, drawn)) == u
    ensures Run(s, moves + [Step(tid, read, drawn)], u)
  {
    OneMove(t, Step(tid, read, drawn));
    RunOn(s, moves, t, [Step(tid, read, drawn)], u);
  }

  /** Load, read and compare: the sampler has seen no callback. */
  lemma CompareAlone(s: State, tid: Tid, material: Material) returns (moves: seq<Move>)
    requires Free(s) && PcOf(s, tid).Idle?
    ensures Run(s, moves, At(s, tid, Sampling(Compare(s.revision, Some(material)))).(sampleLock := Some(tid)))
  {
    var read := Some(material);
    var held := s.(sampleLock := Some(tid));
    OneMove(s, Call(tid));
    moves := [Call(tid)];
    StepTo(s, moves, At(s, tid, WantSample), tid, read, None, At(held, tid, Sampling(Load)));
    moves := moves + [Step(tid, read, None)];
    StepTo(s, moves, At(held, tid, Sampling(Load)), tid, read, None, At(held, tid, Sampling(Read(s.revision))));
    moves := moves + [Step(tid, read, None)];
    StepTo(s, moves, At(held, tid, Sampling(Read(s.revision))), tid, read, None,
           At(held, tid, Sampling(Compare(s.revision, read))));
    moves := moves + [Step(tid, read, None)];
  }

  /** A changed network is bumped by the sampler itself. */
  lemma ChangedAlone(s: State, tid: Tid, material: Material) returns (moves: seq<Move>)
    requires Free(s) && PcOf(s, tid).Idle? && s.previous.Some? && s.previous.value != material
    ensures Run(s, moves, At(Bumped(s), tid, Sampling(Publish(s.revision + 1, material))).(sampleLock := Some(tid)))
  {
    var read := Some(material);
    var held := s.(sampleLock := Some(tid));
    moves := CompareAlone(s, tid, material);
    var u := At(held, tid, Sampling(Swap(s.revision, material)));
    StepTo(s, moves, At(held, tid, Sampling(Compare(s.revision, read))), tid, read, None, u);
    moves := moves + [Step(tid, read, None)];
    StepTo(s, moves, u, tid, read, None, At(Bumped(held), tid, Sampling(Publish(s.revision + 1, material))));
    moves := moves + [Step(tid, read, None)];
  }

  /** The first sample and an unchanged network are not. */
  lemma KeptAlone(s: State, tid: Tid, material: Material) returns (moves: seq<Move>)
    requires Free(s) && PcOf(s, tid).Idle? && (s.previous.Some? ==> s.previous.value == material)
    ensures Run(s, moves, At(s, tid, Sampling(Publish(s.revision, material))).(sampleLock := Some(tid)))
  {
    var read := Some(material);
    var held := s.(sampleLock := Some(tid));
    moves := CompareAlone(s, tid, material);
    StepTo(s, moves, At(held, tid, Sampling(Compare(s.revision, read))), tid, read, None,
           At(held, tid, Sampling(Publish(s.revision, material))));
    moves := moves + [Step(tid, read, None)];
  }

  /** Where the sampler stands before it publishes. */
  function Publishing(s: State, tid: Tid, material: Material): State {
    var captured := Captured(s, material);
    At(s, tid, Sampling(Publish(captured, material))).(
      revision := captured, bumps := s.bumps + captured - s.revision, sampleLock := Some(tid))
  }

  lemma PublishAlone(s: State, moves: seq<Move>, tid: Tid, material: Material)
    requires Free(s) && Run(s, moves, Publishing(s, tid, material))
    ensures Run(s, moves + [Step(tid, None, None)], Sampled(s, tid, material))
  {
    StepTo(s, moves, Publishing(s, tid, material), tid, None, None, Sampled(s, tid, material));
  }

  lemma SampleAlone(s: State, tid: Tid, material: Material) returns (moves: seq<Move>)
    requires Free(s) && PcOf(s, tid).Idle?
    ensures Run(s, moves, Sampled(s, tid, material))
  {
    if s.previous.Some? && s.previous.value != material {
      moves := ChangedAlone(s, tid, material);
    } else {
      moves := KeptAlone(s, tid, material);
    }
    PublishAlone(s, moves, tid, material);
    moves := moves + [Step(tid, None, None)];
  }

  /** The context of a revision: the retained one, or a new one with the reference drawn. */
  function Chosen(s: State, revision: nat, drawn: Reference): Context {
    if s.retained.Some? && s.retained.value.revision == revision then s.retained.value else Context(revision, drawn)
  }

  /** The state after the reference was handed out. */
  function Handed(s: State, tid: Tid, revision: nat, material: Material, drawn: Reference): State {
    var context := Chosen(s, revision, drawn);
    At(s, tid, Idle).(retained := Some(context),
                      references := if s.retained == Some(context) then s.references
                                    else s.references[revision := drawn],
                      given := s.given + [Given(context, material, s.bumps)])
  }

  lemma ReferAlone(s: State, tid: Tid, revision: nat, material: Material, drawn: Reference)
    returns (moves: seq<Move>)
    requires s.ready && s.referenceLock.None? && s.revision == revision && drawn !in s.references.Values
    requires PcOf(s, tid) == WantReference(revision, material)
    ensures Run(s, moves, Handed(s, tid, revision, material, drawn))
  {
    var held := s.(referenceLock := Some(tid));
    moves := [Step(tid, None, None)];
    OneMove(s, moves[0]);
    var t := At(held, tid, Referring(FirstCheck, revision, material));
    var u := At(held, tid, Referring(Retain, revision, material));
    StepTo(s, moves, t, tid, None, None, u);
    moves := moves + [Step(tid, None, None)];
    t := Handed(held, tid, revision, material, drawn).(given := s.given);
    t := At(t, tid, Referring(LastCheck, revision, material));
    StepTo(s, moves, u, tid, None, Some(drawn), t);
    moves := moves + [Step(tid, None, Some(drawn))];
    StepTo(s, moves, t, tid, None, None, Handed(s, tid, revision, material, drawn));
    moves := moves + [Step(tid, None, None)];
  }

  /**
   The fence answers: a read that meets no callback is given a context for what it read, in the revision of an
   unchanged network and in the next one of a changed network.
   */
  lemma AloneIsGiven(s: State, tid: Tid, material: Material, drawn: Reference) returns (t: State, moves: seq<Move>)
    requires Free(s) && PcOf(s, tid).Idle? && drawn !in s.references.Values
    ensures Run(s, moves, t) && Free(t) && t.threads == s.threads[tid := Idle] && t.previous == Some(material)
    ensures t.references.Values <= s.references.Values + {drawn}
    ensures var context := Chosen(s, Captured(s, material), drawn);
            t.revision == context.revision == Captured(s, material) && t.retained == Some(context)
            && t.given == s.given + [Given(context, material, s.bumps + Captured(s, material) - s.revision)]
  {
    var sampling := SampleAlone(s, tid, material);
    var sampled := Sampled(s, tid, material);
    var referring := ReferAlone(sampled, tid, Captured(s, material), material, drawn);
    t := Handed(sampled, tid, Captured(s, material), material, drawn);
    RunOn(s, sampling, sampled, referring, t);
    moves := sampling + referring;
  }

  lemma ReachableOn(s: State, moves: seq<Move>, t: State)
    requires Reachable(s) && Run(s, moves, t)
    ensures Reachable(t)
  {
    var s0: State, before: seq<Move> :| Init(s0) && Run(s0, before, s);
    RunOn(s0, before, s, moves, t);
  }

  /**
   Two reads one after the other, by any threads, with no callback from the first to the end of the second: they are
   given the same context if they read the same, and different references if not.
   */
  lemma ChangeIsSeen(s: State, i: Tid, j: Tid, first: Material, second: Material, drawn: Reference, other: Reference)
    returns (t: State, moves: seq<Move>)
    requires Reachable(s) && Free(s) && PcOf(s, i).Idle? && PcOf(s, j).Idle?
    requires drawn !in s.references.Values && other !in s.references.Values && drawn != other
    ensures Run(s, moves, t) && |t.given| == |s.given| + 2
    ensures var (a, b) := (t.given[|s.given|], t.given[|s.given| + 1]);
            && a.material == first && b.material == second
            && (first == second ==> a == b)
            && (first != second ==>
                  a.context.reference != b.context.reference && a.context.revision < b.context.revision)
  {
    var u, before := AloneIsGiven(s, i, first, drawn);
    ReachableInv(s);
    ReachableOn(s, before, u);
    ReachableInv(u);
    var after;
    t, after := AloneIsGiven(u, j, second, other);
    RunOn(s, before, u, after, t);
    moves := before + after;
    ReachableOn(s, moves, t);
    if first != second && t.given[|s.given|].context.reference == t.given[|s.given| + 1].context.reference {
      FenceSound(t, |s.given|, |s.given| + 1);
    }
  }
}
