/**
 One client exchange: the calling thread writes a request and waits for its
 response, and a companion thread turns a raised cancellation into a cancel of
 exactly that request. Every access to shared state is one step.
 */
module ClientExchange {
  import opened Wrappers

  /** The session token and the nonce of one request. */
  datatype Target = Target(session: nat, nonce: nat)

  /** What is fixed for one exchange: `bound` is ConnectWithIdentity, which is also cancellable. */
  datatype Call = Call(cancellable: bool, bound: bool, control: bool, target: Target)

  datatype Response = Pending | Lost | Mismatched | Matching

  datatype Pc =
    | PreCheck | Publish | Write | CancelWrite | Spawn | Read | RaiseLost | Finish | Join | After | Returned

  /** The companion: `done` is the value of `finished` it read at the top of this turn. */
  datatype Companion = Unborn | Top | Decide(done: bool) | Send(done: bool) | Check | Exited

  datatype State = State(
    call: Call, pc: Pc, companion: Companion,
    cancelRequested: bool, finished: bool,    // shared with the companion and the owner
    raised: bool,                             // somebody else asked for the cancellation
    dispatched: bool, written: bool, response: Response, log: Log)

  /**
   Every target on record: the one published to the owner, the companion's copy, the exchange's cancels and the
   owner's.
   */
  datatype Log = Log(published: Option<Target>, carried: Option<Target>, cancels: seq<Target>, asked: seq<Target>)

  ghost predicate Init(s: State) {
    && (s.call.bound ==> s.call.cancellable) && s.pc.PreCheck? && s.companion.Unborn? && !s.finished
    && s.raised == s.cancelRequested && !s.dispatched && !s.written && s.response.Pending?
    && s.log == Log(None, None, [], [])
  }

  datatype Move =
    | Owner                                  // another thread raises cancel_requested
    | Ask                                    // and asks the service to cancel the published target
    | Main(write: Wrote, response: Response) // what the write put on the pipe, and what the wait ended with
    | Side(accepted: bool)                   // `accepted`: the service acknowledged the cancel

  datatype Wrote = Nothing | Part | All

  predicate Enabled(s: State, m: Move) {
    match m
    case Owner => s.call.control
    case Ask => s.call.control && s.log.published.Some?
    case Main(_, response) =>
      !s.pc.Returned? && (s.pc.Join? ==> s.companion.Unborn? || s.companion.Exited?) && !response.Pending?
    case Side(_) => !s.companion.Unborn? && !s.companion.Exited?
  }

  /** What a step of the calling thread puts on record. */
  function MainLog(s: State): Log {
    var own := s.call.target;
    var answered := s.pc.After? && s.call.cancellable
        && (s.response.Mismatched? || (s.response.Lost? && !s.call.control));
    Log(if s.pc.Publish? && s.call.bound && s.call.control then Some(own) else s.log.published,
        if s.pc.Spawn? then Some(own) else s.log.carried,
        if s.pc.CancelWrite? || answered then s.log.cancels + [own] else s.log.cancels, s.log.asked)
  }

  function SideLog(s: State): Log {
    s.log.(cancels := if s.companion.Send? && s.log.carried.Some? then s.log.cancels + [s.log.carried.value]
        else s.log.cancels)
  }

  function MainStep(s: State, write: Wrote, response: Response): State {
    match s.pc
    case PreCheck => s.(pc := if s.call.cancellable && s.call.control && s.cancelRequested then Returned else Publish)
    case Publish => s.(pc := Write)
    case Write => s.(pc := if write.All? then Spawn else if s.call.cancellable then CancelWrite else Returned,
                     dispatched := true, written := !write.Nothing?)
    case CancelWrite => s.(pc := Returned)
    case Spawn => s.(pc := Read, companion := if s.call.cancellable && s.call.control then Top else Unborn)
    case Read => s.(pc := RaiseLost, response := response)
    case RaiseLost => s.(pc := Finish, cancelRequested := s.cancelRequested
        || (s.response.Lost? && s.call.cancellable && s.call.control))
    case Finish => s.(pc := Join, finished := true)
    case Join => s.(pc := After)
    case After => s.(pc := Returned)
    case Returned => s
  }

  function SideStep(s: State, accepted: bool): State {
    match s.companion
    case Top => s.(companion := Decide(s.finished))
    case Decide(done) => s.(companion := if s.cancelRequested then Send(done) else if done then Exited else Top)
    case Send(done) => s.(companion := if accepted || done then Exited else Check)
    case Check => s.(companion := if s.finished then Exited else Top)
    case _ => s
  }

  function Apply(s: State, m: Move): State
    requires Enabled(s, m)
  {
    match m
    case Owner => s.(cancelRequested := true, raised := true)
    case Ask => s.(log := s.log.(asked := s.log.asked + [s.log.published.value]))
    case Main(write, response) => MainStep(s, write, response).(log := MainLog(s))
    case Side(accepted) => SideStep(s, accepted).(log := SideLog(s))
  }

  ghost predicate Run(s: State, moves: seq<Move>, t: State)
    decreases |moves|
  {
    if moves == [] then s == t
    else Enabled(s, moves[0]) && Run(Apply(s, moves[0]), moves[1..], t)
  }

  ghost predicate Reachable(s: State) { exists s0: State, moves: seq<Move> :: Init(s0) && Run(s0, moves, s) }

  // ----- the invariant --------------------------------------------------------------------

  predicate Waited(pc: Pc) { pc.Finish? || pc.Join? || pc.After? }
  predicate Began(pc: Pc) { pc.Spawn? || pc.Read? || pc.RaiseLost? || Waited(pc) }

  /** Nothing but this request is ever cancelled. */
  predicate OwnOnly(cancels: seq<Target>, target: Target) { forall i :: 0 <= i < |cancels| ==> cancels[i] == target }

  predicate Targets(log: Log, own: Target) {
    && OwnOnly(log.cancels, own) && OwnOnly(log.asked, own)
    && (log.published.Some? ==> log.published.value == own) && (log.carried.Some? ==> log.carried.value == own)
  }

  ghost predicate Inv(s: State) { Flow(s) && Unasked(s) && Targets(s.log, s.call.target) }

  /** As long as nobody else asks, only a request without its response is cancelled. */
  predicate Unasked(s: State) {
    && (!s.call.cancellable || !s.dispatched ==> s.log.cancels == [])
    && (s.raised ==> s.cancelRequested) && (s.pc.CancelWrite? ==> s.response.Pending?)
    && (!s.raised && s.cancelRequested ==> s.response.Lost? && (Waited(s.pc) || s.pc.Returned?))
    && (!s.raised && s.log.cancels != [] ==> !s.response.Matching? && (Waited(s.pc) || s.pc.Returned?))
    && (!s.raised && s.companion.Send? ==> s.response.Lost?)
  }

  ghost predicate Flow(s: State) { Progress(s) && Waits(s) && Accompanied(s) }

  /** How far the request is. */
  ghost predicate Progress(s: State) {
    && (s.call.bound ==> s.call.cancellable)
    && (s.written ==> s.dispatched) && (Began(s.pc) || s.pc.CancelWrite? ==> s.dispatched)
    && (s.pc.PreCheck? || s.pc.Publish? || s.pc.Write? ==> !s.dispatched && s.response.Pending? && !s.finished)
    && (s.pc.CancelWrite? ==> s.call.cancellable)
    && (s.log.published.Some? ==> s.call.bound)
    && ((s.pc.Write? || s.dispatched) && s.call.bound && s.call.control ==> s.log.published.Some?)
  }

  /** What the wait ended with, and what it has raised. */
  ghost predicate Waits(s: State) {
    && (s.pc.RaiseLost? || Waited(s.pc) ==> !s.response.Pending?) && (s.pc.Read? || s.pc.Spawn? ==> s.response.Pending?)
    && (Waited(s.pc) && s.response.Lost? && s.call.cancellable && s.call.control ==> s.cancelRequested)
    && (s.finished ==> s.pc.Join? || s.pc.After? || s.pc.Returned?)
    && (s.pc.Join? || s.pc.After? ==> s.finished)
    && (s.finished && s.response.Lost? && s.call.cancellable && s.call.control ==> s.cancelRequested)
    && (s.finished ==> !s.response.Pending?)
  }

  /** Where the companion is, and what a return promises. */
  ghost predicate Accompanied(s: State) {
    && (!s.companion.Unborn? ==> s.log.carried.Some?)
    && (s.companion.Unborn? <==>
    !(s.call.cancellable && s.call.control && (s.pc.Read? || s.pc.RaiseLost? || Waited(s.pc) || s.finished)))
    && (s.companion.Decide? && s.companion.done ==> s.finished)
    && (s.companion.Send? && s.companion.done ==> s.finished)
    && (s.companion.Send? ==> s.cancelRequested)
    && (s.companion.Check? ==> s.log.cancels != [])
    && (s.companion.Exited? ==> s.log.cancels != [] || (s.finished && !s.response.Lost?))
    && (s.pc.After? ==> s.companion.Unborn? || s.companion.Exited?)
    // what a return promises
    && (s.pc.Returned? && s.dispatched && s.call.cancellable && !s.response.Matching? ==> s.log.cancels != [])
    && (s.pc.Returned? ==> s.companion.Unborn? || s.companion.Exited?)
  }

  lemma MainProgresses(s: State, write: Wrote, response: Response)
    requires Flow(s) && Enabled(s, Main(write, response))
    ensures Progress(Apply(s, Main(write, response)))
  {
  }

  lemma MainWaits(s: State, write: Wrote, response: Response)
    requires Flow(s) && Enabled(s, Main(write, response))
    ensures Waits(Apply(s, Main(write, response)))
  {
  }

  lemma MainKeeps(s: State, write: Wrote, response: Response)
    requires Flow(s) && Enabled(s, Main(write, response))
    ensures Flow(Apply(s, Main(write, response)))
  {
    MainProgresses(s, write, response);
    MainWaits(s, write, response);
    MainAccompanied(s, write, response);
  }

  lemma MainAccompanied(s: State, write: Wrote, response: Response)
    requires Flow(s) && Enabled(s, Main(write, response))
    ensures Accompanied(Apply(s, Main(write, response)))
  {
  }

  lemma SideKeeps(s: State, accepted: bool)
    requires Flow(s) && Enabled(s, Side(accepted))
    ensures Flow(Apply(s, Side(accepted)))
  {
  }

  lemma MainKeepsUnasked(s: State, write: Wrote, response: Response)
    requires Flow(s) && Unasked(s) && Enabled(s, Main(write, response))
    ensures Unasked(Apply(s, Main(write, response)))
  {
  }

  lemma SideKeepsUnasked(s: State, accepted: bool)
    requires Flow(s) && Unasked(s) && Enabled(s, Side(accepted))
    ensures Unasked(Apply(s, Side(accepted)))
  {
  }

  lemma LogKeeps(s: State)
    requires Targets(s.log, s.call.target)
    ensures Targets(MainLog(s), s.call.target) && Targets(SideLog(s), s.call.target)
  {
  }

  lemma MoveKeeps(s: State, m: Move)
    requires Inv(s) && Enabled(s, m)
    ensures Inv(Apply(s, m)) && Apply(s, m).call == s.call
  {
    LogKeeps(s);
    FlowKept(s, m);
  }

  lemma FlowKept(s: State, m: Move)
    requires Flow(s) && Unasked(s) && Enabled(s, m)
    ensures Flow(Apply(s, m)) && Unasked(Apply(s, m))
  {
    match m
    case Owner =>
    case Ask =>
    case Main(write, response) =>
      MainKeeps(s, write, response);
      MainKeepsUnasked(s, write, response);
    case Side(accepted) =>
      SideKeeps(s, accepted);
      SideKeepsUnasked(s, accepted);
  }

  lemma {:induction false} RunKeeps(s: State, moves: seq<Move>, t: State)
    requires Inv(s) && Run(s, moves, t)
    ensures Inv(t) && t.call == s.call
    decreases |moves|
  {
    if moves != [] {
      MoveKeeps(s, moves[0]);
      RunKeeps(Apply(s, moves[0]), moves[1..], t);
    }
  }

  lemma ReachableInv(s: State)
    requires Reachable(s)
    ensures Inv(s)
  {
    var s0: State, moves: seq<Move> :| Init(s0) && Run(s0, moves, s);
    RunKeeps(s0, moves, s);
  }

  // ----- a lost response is cancelled -----------------------------------------------------------

  /**
   A cancellable request that was dispatched and got no matching response has been cancelled by the return, and no
   other ever is.
   */
  lemma LostResponseCancelled(s: State)
    requires Reachable(s) && s.pc.Returned? && s.dispatched && s.call.cancellable && !s.response.Matching?
    ensures s.log.cancels != [] && forall i :: 0 <= i < |s.log.cancels| ==> s.log.cancels[i] == s.call.target
  {
    ReachableInv(s);
  }

  /**
   As long as nobody else asked, an exchange that returned has cancelled its request exactly if that was
   cancellable, was dispatched and got no matching response.
   */
  lemma CancelsExactly(s: State)
    requires Reachable(s) && s.pc.Returned? && !s.raised
    ensures s.log.cancels != [] <==> s.call.cancellable && s.dispatched && !s.response.Matching?
  {
    ReachableInv(s);
  }

  /** At no moment is a request cancelled that is not cancellable or was not dispatched. */
  lemma NoCancelWithoutDispatch(s: State)
    requires Reachable(s) && (!s.call.cancellable || !s.dispatched)
    ensures s.log.cancels == []
  {
    ReachableInv(s);
  }

  /** Every cancel, the exchange's own and its owner's, names this request; the owner can name none but a bound one. */
  lemma CancelsOwnTarget(s: State)
    requires Reachable(s)
    ensures OwnOnly(s.log.cancels + s.log.asked, s.call.target)
            && (s.log.published.Some? ==> s.call.bound && s.log.published.value == s.call.target)
  {
    ReachableInv(s);
  }

  /** And the companion is gone by then. */
  lemma NoCompanionAfterReturn(s: State)
    requires Reachable(s) && s.pc.Returned?
    ensures s.companion.Unborn? || s.companion.Exited?
  {
    ReachableInv(s);
  }

  // ----- the companion exits --------------------------------------------------------------------

  /** Once the wait is over, how many of its own steps the companion can still take. */
  function Left(c: Companion): nat {
    match c
    case Unborn => 0
    case Exited => 0
    case Check => 1
    case Send(done) => if done then 1 else 2
    case Decide(done) => if done then 2 else 4
    case Top => 3
  }

  function Sides(moves: seq<Move>): nat {
    if moves == [] then 0 else (if moves[0].Side? then 1 else 0) + Sides(moves[1..])
  }

  predicate Gone(c: Companion) { c.Unborn? || c.Exited? }

  /**
   Whatever the other threads do, the companion is gone after at most `Left` more steps of its own, and
   until then it can always take one: in every schedule that runs on, it exits and the join returns.
   */
  lemma {:induction false} CompanionExits(s: State, moves: seq<Move>, t: State)
    requires Inv(s) && s.finished && Run(s, moves, t)
    ensures Sides(moves) + Left(t.companion) <= Left(s.companion) <= 4 && t.finished
    ensures Sides(moves) == Left(s.companion) ==> Gone(t.companion)
    ensures if Gone(t.companion) then t.pc.Join? ==> Enabled(t, Main(All, Lost)) else Enabled(t, Side(true))
    decreases |moves|
  {
    if moves != [] {
      MoveKeeps(s, moves[0]);
      CompanionExits(Apply(s, moves[0]), moves[1..], t);
    }
  }

  // ----- claiming a stop without asking ------------------------------------------------------------

  /** ConfirmStoppedConnect, after the invocation completed: no published target is taken as proof. */
  predicate ClaimsStopUnasked(s: State) { s.call.control && s.pc.Returned? && s.log.published.None? }

  /**
   The claim that nothing was written is right for every run of a call exactly when the call is bound or cannot be
   written.
   */
  lemma ClaimExact(call: Call)
    requires call.control && (call.bound ==> call.cancellable)
    ensures (forall s: State :: Reachable(s) && s.call == call && ClaimsStopUnasked(s) ==> !s.written) <==> call.bound
  {
    if call.bound {
      forall s: State | Reachable(s) && s.call == call && ClaimsStopUnasked(s) ensures !s.written { ReachableInv(s); }
    } else {
      var s := Init0(call);
      var t := WrittenUnpublished(s);
      assert Reachable(t) && t.call == call && ClaimsStopUnasked(t) && t.written;
    }
  }

  function Init0(call: Call): State {
    State(call, PreCheck, Unborn, false, false, false, false, false, Pending, Log(None, None, [], []))
  }

  lemma RunTwo(s: State, m: Move, moves: seq<Move>, t: State)
    requires Enabled(s, m) && Run(Apply(s, m), moves, t)
    ensures Run(s, [m] + moves, t)
  {
    assert ([m] + moves)[1..] == moves;
  }

  /** An unbound connect whose write failed half-way has no published target. */
  lemma WrittenUnpublished(s: State) returns (t: State)
    requires s == Init0(s.call) && s.call.control && !s.call.bound
    ensures Reachable(t) && t.call == s.call && t.pc.Returned? && t.log.published.None? && t.written
  {
    var m := Main(Part, Lost);
    var a := Apply(s, m);
    var b := Apply(a, m);
    var c := Apply(b, m);
    if s.call.cancellable {
      t := Apply(c, m);
      assert Run(t, [], t);
      RunTwo(c, m, [], t);
      RunTwo(b, m, [m] + [], t);
      RunTwo(a, m, [m] + ([m] + []), t);
      RunTwo(s, m, [m] + ([m] + ([m] + [])), t);
    } else {
      t := c;
      assert Run(t, [], t);
      RunTwo(b, m, [], t);
      RunTwo(a, m, [m] + [], t);
      RunTwo(s, m, [m] + ([m] + []), t);
    }
    assert Init(s);
  }
}
