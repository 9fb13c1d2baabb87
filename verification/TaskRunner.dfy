/** The UI-side task runner: one worker, one owner thread, every locked section a method. */
module TaskRunner {
  import opened Wrappers

  type Task = nat
  const CAPACITY := 16

  function Held(running: Option<Task>): seq<Task> { if running.Some? then [running.value] else [] }

  predicate Distinct(s: seq<Task>) { forall i, j :: 0 <= i < j < |s| ==> s[i] != s[j] }

  /** Where accepted tasks can be; a place later in the list holds later submissions. */
  datatype Places = Places(delivered: seq<Task>, taken: seq<Task>, awaiting: seq<Task>, running: seq<Task>,
                           queued: seq<Task>, discarded: seq<Task>)

  function InOrder(p: Places): seq<Task> { p.delivered + p.taken + p.awaiting + p.running + p.queued + p.discarded }

  /** How often a task occurs over the six places. */
  function Holders(p: Places, t: Task): nat {
    multiset(p.delivered)[t] + multiset(p.taken)[t] + multiset(p.awaiting)[t] + multiset(p.running)[t]
    + multiset(p.queued)[t] + multiset(p.discarded)[t]
  }

  lemma {:induction false} DistinctOnce(s: seq<Task>, t: Task)
    requires Distinct(s)
    ensures multiset(s)[t] == if t in s then 1 else 0
  {
    if s != [] {
      assert s == [s[0]] + s[1..];
      DistinctOnce(s[1..], t);
    }
  }

  /** Conservation: an accepted task is in exactly one place, and nothing else is in any. */
  lemma OnePlace(p: Places, accepted: seq<Task>, t: Task)
    requires Distinct(accepted) && InOrder(p) == accepted
    ensures Holders(p, t) == if t in accepted then 1 else 0
  {
    DistinctOnce(accepted, t);
    assert multiset(InOrder(p)) == multiset(p.delivered) + multiset(p.taken) + multiset(p.awaiting)
           + multiset(p.running)
                                   + multiset(p.queued) + multiset(p.discarded);
  }

  /** Deliveries are the first submissions, in submission order and without repetition. */
  lemma DeliveredInOrder(p: Places, accepted: seq<Task>)
    requires Distinct(accepted) && InOrder(p) == accepted
    ensures p.delivered <= accepted && Distinct(p.delivered)
  {
    assert accepted[..|p.delivered|] == p.delivered;
    forall i, j | 0 <= i < j < |p.delivered| ensures p.delivered[i] != p.delivered[j] {
      assert accepted[i] == p.delivered[i] && accepted[j] == p.delivered[j];
    }
  }

  class RuntimeTaskRunner {
    var tasks: seq<Task>           // queued
    var running: Option<Task>
    var completions: seq<Task>     // finished, awaiting Drain
    var taken: seq<Task>           // swapped out by the Drain that is delivering them
    var stopping: bool
    var cancelled: bool            // the running call was asked to stop waiting
    ghost var accepted: seq<Task>
    ghost var delivered: seq<Task>
    ghost var discarded: seq<Task>

    ghost function Now(): Places
      reads this
    {
      Places(delivered, taken, completions, Held(running), tasks, discarded)
    }

    ghost predicate Valid()
      reads this
    {
      && InOrder(Now()) == accepted && Distinct(accepted) && |tasks| <= CAPACITY
      && (!stopping ==> discarded == []) && (stopping ==> tasks == [])
    }

    constructor ()
      ensures Valid() && accepted == [] && !stopping
    {
      tasks, running, completions, taken := [], None, [], [];
      stopping, cancelled := false, false;
      accepted, delivered, discarded := [], [], [];
    }

    method Submit(task: Task, hasControl: bool) returns (ok: bool)
      requires Valid() && task !in accepted
      modifies this`tasks, this`accepted
      ensures Valid() && ok == (!stopping && |old(tasks)| < CAPACITY && hasControl)
      ensures accepted == old(accepted) + (if ok then [task] else [])
      ensures tasks == old(tasks) + (if ok then [task] else [])
    {
      ok := !stopping && |tasks| < CAPACITY && hasControl;
      if ok {
        tasks, accepted := tasks + [task], accepted + [task];
      }
    }

    /** The worker's first section: takes the oldest task, or returns for good. */
    method Take() returns (task: Option<Task>)
      requires Valid() && running.None? && (stopping || tasks != [])
      modifies this`tasks, this`running, this`cancelled
      ensures Valid() && task.Some? == !stopping && running == task
      ensures task.Some? ==> [task.value] + tasks == old(tasks)
      ensures task.None? ==> tasks == old(tasks)
    {
      if stopping { return None; }
      task, running, cancelled := Some(tasks[0]), Some(tasks[0]), false;
      tasks := tasks[1..];
    }

    /** The worker's second section, after the call returned or threw. */
    method Complete()
      requires Valid() && running.Some?
      modifies this`running, this`completions
      ensures Valid() && running.None? && completions == old(completions) + [old(running).value]
    {
      completions, running := completions + [running.value], None;
    }

    /** Drain's locked section, on the owner thread. */
    method BeginDrain()
      requires Valid() && taken == []
      modifies this`completions, this`taken
      ensures Valid() && (if stopping then taken == [] && completions == old(completions)
                          else taken == old(completions) && completions == [])
    {
      if !stopping { taken, completions := completions, []; }
    }

    /** One completion of the drain in progress; a shutdown does not call back what it took. */
    method Deliver() returns (task: Task)
      requires Valid() && taken != []
      modifies this`taken, this`delivered
      ensures Valid() && delivered == old(delivered) + [task] && [task] + taken == old(taken)
    {
      task := taken[0];
      taken, delivered := taken[1..], delivered + [task];
    }

    method BeginShutdown()
      requires Valid()
      modifies this`stopping, this`cancelled, this`tasks, this`discarded
      ensures Valid() && stopping && (running.Some? ==> cancelled) && discarded == old(tasks) + old(discarded)
    {
      stopping, cancelled := true, cancelled || running.Some?;
      tasks, discarded := [], tasks + discarded;
    }

    /** After the worker has been joined. */
    method FinishShutdown()
      requires Valid() && stopping && running.None?
      modifies this`completions, this`discarded
      ensures Valid() && completions == [] && discarded == old(completions) + old(discarded)
      ensures accepted == delivered + taken + discarded
    {
      completions, discarded := [], completions + discarded;
    }
  }

  // ----- every interleaving -----------------------------------------------------------

  datatype Move = Submits(task: Task, hasControl: bool) | Takes | Completes | Drains | Delivers | Stops | Joins

  /** Each submission makes its own task. */
  ghost predicate FreshFrom(moves: seq<Move>, i: nat, accepted: seq<Task>) {
    && (forall j :: i <= j < |moves| && moves[j].Submits? ==> moves[j].task !in accepted)
    && (forall j, k :: i <= j < k < |moves| && moves[j].Submits? && moves[k].Submits? ==>
    moves[j].task != moves[k].task)
  }

  /** Any sequence of locked sections, in whatever order the two threads reach them. */
  method Interleave(runner: RuntimeTaskRunner, moves: seq<Move>)
    requires runner.Valid() && FreshFrom(moves, 0, runner.accepted)
    modifies runner
    ensures runner.Valid()
    ensures old(runner.stopping) ==> runner.delivered <= old(runner.delivered) + old(runner.taken)
  {
    for i := 0 to |moves|
      invariant runner.Valid() && (old(runner.stopping) ==> runner.stopping)
      invariant FreshFrom(moves, i, runner.accepted)
      invariant old(runner.stopping) ==> runner.delivered + runner.taken == old(runner.delivered) + old(runner.taken)
    {
      match moves[i] {
        case Submits(task, hasControl) => var _ := runner.Submit(task, hasControl);
        case Takes => if runner.running.None? && (runner.stopping || runner.tasks != []) { var _ := runner.Take(); }
        case Completes => if runner.running.Some? { runner.Complete(); }
        case Drains => if runner.taken == [] { runner.BeginDrain(); }
        case Delivers => if runner.taken != [] { var _ := runner.Deliver(); }
        case Stops => runner.BeginShutdown();
        case Joins => if runner.stopping && runner.running.None? { runner.FinishShutdown(); }
      }
    }
    assert old(runner.stopping) ==> runner.delivered <= runner.delivered + runner.taken;
  }
}
