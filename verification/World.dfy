/**
 What outlives a process: the journal file and the persisted firewall filters,
 with the trace of calls that made them. Core, the network backend, the probes
 and the filter engine answer arbitrarily, and the process may die at any call;
 each answer by which they fail the host is counted.
 */
module OutsideWorld {
  import opened Wrappers
  import opened Text
  import opened Journal
  import opened RuntimeTrace

  /** A moment that was marked: nothing that runs later can change what had happened by then. */
  class Mark {
    ghost var past: seq<Event>

    constructor ()
      ensures past == []
    {
      past := [];
    }
  }

  class World {
    const mark: Mark
    var file: Option<string>
    var filters: GuardState
    ghost const initial: GuardState
    ghost var entry: Entry
    ghost var trace: seq<Event>
    ghost var states: seq<Moment>
    ghost var now: Monitor
    ghost var refusals: nat      // how often the outside refused, interrupted or killed the host

    /** The file holds what the last journal write put there. */
    ghost predicate FileHolds()
      reads this
    {
      && (file.None? ==> now.stage.Clean?)
      && (file.Some? ==> WellFormed(entry) && file.value == Format(entry)
                         && entry.stage == now.stage && entry.snapshot == now.snapshot)
    }

    ghost predicate Valid()
      reads this, mark
    {
      && Chronicle(trace, states, initial, now, filters) && FileHolds() && (now.live ==> MayHaveCore(now.stage))
      && mark.past <= trace
    }

    /** The last call recorded tried to remove the filters. */
    ghost predicate EndsInRemove()
      reads this
    {
      trace != [] && trace[|trace| - 1].Remove?
    }

    constructor (filters: GuardState)
      ensures Valid() && trace == [] && initial == filters && file.None? && fresh(mark)
    {
      mark := new Mark();
      initial := filters;
      file, this.filters, trace, states, now, refusals := None, filters, [], [Moment(START, filters)], START, 0;
    }

    ghost method Log(e: Event)
      requires Valid() && Allowed(now, e) && !e.Write? && !e.Install? && !e.Remove?
      modifies this`trace, this`states, this`now
      ensures Valid() && now == Next(old(now), e) && trace == old(trace) + [e]
    {
      Extend(trace, states, initial, now, filters, e);
      trace, states, now := trace + [e], states + [Moment(Next(now, e), filters)], Next(now, e);
    }

    /** Any foreign call may be the last thing the process does. */
    method MayCrash() returns (r: Outcome<()>)
      requires Valid()
      modifies this`trace, this`states, this`now, this`refusals
      ensures Valid() && (r.Done? ==> now == old(now) && trace == old(trace))
      ensures r.Crashed? ==> now == Next(old(now), Crash)
      ensures now.live == old(now.live) && refusals == old(refusals) + if r.Done? then 0 else 1
    {
      var crash: bool := *;
      if crash {
        Log(Crash);
        refusals := refusals + 1;
        return Crashed;
      }
      return Done(());
    }

    /** Whether what outlives processes can be read when one begins. */
    method Open() returns (readable: bool)
      modifies this`refusals
      ensures refusals == old(refusals) + if readable then 0 else 1
    {
      readable := *;
      if !readable { refusals := refusals + 1; }
    }

    /** A foreign answer that leaves nothing behind. */
    method Ask() returns (r: Outcome<bool>)
      requires Valid()
      modifies this`trace, this`states, this`now, this`refusals
      ensures Valid() && (r.Done? ==> now == old(now) && trace == old(trace)) && now.live == old(now.live)
      ensures refusals == old(refusals) + if Yes(r) then 0 else 1
    {
      var _ :- MayCrash();
      var answer: bool := *;
      if !answer { refusals := refusals + 1; }
      return Done(answer);
    }

    /** A foreign answer of which neither is a refusal. */
    method Look() returns (r: Outcome<bool>)
      requires Valid()
      modifies this`trace, this`states, this`now, this`refusals
      ensures Valid() && (r.Done? ==> now == old(now) && trace == old(trace)) && now.live == old(now.live)
      ensures refusals == old(refusals) + if r.Done? then 0 else 1
    {
      var _ :- MayCrash();
      var answer: bool := *;
      return Done(answer);
    }

    method Put(e: Entry)
      requires Valid() && WellFormed(e) && Allowed(now, Write(e.stage, e.snapshot))
      modifies this`file, this`entry, this`trace, this`states, this`now
      ensures Valid() && now == Next(old(now), Write(e.stage, e.snapshot)) && file == Some(Format(e))
    {
      ghost var event := Write(e.stage, e.snapshot);
      Extend(trace, states, initial, now, filters, event);
      file, entry := Some(Format(e)), e;
      trace, states, now := trace + [event], states + [Moment(Next(now, event), filters)], Next(now, event);
    }

    /** Replaces the file atomically or leaves it; a dying process does one or the other. */
    method Replace(e: Entry) returns (r: Outcome<bool>)
      requires Valid() && WellFormed(e) && Allowed(now, Write(e.stage, e.snapshot))
      modifies this`file, this`entry, this`trace, this`states, this`now, this`refusals
      ensures Valid()
      ensures Yes(r) ==> now == Next(old(now), Write(e.stage, e.snapshot)) && file == Some(Format(e))
      ensures No(r) ==> now == old(now) && trace == old(trace) && file == old(file)
      ensures refusals == old(refusals) + if Yes(r) then 0 else 1
    {
      var replaced: bool := *;
      if replaced { Put(e); }
      var _ :- MayCrash();
      if !replaced { refusals := refusals + 1; }
      return Done(replaced);
    }

    /** A generation for a new journal, unless the system gives none. */
    method Draw() returns (drawn: Option<string>)
      modifies this`refusals
      ensures drawn.Some? ==> IsHexGeneration(drawn.value) && drawn.value != ZERO
      ensures refusals == old(refusals) + if drawn.Some? then 0 else 1
    {
      var generation: string := *;
      if IsHexGeneration(generation) && generation != ZERO { return Some(generation); }
      refusals := refusals + 1;
      return None;
    }

    /** The network state, if it can be read and kept. */
    method Capture() returns (r: Outcome<Option<string>>)
      requires Valid()
      modifies this`trace, this`states, this`now, this`refusals
      ensures Valid() && (r.Done? && r.value.None? ==> now == old(now))
      ensures r.Done? && r.value.Some? ==>
              && IsBytes(r.value.value) && 0 < |r.value.value| <= MAX_SNAPSHOT
              && now == Next(old(now), RuntimeTrace.Capture(r.value.value))
      ensures refusals == old(refusals) + if r.Done? && r.value.Some? then 0 else 1
    {
      var _ :- MayCrash();
      var snapshot: string := *;
      var ok: bool := *;
      if !ok || !IsBytes(snapshot) || snapshot == "" || |snapshot| > MAX_SNAPSHOT {
        refusals := refusals + 1;
        return Done(None);
      }
      Log(RuntimeTrace.Capture(snapshot));
      return Done(Some(snapshot));
    }

    /** Core may be running after any attempt to start it. */
    method StartCore() returns (r: Outcome<bool>)
      requires Valid() && Allowed(now, Start)
      modifies this`trace, this`states, this`now, this`refusals
      ensures Valid() && (r.Done? ==> now == Next(old(now), Start))
      ensures refusals == old(refusals) + if Yes(r) then 0 else 1
    {
      Log(Start);
      r := Ask();
    }

    method StopCore() returns (r: Outcome<bool>)
      requires Valid()
      modifies this`trace, this`states, this`now, this`refusals
      ensures Valid() && (r.Done? ==> now == Next(old(now), Stop(r.value)))
      ensures refusals == old(refusals) + if Yes(r) then 0 else 1
    {
      var ok :- Ask();
      Log(Stop(ok));
      return Done(ok);
    }

    method RestoreNetwork(snapshot: string) returns (r: Outcome<bool>)
      requires Valid() && Allowed(now, Restore(snapshot, true))
      modifies this`trace, this`states, this`now, this`refusals
      ensures Valid() && (r.Done? ==> now == Next(old(now), Restore(snapshot, r.value)))
      ensures refusals == old(refusals) + if Yes(r) then 0 else 1
    {
      var ok: bool := *;
      Log(Restore(snapshot, ok));
      var _ :- MayCrash();
      if !ok { refusals := refusals + 1; }
      return Done(ok);
    }

    /** Core's own answer to a revocation, on record whatever becomes of it. */
    method Revoke() returns (r: Outcome<Answer>)
      requires Valid()
      modifies this`trace, this`states, this`now, this`refusals
      ensures Valid() && (r.Done? ==> !r.value.Refused? && trace == old(trace) + [Revocation(r.value)]
                                      && now == Next(old(now), Revocation(r.value)))
      ensures refusals >= old(refusals)
    {
      var answer: Answer := *;
      if answer.Refused? { answer := NoAnswer; }
      Log(Revocation(answer));
      var _ :- MayCrash();
      return Done(answer);
    }

    /** A renewal or runtime control; Core may have taken it whatever is answered. */
    method Configure() returns (r: Outcome<bool>)
      requires Valid()
      modifies this`trace, this`states, this`now, this`refusals
      ensures Valid() && (r.Done? ==> trace == old(trace) + [Control] && now == Next(old(now), Control))
      ensures refusals == old(refusals) + if Yes(r) then 0 else 1
    {
      Log(Control);
      r := Ask();
    }

    /** The caller's own answer whether to go on. */
    method CheckInterruption() returns (r: Outcome<Interrupt>)
      requires Valid()
      modifies this`trace, this`states, this`now, this`refusals
      ensures Valid() && (r.Done? ==> trace == old(trace) + [Interruption(r.value)] && now == old(now))
      ensures refusals >= old(refusals)
    {
      var answer: Interrupt := *;
      var _ :- MayCrash();
      Log(Interruption(answer));
      return Done(answer);
    }

    method ProbeEgress() returns (r: Outcome<bool>)
      requires Valid()
      modifies this`trace, this`states, this`now, this`refusals
      ensures Valid() && (r.Done? ==> now == Next(old(now), Probe(r.value)) && trace == old(trace) + [Probe(r.value)])
      ensures refusals == old(refusals) + if Yes(r) then 0 else 1
    {
      var ok :- Ask();
      Log(Probe(ok));
      return Done(ok);
    }

    /** Whatever is reported, the transaction may or may not have been committed. */
    method InstallFilters() returns (r: Outcome<bool>)
      requires Valid()
      modifies this`filters, this`trace, this`states, this`now, this`refusals
      ensures Valid() && (filters == old(filters) || filters == Armed) && now.live == old(now.live)
      ensures r.Done? ==> now == old(now)
      ensures refusals >= old(refusals) && (refusals == old(refusals) ==> Yes(r) && filters.Armed?)
    {
      var committed: bool := *;
      Extend(trace, states, initial, now, filters, Install(committed));
      if committed { filters := Armed; } else { refusals := refusals + 1; }
      trace, states := trace + [Install(committed)], states + [Moment(now, filters)];
      r := Ask();
    }

    method RemoveFilters() returns (r: Outcome<bool>)
      requires Valid() && Allowed(now, Remove(true))
      modifies this`filters, this`trace, this`states, this`now, this`refusals
      ensures Valid() && (filters == old(filters) || filters == Off)
      ensures r.Done? ==> now == old(now) && EndsInRemove()
      ensures refusals >= old(refusals) && (refusals == old(refusals) ==> Yes(r) && filters.Off?)
    {
      var committed: bool := *;
      Extend(trace, states, initial, now, filters, Remove(committed));
      if committed { filters := Off; } else { refusals := refusals + 1; }
      trace, states := trace + [Remove(committed)], states + [Moment(now, filters)];
      r := Ask();
    }

    method ReadFilters() returns (r: Outcome<Option<GuardState>>)
      requires Valid()
      modifies this`trace, this`states, this`now, this`refusals
      ensures Valid() && (r.Done? ==>
              now == old(now) && trace == old(trace) && (r.value.Some? ==> r.value.value == filters))
      ensures now.live == old(now.live)
      ensures refusals == old(refusals) + if r.Done? && r.value.Some? then 0 else 1
    {
      var ok :- Ask();
      return Done(if ok then Some(filters) else None);
    }
  }
}
