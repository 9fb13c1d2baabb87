/** The write-ahead journal in memory and on disk. */
module RuntimeRecovery {
  import opened Wrappers
  import opened Text
  import opened Journal
  import opened RuntimeTrace
  import opened OutsideWorld

  class DurableRuntimeRecovery {
    const world: World
    var stage: Stage
    var generation: string
    var snapshot: string
    const invalid: bool

    ghost predicate Agrees()
      reads this, world, world.mark
    {
      world.Valid() && (!invalid ==> stage == world.now.stage && IsHexGeneration(generation))
    }

    /** Memory agrees with the file, unless the file could not be read. */
    ghost predicate Valid()
      reads this, world, world.mark
    {
      Agrees() && (!invalid && !stage.Clean? ==>
          snapshot == world.now.snapshot && WellFormed(Entry(stage, generation, snapshot)))
    }

    /** Load: a missing file is clean, an unreadable or malformed one is invalid. */
    constructor (world: World)
      requires world.Valid()
      modifies world`refusals
      ensures Valid() && this.world == world
      ensures world.refusals == old(world.refusals) + if invalid then 1 else 0
      ensures !invalid && world.file.Some? ==> Parse(world.file.value) == Some(Entry(stage, generation, snapshot))
    {
      var readable := world.Open();
      this.world, invalid := world, !readable;
      stage, generation, snapshot := Clean, ZERO, "";
      new;
      if readable && world.file.Some? { ReadFile(world.file.value); }
    }

    method ReadFile(text: string)
      requires world.Valid() && world.file == Some(text)
      modifies this`stage, this`generation, this`snapshot
      ensures Valid() && Parse(text) == Some(Entry(stage, generation, snapshot))
    {
      var e := Load(text);
      JournalRoundTrip(world.entry);
      stage, generation, snapshot := e.value.stage, e.value.generation, e.value.snapshot;
    }

    predicate RequiresRecovery()
      reads this
    {
      invalid || !stage.Clean?
    }

    /** Record: memory moves only together with the file. */
    method Record(next: Stage) returns (r: Outcome<bool>)
      requires Agrees()
      requires !invalid && IsForwardTransition(stage, next) ==>
                 WellFormed(Entry(next, generation, snapshot)) && Allowed(world.now, Write(next, snapshot))
      modifies this`stage, world`file, world`entry, world`trace, world`states, world`now, world`refusals
      ensures world.Valid() && (r.Done? ==> Agrees())
      ensures Yes(r) ==> old(!invalid && IsForwardTransition(stage, next)) && stage == next
                                  && world.now == Next(old(world.now), Write(next, snapshot))
      ensures No(r) ==> stage == old(stage) && world.now == old(world.now)
      ensures world.refusals >= old(world.refusals)
      ensures old(!invalid && IsForwardTransition(stage, next)) ==>
                world.refusals == old(world.refusals) + if Yes(r) then 0 else 1
    {
      if invalid || !IsForwardTransition(stage, next) { return Done(false); }
      var previous := stage;
      stage := next;
      var written :- world.Replace(Entry(stage, generation, snapshot));
      if !written { stage := previous; }
      return Done(written);
    }

    method Begin() returns (r: Outcome<bool>)
      requires Valid()
      modifies this`stage, this`generation, this`snapshot, world`file, world`entry, world`trace, world`states,
               world`now, world`refusals
      ensures world.Valid() && (r.Done? ==> Valid() && SameOwner(old(world.now), world.now))
      ensures Yes(r) ==> stage.Snapshotted? && !invalid && old(stage.Clean?)
      ensures No(r) ==> stage == old(stage)
      ensures old(!invalid && stage.Clean?) ==> world.refusals == old(world.refusals) + if Yes(r) then 0 else 1
      ensures world.refusals >= old(world.refusals)
    {
      if invalid || !stage.Clean? { return Done(false); }
      var drawn := world.Draw();
      if drawn.None? { return Done(false); }
      var captured :- world.Capture();
      if captured.None? { return Done(false); }
      r := Open(drawn.value, captured.value);
    }

    method Open(drawn: string, captured: string) returns (r: Outcome<bool>)
      requires Valid() && !invalid && stage.Clean? && captured == world.now.captured
      requires WellFormed(Entry(Snapshotted, drawn, captured))
      modifies this`stage, this`generation, this`snapshot, world`file, world`entry, world`trace, world`states,
               world`now, world`refusals
      ensures world.Valid() && (r.Done? ==> Valid() && SameOwner(old(world.now), world.now))
      ensures Yes(r) ==> stage.Snapshotted?
      ensures No(r) ==> stage.Clean?
      ensures world.refusals == old(world.refusals) + if Yes(r) then 0 else 1
    {
      generation, snapshot := drawn, captured;
      r := Record(Snapshotted);
    }

    method BeginRollback() returns (r: Outcome<bool>)
      requires Valid()
      modifies this`stage, this`snapshot, world`file, world`entry, world`trace, world`states, world`now, world`refusals
      ensures world.Valid() && (r.Done? ==> Valid())
      ensures Yes(r) ==> !invalid && (stage.Clean? || stage.RollingBack?) && (old(stage.Clean?) ==> stage.Clean?)
      ensures r.Done? ==> SameOwner(old(world.now), world.now)
      ensures !invalid ==> world.refusals == old(world.refusals) + if Yes(r) then 0 else 1
      ensures world.refusals >= old(world.refusals)
    {
      if invalid { return Done(false); }
      if stage.Clean? || stage.RollingBack? { return Done(true); }
      if stage.Recovered? { r := FinishRecovery(); } else { r := MarkRollingBack(); }
    }

    method MarkRollingBack() returns (r: Outcome<bool>)
      requires Valid() && !invalid && IsForwardTransition(stage, RollingBack)
      modifies this`stage, world`file, world`entry, world`trace, world`states, world`now, world`refusals
      ensures world.Valid() && (r.Done? ==> Valid() && SameOwner(old(world.now), world.now))
      ensures Yes(r) ==> stage.RollingBack?
      ensures world.refusals == old(world.refusals) + if Yes(r) then 0 else 1
    {
      r := Record(RollingBack);
    }

    method RestoreNetworkState() returns (r: Outcome<bool>)
      requires Valid() && world.now.halted && !world.now.live
      modifies world`trace, world`states, world`now, world`refusals
      ensures world.Valid() && (r.Done? ==> Valid() && SameOwner(old(world.now), world.now))
      ensures Yes(r) ==> !invalid && (stage.Clean? || (stage.RollingBack? && world.now.restored))
      ensures !invalid && (stage.Clean? || stage.RollingBack?) ==>
                world.refusals == old(world.refusals) + if Yes(r) then 0 else 1
      ensures world.refusals >= old(world.refusals)
    {
      if invalid { return Done(false); }
      if stage.Clean? { return Done(true); }
      if !stage.RollingBack? || snapshot == "" || |snapshot| > MAX_SNAPSHOT { return Done(false); }
      r := world.RestoreNetwork(snapshot);
    }

    method CompleteRollback() returns (r: Outcome<bool>)
      requires Valid() && !world.now.live && (stage.RollingBack? ==> world.now.restored)
      modifies this`stage, this`snapshot, world`file, world`entry, world`trace, world`states, world`now, world`refusals
      ensures world.Valid() && (r.Done? ==> Valid() && SameOwner(old(world.now), world.now))
      ensures Yes(r) ==> !invalid && stage.Clean?
      ensures old(!invalid && (stage.Clean? || stage.RollingBack?)) ==>
                world.refusals == old(world.refusals) + if Yes(r) then 0 else 1
      ensures world.refusals >= old(world.refusals)
    {
      if invalid { return Done(false); }
      if stage.Clean? { return Done(true); }
      if !stage.RollingBack? { return Done(false); }
      var recovered :- MarkRecovered();
      if !recovered { return Done(false); }
      r := FinishRecovery();
    }

    method MarkRecovered() returns (r: Outcome<bool>)
      requires Valid() && !invalid && stage.RollingBack? && !world.now.live && world.now.restored
      modifies this`stage, world`file, world`entry, world`trace, world`states, world`now, world`refusals
      ensures world.Valid() && (r.Done? ==> Valid() && SameOwner(old(world.now), world.now))
      ensures Yes(r) ==> stage.Recovered?
      ensures world.refusals == old(world.refusals) + if Yes(r) then 0 else 1
    {
      r := Record(Recovered);
    }

    method FinishRecovery() returns (r: Outcome<bool>)
      requires Valid() && !invalid && stage.Recovered?
      modifies this`stage, this`snapshot, world`file, world`entry, world`trace, world`states, world`now, world`refusals
      ensures world.Valid() && (r.Done? ==> Valid() && SameOwner(old(world.now), world.now))
      ensures Yes(r) ==> stage.Clean?
      ensures No(r) ==> stage.Recovered?
      ensures world.refusals == old(world.refusals) + if Yes(r) then 0 else 1
    {
      var kept := snapshot;
      snapshot := "";
      var finished :- Record(Clean);
      if !finished { snapshot := kept; }
      return Done(finished);
    }
  }

  /** Nothing but the journal and the rollback's own progress changed. */
  predicate SameOwner(m: Monitor, n: Monitor) {
    && n.live == m.live && n.proved == m.proved && n.withheld == m.withheld && n.userOff == m.userOff
    && n.failed == m.failed
  }
}
