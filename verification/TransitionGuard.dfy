/** The persisted firewall block around a protected handoff. */
module TransitionGuard {
  import opened Wrappers
  import opened RuntimeTrace
  import opened OutsideWorld

  class Guard {
    const world: World
    var state: GuardState

    /** The guard says off only while the filters are: a change in between is never reported off. */
    ghost predicate Valid()
      reads this, world, world.mark
    {
      world.Valid() && (state.Off? ==> world.filters.Off?)
    }

    /** Adopts the persisted state and never removes it. */
    constructor (world: World)
      requires world.Valid()
      modifies world`refusals
      ensures Valid() && this.world == world
      ensures world.refusals >= old(world.refusals)
      ensures world.refusals == old(world.refusals) ==> state == world.filters
    {
      this.world := world;
      state := Incomplete;
      new;
      var readable := world.Open();
      if readable { state := world.filters; }
    }

    predicate IsArmed()
      reads this
    {
      !state.Off?
    }

    method Refresh() returns (r: Outcome<bool>)
      requires world.Valid()
      modifies this`state, world`trace, world`states, world`now, world`refusals
      ensures world.Valid() && (r.Done? ==> Valid() && world.now == old(world.now) && world.trace == old(world.trace))
      ensures Yes(r) ==> state == world.filters
      ensures No(r) ==> state.Incomplete?
      ensures world.now.live == old(world.now.live)
      ensures world.refusals == old(world.refusals) + if Yes(r) then 0 else 1
    {
      state := Incomplete;
      var read :- world.ReadFilters();
      if read.Some? { state := read.value; }
      return Done(read.Some?);
    }

    method Start() returns (r: Outcome<bool>)
      requires Valid()
      modifies this`state, world`filters, world`trace, world`states, world`now, world`refusals
      ensures world.Valid() && (world.filters == old(world.filters) || world.filters.Armed?)
      ensures r.Done? ==> Valid() && world.now == old(world.now)
      ensures Yes(r) ==> world.filters.Armed? && IsArmed()
      ensures world.now.live == old(world.now.live)
      ensures world.refusals >= old(world.refusals) && (!Yes(r) ==> world.refusals > old(world.refusals))
    {
      var read :- Refresh();
      if !read { return Done(false); }
      if state.Armed? { return Done(true); }
      r := Install();
    }

    /** Installs the filters and believes only what it reads back. */
    method Install() returns (r: Outcome<bool>)
      requires world.Valid()
      modifies this`state, world`filters, world`trace, world`states, world`now, world`refusals
      ensures world.Valid() && (world.filters == old(world.filters) || world.filters.Armed?)
      ensures r.Done? ==> Valid() && world.now == old(world.now)
      ensures Yes(r) ==> world.filters.Armed? && IsArmed()
      ensures world.now.live == old(world.now.live)
      ensures world.refusals >= old(world.refusals) && (!Yes(r) ==> world.refusals > old(world.refusals))
    {
      state := Incomplete;
      var installed :- world.InstallFilters();
      if !installed { return Done(false); }
      var read :- Refresh();
      if !read || state.Armed? { return Done(read); }
      state := Incomplete;
      return Done(false);
    }

    /** ExplicitOff, and Finish, which reports its failure. */
    method Off() returns (r: Outcome<bool>)
      requires Valid() && Allowed(world.now, Remove(true))
      modifies this`state, world`filters, world`trace, world`states, world`now, world`refusals
      ensures world.Valid() && (world.filters == old(world.filters) || world.filters.Off?)
      ensures r.Done? ==> Valid() && world.now == old(world.now) && world.EndsInRemove()
      ensures r.Done? ==> (r.value <==> !IsArmed())
      ensures world.refusals >= old(world.refusals) && (!Yes(r) ==> world.refusals > old(world.refusals))
    {
      state := Incomplete;
      var removed :- world.RemoveFilters();
      if !removed { return Done(false); }
      var read :- Refresh();
      if !read { return Done(false); }
      return Done(state.Off?);
    }
  }
}
