/**
 Why eight filters and a priority check block everything but the service: the
 guard's definitions and checks, and the Windows Filtering Platform's filter
 arbitration they are checked against.
 */
module GuardArbitration {
  import opened Wrappers

  type Key = nat
  type Bytes = seq<nat>

  datatype Layer = ConnectV4 | ConnectV6 | AcceptV4 | AcceptV6 | OtherLayer(layer: nat)
  datatype Flag = Persistent | Indexed | Disabled | ClearActionRight | OtherFlag(flag: nat)
  datatype Action = Permit | Block | CalloutTerminating | CalloutUnknown | CalloutInspection
  datatype Field = AppId | UserId | OtherField(field: nat)
  datatype Value = Blob(bytes: Bytes) | Descriptor(bytes: Bytes) | OtherValue(value: nat)
  datatype Condition = Condition(field: Field, equal: bool, value: Value)
  datatype Filter = Filter(layer: Layer, sublayer: Key, hasProvider: bool, flags: set<Flag>, action: Action,
                           weight: nat,
                           conditions: seq<Condition>)

  const LAYERS := [ConnectV4, ConnectV6, AcceptV4, AcceptV6]
  const GUARD: Key := 0
  const SYSTEM: Bytes := [1]   // the descriptor that only LocalSystem matches

  // ----- the guard's definitions and checks -----------------------------------------------

  function ServiceConditions(app: Bytes): seq<Condition> {
    [Condition(AppId, true, Blob(app)), Condition(UserId, true, Descriptor(SYSTEM))]
  }

  /** Filter `index` of eight: per layer a permit for the service and a block for everyone. */
  function At(app: Bytes, index: nat): Filter
    requires index < 8
  {
    var permit := index % 2 == 0;
    Filter(LAYERS[index / 2], GUARD, false, {Persistent}, if permit then Permit else Block, if permit then 2 else 1,
           if permit then ServiceConditions(app) else [])
  }

  predicate Matches(actual: Filter, expected: Filter) {
    && actual.flags - {Indexed} == expected.flags && !actual.hasProvider && actual.sublayer == expected.sublayer
    && actual.layer == expected.layer && actual.action == expected.action && actual.weight == expected.weight
    && actual.conditions == expected.conditions
  }

  predicate IsPotentialGuardOverride(f: Filter) {
    && f.sublayer != GUARD && Disabled !in f.flags && f.layer in LAYERS
    && ((f.action.Permit? && ClearActionRight in f.flags) || f.action.CalloutTerminating? || f.action.CalloutUnknown?)
  }

  /** Every expected condition is found, and there are no more conditions than expected ones. */
  predicate IsGuardServicePermit(f: Filter, permit: Filter) {
    && f.action.Permit? && |f.conditions| == |permit.conditions|
    && forall c :: c in permit.conditions ==> c in f.conditions
  }

  predicate CanOverrideGuard(f: Filter, sublayerWeight: nat, guardWeight: nat, permit: Filter) {
    sublayerWeight >= guardWeight && IsPotentialGuardOverride(f) && !IsGuardServicePermit(f, permit)
  }

  /** The nested loops behind IsGuardServicePermit. */
  method CheckServicePermit(f: Filter, permit: Filter) returns (r: bool)
    ensures r == IsGuardServicePermit(f, permit)
  {
    if !f.action.Permit? || |f.conditions| != |permit.conditions| { return false; }
    for i := 0 to |permit.conditions|
      invariant forall k :: 0 <= k < i ==> permit.conditions[k] in f.conditions
    {
      var matched := false;
      for j := 0 to |f.conditions|
        invariant matched == (permit.conditions[i] in f.conditions[..j])
      {
        if f.conditions[j] == permit.conditions[i] { matched := true; break; }
      }
      if !matched {
        assert f.conditions[..|f.conditions|] == f.conditions && permit.conditions[i] in permit.conditions;
        return false;
      }
    }
    return true;
  }

  /** The filter engine: every filter, and the weight of each sublayer. */
  datatype Engine = Engine(filters: seq<Filter>, weights: map<Key, nat>)

  function OnLayer(filters: seq<Filter>, layer: Layer): seq<Filter> {
    if filters == [] then []
    else (if filters[0].layer == layer then [filters[0]] else []) + OnLayer(filters[1..], layer)
  }

  lemma {:induction false} OnLayerAll(filters: seq<Filter>, layer: Layer)
    ensures forall f :: f in OnLayer(filters, layer) <==> f in filters && f.layer == layer
  {
    if filters != [] { OnLayerAll(filters[1..], layer); }
  }

  predicate Safe(engine: Engine, layer: Layer, guardWeight: nat, permit: Filter) {
    forall f :: f in engine.filters && f.layer == layer && IsPotentialGuardOverride(f) ==>
      f.sublayer in engine.weights && !CanOverrideGuard(f, engine.weights[f.sublayer], guardWeight, permit)
  }

  /** Enumerates each layer's filters; a lookup that fails is an error, not a verdict. */
  method VerifyGuardPriority(engine: Engine, guardWeight: nat, permit: Filter) returns (safe: Option<bool>)
    ensures safe == Some(true) ==> forall layer :: layer in LAYERS ==> Safe(engine, layer, guardWeight, permit)
    ensures safe == Some(false) ==> exists f :: f in engine.filters && f.layer in LAYERS && f.sublayer in engine.weights
                                               && CanOverrideGuard(f, engine.weights[f.sublayer], guardWeight, permit)
    ensures safe.None? ==> exists f :: f in engine.filters && IsPotentialGuardOverride(f)
                                       && f.sublayer !in engine.weights
  {
    for i := 0 to |LAYERS|
      invariant forall k :: 0 <= k < i ==> Safe(engine, LAYERS[k], guardWeight, permit)
    {
      var enumeration := OnLayer(engine.filters, LAYERS[i]);
      OnLayerAll(engine.filters, LAYERS[i]);
      for j := 0 to |enumeration|
        invariant forall k :: 0 <= k < j && IsPotentialGuardOverride(enumeration[k]) ==>
          enumeration[k].sublayer in engine.weights
          && !CanOverrideGuard(enumeration[k], engine.weights[enumeration[k].sublayer], guardWeight, permit)
      {
        var f := enumeration[j];
        if IsPotentialGuardOverride(f) {
          if f.sublayer !in engine.weights { return None; }
          if CanOverrideGuard(f, engine.weights[f.sublayer], guardWeight, permit) { return Some(false); }
        }
      }
    }
    return Some(true);
  }

  // ----- the permutation behind IsGuardServicePermit ----------------------------------------

  predicate NoDuplicates<T(==)>(s: seq<T>) { forall i, j :: 0 <= i < j < |s| ==> s[i] != s[j] }

  lemma {:induction false} Pigeonhole<T>(a: seq<T>, b: seq<T>)
    requires |a| <= |b| && NoDuplicates(b) && forall x :: x in b ==> x in a
    ensures multiset(a) == multiset(b)
    decreases |b|
  {
    if b == [] {
      assert a == [];
    } else {
      var last := b[|b| - 1];
      var rest := b[..|b| - 1];
      assert last in b;
      var i :| 0 <= i < |a| && a[i] == last;
      var others := a[..i] + a[i + 1..];
      assert a == a[..i] + [last] + a[i + 1..];
      forall x | x in rest ensures x in others {
        var k :| 0 <= k < |rest| && rest[k] == x;
        assert x in a && x != last;
        var m :| 0 <= m < |a| && a[m] == x;
        assert m < i ==> others[m] == x;
        assert m > i ==> others[m - 1] == x;
      }
      Pigeonhole(others, rest);
      assert b == rest + [last];
      assert multiset(a) == multiset(others) + multiset{last};
      assert multiset(b) == multiset(rest) + multiset{last};
    }
  }

  /** A service permit carries exactly the guard's two conditions, in some order. */
  lemma ServicePermitIsPermutation(f: Filter, app: Bytes)
    requires IsGuardServicePermit(f, At(app, 0))
    ensures multiset(f.conditions) == multiset(ServiceConditions(app))
  {
    Pigeonhole(f.conditions, ServiceConditions(app));
  }

  // ----- Windows Filtering Platform arbitration ------------------------------------------------

  /** A connection attempt, and which descriptors and other conditions it satisfies. */
  datatype Connection = Connection(layer: Layer, app: Bytes, descriptors: set<Bytes>, others: set<Condition>)

  predicate Holds(c: Condition, conn: Connection) {
    if c.field.AppId? && c.equal && c.value.Blob? then conn.app == c.value.bytes
    else if c.field.UserId? && c.equal && c.value.Descriptor? then c.value.bytes in conn.descriptors
    else c in conn.others
  }

  predicate FieldHolds(conditions: seq<Condition>, field: Field, conn: Connection) {
    exists d :: d in conditions && d.field == field && Holds(d, conn)
  }

  /** Conditions on one field are alternatives; different fields must all hold. */
  predicate Applies(f: Filter, conn: Connection) {
    && f.layer == conn.layer && Disabled !in f.flags
    && forall c :: c in f.conditions ==> FieldHolds(f.conditions, c.field, conn)
  }

  datatype Decision = Continue | SoftPermit | SoftBlock | HardPermit | HardBlock

  /** A terminating or unknown callout may decide anything; an inspection callout never decides. */
  function Decide(f: Filter, callout: Decision): Decision {
    match f.action
    case Permit => if ClearActionRight in f.flags then HardPermit else SoftPermit
    case Block => HardBlock
    case CalloutTerminating => callout
    case CalloutUnknown => callout
    case CalloutInspection => Continue
  }

  type Callouts = map<Filter, Decision>
  function Answer(callouts: Callouts, f: Filter): Decision { if f in callouts then callouts[f] else Continue }

  /** Within a sublayer the heaviest applying filter that decides wins. */
  function SublayerDecision(filters: seq<Filter>, conn: Connection, callouts: Callouts): Decision {
    if filters == [] then Continue
    else
      var d := if Applies(filters[0], conn) then Decide(filters[0], Answer(callouts, filters[0])) else Continue;
      if d.Continue? then SublayerDecision(filters[1..], conn, callouts) else d
  }

  /** Across sublayers, heaviest first, a hard decision is final; a soft block stands unless a hard permit follows. */
  function Arbitrate(decisions: seq<Decision>, verdict: bool): (permitted: bool) {
    if decisions == [] then verdict
    else if decisions[0].HardBlock? then false
    else if decisions[0].HardPermit? then true
    else Arbitrate(decisions[1..], verdict && !decisions[0].SoftBlock?)
  }

  /** The engine's sublayers in an order by weight, each with its filters in an order by weight. */
  datatype Stack = Stack(keys: seq<Key>, filters: map<Key, seq<Filter>>)

  ghost predicate Orders(stack: Stack, engine: Engine) {
    && (forall k :: k in stack.keys ==> k in stack.filters && k in engine.weights)
    && (forall i, j :: 0 <= i < j < |stack.keys| ==> engine.weights[stack.keys[i]] >= engine.weights[stack.keys[j]])
    && (forall k, f :: k in stack.keys && f in stack.filters[k] ==> f in engine.filters && f.sublayer == k)
    && (forall k, i, j :: k in stack.keys && 0 <= i < j < |stack.filters[k]| ==>
          stack.filters[k][i].weight >= stack.filters[k][j].weight)
    && (GUARD in engine.weights ==>
    GUARD in stack.keys && forall f :: f in engine.filters && f.sublayer == GUARD ==> f in stack.filters[GUARD])
  }

  function Decisions(stack: Stack, keys: seq<Key>, conn: Connection, callouts: Callouts): (r: seq<Decision>)
    requires forall k :: k in keys ==> k in stack.filters
    ensures |r| == |keys|
    ensures forall i :: 0 <= i < |keys| ==> r[i] == SublayerDecision(stack.filters[keys[i]], conn, callouts)
  {
    if keys == [] then []
    else [SublayerDecision(stack.filters[keys[0]], conn, callouts)] + Decisions(stack, keys[1..], conn, callouts)
  }

  predicate Permitted(stack: Stack, conn: Connection, callouts: Callouts)
    requires forall k :: k in stack.keys ==> k in stack.filters
  {
    Arbitrate(Decisions(stack, stack.keys, conn, callouts), true)
  }

  predicate IsService(conn: Connection, app: Bytes) { conn.app == app && SYSTEM in conn.descriptors }

  // ----- soundness -------------------------------------------------------------------------------

  ghost predicate HasFilter(engine: Engine, app: Bytes, i: nat) requires i < 8 {
    exists f :: f in engine.filters && Matches(f, At(app, i))
  }
  ghost predicate IsOwned(f: Filter, app: Bytes) { exists i: nat :: i < 8 && Matches(f, At(app, i)) }

  /** The eight filters are installed, and nothing else is in the guard's sublayer. */
  ghost predicate Installed(engine: Engine, app: Bytes) {
    && GUARD in engine.weights
    && (forall i: nat :: i < 8 ==> HasFilter(engine, app, i))
    && (forall f :: f in engine.filters && f.sublayer == GUARD ==> IsOwned(f, app))
  }

  lemma {:induction false} BlockedBy(decisions: seq<Decision>, g: nat, verdict: bool)
    requires g < |decisions| && decisions[g].HardBlock? && forall i :: 0 <= i < g ==> !decisions[i].HardPermit?
    ensures !Arbitrate(decisions, verdict)
  {
    if g > 0 && !decisions[0].HardBlock? { BlockedBy(decisions[1..], g - 1, verdict && !decisions[0].SoftBlock?); }
  }

  /** Whatever a sublayer decides, one of its applying filters decided it. */
  lemma {:induction false} DecidedBy(filters: seq<Filter>, conn: Connection, callouts: Callouts)
    ensures var d := SublayerDecision(filters, conn, callouts);
            !d.Continue? ==> exists f :: f in filters && Applies(f, conn) && Decide(f, Answer(callouts, f)) == d
  {
    if filters != [] {
      DecidedBy(filters[1..], conn, callouts);
    }
  }

  lemma ServicePermitNeedsService(f: Filter, app: Bytes, conn: Connection)
    requires IsGuardServicePermit(f, At(app, 0)) && Applies(f, conn)
    ensures IsService(conn, app)
  {
    var (a, b) := (ServiceConditions(app)[0], ServiceConditions(app)[1]);
    ServicePermitIsPermutation(f, app);
    assert a in ServiceConditions(app) && b in ServiceConditions(app);
    forall d | d in f.conditions ensures d == a || d == b {
      assert d in multiset(f.conditions);
      assert d in multiset(ServiceConditions(app));
    }
  }

  /** No sublayer ordered before the guard can hard-permit a connection that is not the service's. */
  lemma NoHardPermitAbove(engine: Engine, stack: Stack, app: Bytes, conn: Connection, callouts: Callouts, k: Key)
    requires Orders(stack, engine) && k in stack.keys && k != GUARD && GUARD in engine.weights
    requires engine.weights[k] >= engine.weights[GUARD] && conn.layer in LAYERS && !IsService(conn, app)
    requires Safe(engine, conn.layer, engine.weights[GUARD], At(app, 0))
    ensures !SublayerDecision(stack.filters[k], conn, callouts).HardPermit?
  {
    DecidedBy(stack.filters[k], conn, callouts);
    if SublayerDecision(stack.filters[k], conn, callouts).HardPermit? {
      var f :| f in stack.filters[k] && Applies(f, conn) && Decide(f, Answer(callouts, f)).HardPermit?;
      assert f in engine.filters && f.layer == conn.layer && IsPotentialGuardOverride(f);
      assert IsGuardServicePermit(f, At(app, 0));
      ServicePermitNeedsService(f, app, conn);
    }
  }

  /** What the eight definitions have in common, and how they alternate. */
  lemma Owned(f: Filter, app: Bytes, i: nat)
    requires i < 8 && Matches(f, At(app, i))
    ensures Disabled !in f.flags && ClearActionRight !in f.flags && f.sublayer == GUARD && f.layer == LAYERS[i / 2]
    ensures if i % 2 == 0 then f.action.Permit? && f.weight == 2 && f.conditions == ServiceConditions(app)
            else f.action.Block? && f.weight == 1 && f.conditions == []
  {
    assert Disabled !in f.flags - {Indexed} && ClearActionRight !in f.flags - {Indexed};
  }

  lemma OwnedPermitNeedsService(f: Filter, app: Bytes, conn: Connection)
    requires f.action.Permit? && f.conditions == ServiceConditions(app) && Applies(f, conn)
    ensures IsService(conn, app)
  {
    assert f.conditions[0] in f.conditions && f.conditions[1] in f.conditions;
  }

  lemma BlockOn(engine: Engine, app: Bytes, conn: Connection) returns (block: Filter)
    requires Installed(engine, app) && conn.layer in LAYERS
    ensures block in engine.filters && block.sublayer == GUARD && Applies(block, conn)
  {
    var layer: nat :| layer < 4 && LAYERS[layer] == conn.layer;
    assert HasFilter(engine, app, 2 * layer + 1);
    block :| block in engine.filters && Matches(block, At(app, 2 * layer + 1));
    Owned(block, app, 2 * layer + 1);
  }

  lemma OwnedBlocks(f: Filter, app: Bytes, conn: Connection)
    requires IsOwned(f, app) && Applies(f, conn) && !IsService(conn, app)
    ensures f.action.Block?
  {
    var i: nat :| i < 8 && Matches(f, At(app, i));
    Owned(f, app, i);
    if i % 2 == 0 { OwnedPermitNeedsService(f, app, conn); }
  }

  /** In the guard's own sublayer everything but the service meets the block. */
  lemma GuardBlocks(engine: Engine, stack: Stack, app: Bytes, conn: Connection, callouts: Callouts)
    requires Orders(stack, engine) && Installed(engine, app) && conn.layer in LAYERS && !IsService(conn, app)
    ensures SublayerDecision(stack.filters[GUARD], conn, callouts).HardBlock?
  {
    var block := BlockOn(engine, app, conn);
    var filters := stack.filters[GUARD];
    forall f | f in filters && Applies(f, conn) ensures f.action.Block? {
      assert IsOwned(f, app);
      OwnedBlocks(f, app, conn);
    }
    OnlyBlocks(filters, conn, callouts, block);
  }

  lemma {:induction false} OnlyBlocks(filters: seq<Filter>, conn: Connection, callouts: Callouts, block: Filter)
    requires block in filters && Applies(block, conn)
             && forall f :: f in filters && Applies(f, conn) ==> f.action.Block?
    ensures SublayerDecision(filters, conn, callouts).HardBlock?
  {
    if !Applies(filters[0], conn) {
      assert block in filters[1..];
      OnlyBlocks(filters[1..], conn, callouts, block);
    } else {
      assert filters[0] in filters;
    }
  }

  /**
   With the eight filters in place, nothing else in their sublayer and a safe
   priority check, every connection on the four layers that is not the service's
   is blocked, whatever callouts answer and however equal weights are ordered.
   */
  lemma GuardSound(engine: Engine, stack: Stack, app: Bytes, conn: Connection, callouts: Callouts)
    requires Orders(stack, engine) && Installed(engine, app)
    requires forall layer :: layer in LAYERS ==> Safe(engine, layer, engine.weights[GUARD], At(app, 0))
    requires conn.layer in LAYERS && !IsService(conn, app)
    ensures !Permitted(stack, conn, callouts)
  {
    var g: nat :| g < |stack.keys| && stack.keys[g] == GUARD;
    var decisions := Decisions(stack, stack.keys, conn, callouts);
    GuardBlocks(engine, stack, app, conn, callouts);
    forall i | 0 <= i < g ensures !decisions[i].HardPermit? {
      if stack.keys[i] != GUARD {
        NoHardPermitAbove(engine, stack, app, conn, callouts, stack.keys[i]);
      }
    }
    BlockedBy(decisions, g, true);
  }

  // ----- the check is tight ------------------------------------------------------------------------

  function Eight(app: Bytes): seq<Filter> { seq(8, i requires 0 <= i < 8 => At(app, i)) }

  /** The guard alone with one foreign filter, in sublayers of these weights. */
  predicate Beside(engine: Engine, app: Bytes, f: Filter, guardWeight: nat, weight: nat) {
    && f.sublayer != GUARD && engine.filters == Eight(app) + [f]
    && engine.weights == map[GUARD := guardWeight, f.sublayer := weight]
  }

  /** A connection that is not the service's is let through, in some order of equals and for some callouts' answers. */
  ghost predicate LetsThrough(engine: Engine, app: Bytes, conn: Connection) {
    && conn.layer in LAYERS && !IsService(conn, app)
    && exists stack, callouts :: Orders(stack, engine) && Permitted(stack, conn, callouts)
  }

  ghost predicate ReachesOthers(f: Filter, app: Bytes, conn: Connection) { !IsService(conn, app) && Applies(f, conn) }

  lemma EightInstalled(engine: Engine, app: Bytes, f: Filter, guardWeight: nat, weight: nat)
    requires Beside(engine, app, f, guardWeight, weight)
    ensures Installed(engine, app)
  {
    forall i: nat | i < 8 ensures HasFilter(engine, app, i) {
      assert engine.filters[i] == At(app, i) && Matches(At(app, i), At(app, i));
    }
    forall h | h in engine.filters && h.sublayer == GUARD ensures IsOwned(h, app) {
      var i: nat :| i < |engine.filters| && engine.filters[i] == h;
      assert i < 8 && Matches(h, At(app, i));
    }
  }

  /** Nothing in a lighter sublayer, and no filter that the check passes, can let others through. */
  lemma HarmlessBlocks(engine: Engine, app: Bytes, f: Filter, guardWeight: nat, weight: nat, conn: Connection)
    requires Beside(engine, app, f, guardWeight, weight) && !CanOverrideGuard(f, weight, guardWeight, At(app, 0))
    ensures !LetsThrough(engine, app, conn)
  {
    if conn.layer in LAYERS && !IsService(conn, app) {
      EightInstalled(engine, app, f, guardWeight, weight);
      assert forall layer :: layer in LAYERS ==> Safe(engine, layer, guardWeight, At(app, 0));
      forall stack, callouts | Orders(stack, engine) ensures !Permitted(stack, conn, callouts) {
        GuardSound(engine, stack, app, conn, callouts);
      }
    }
  }

  /** A filter that does not apply decides nothing in its sublayer. */
  lemma IdleDecides(engine: Engine, stack: Stack, f: Filter, conn: Connection, callouts: Callouts, key: Key)
    requires Orders(stack, engine) && key in stack.keys && !Applies(f, conn)
    requires forall h :: h in engine.filters && h.sublayer == key ==> h == f
    ensures SublayerDecision(stack.filters[key], conn, callouts).Continue?
  {
    DecidedBy(stack.filters[key], conn, callouts);
  }

  lemma IdleBlocks(engine: Engine, stack: Stack, app: Bytes, f: Filter, conn: Connection, callouts: Callouts)
    requires Orders(stack, engine) && Installed(engine, app) && !Applies(f, conn)
    requires conn.layer in LAYERS && !IsService(conn, app)
    requires forall h :: h in engine.filters && h.sublayer != GUARD ==> h == f
    ensures !Permitted(stack, conn, callouts)
  {
    var g: nat :| g < |stack.keys| && stack.keys[g] == GUARD;
    GuardBlocks(engine, stack, app, conn, callouts);
    var decisions := Decisions(stack, stack.keys, conn, callouts);
    forall i | 0 <= i < g ensures !decisions[i].HardPermit? {
      if stack.keys[i] != GUARD { IdleDecides(engine, stack, f, conn, callouts, stack.keys[i]); }
    }
    BlockedBy(decisions, g, true);
  }

  lemma IdleKeepsOut(engine: Engine, app: Bytes, f: Filter, guardWeight: nat, weight: nat, conn: Connection)
    requires Beside(engine, app, f, guardWeight, weight) && !Applies(f, conn)
    ensures !LetsThrough(engine, app, conn)
  {
    if conn.layer in LAYERS && !IsService(conn, app) {
      EightInstalled(engine, app, f, guardWeight, weight);
      forall stack, callouts | Orders(stack, engine) ensures !Permitted(stack, conn, callouts) {
        IdleBlocks(engine, stack, app, f, conn, callouts);
      }
    }
  }

  /** The eight by weight. */
  function Sorted(app: Bytes): seq<Filter> {
    [At(app, 0), At(app, 2), At(app, 4), At(app, 6), At(app, 1), At(app, 3), At(app, 5), At(app, 7)]
  }

  lemma SortedHas(app: Bytes, i: nat)
    requires i < 8
    ensures At(app, i) in Sorted(app)
  {
    assert Sorted(app)[if i % 2 == 0 then i / 2 else 4 + i / 2] == At(app, i);
  }

  lemma SortedIsEight(app: Bytes)
    ensures forall f :: f in Sorted(app) <==> f in Eight(app)
  {
    forall f | f in Eight(app) ensures f in Sorted(app) {
      var i: nat :| i < 8 && Eight(app)[i] == f;
      SortedHas(app, i);
    }
    forall f | f in Sorted(app) ensures f in Eight(app) {
      var i: nat :| i < 8 && Sorted(app)[i] == f;
      assert Eight(app)[if i < 4 then 2 * i else 2 * (i - 4) + 1] == f;
    }
  }

  lemma SortedByWeight(app: Bytes)
    ensures forall f :: f in Sorted(app) ==> f.sublayer == GUARD
    ensures forall i, j :: 0 <= i < j < 8 ==> Sorted(app)[i].weight >= Sorted(app)[j].weight
  {
    assert forall i :: 0 <= i < 8 ==> Sorted(app)[i].weight == if i < 4 then 2 else 1;
  }

  /** An order that puts the filter's sublayer before the guard's. */
  function Before(guard: seq<Filter>, f: Filter): Stack {
    var filters: map<Key, seq<Filter>> := map[GUARD := guard, f.sublayer := [f]];
    Stack([f.sublayer, GUARD], filters)
  }

  lemma BeforeOrders(engine: Engine, app: Bytes, f: Filter, guardWeight: nat, weight: nat)
    requires Beside(engine, app, f, guardWeight, weight) && weight >= guardWeight
    ensures Orders(Before(Sorted(app), f), engine)
  {
    SortedIsEight(app);
    SortedByWeight(app);
    SortedOrders(engine, Eight(app), Sorted(app), f);
  }

  lemma SortedOrders(engine: Engine, eight: seq<Filter>, sorted: seq<Filter>, f: Filter)
    requires f.sublayer != GUARD && engine.filters == eight + [f]
    requires engine.weights.Keys == {GUARD, f.sublayer} && engine.weights[f.sublayer] >= engine.weights[GUARD]
    requires forall h :: h in sorted <==> h in eight
    requires forall h :: h in sorted ==> h.sublayer == GUARD
    requires forall i, j :: 0 <= i < j < |sorted| ==> sorted[i].weight >= sorted[j].weight
    ensures Orders(Before(sorted, f), engine)
  {
  }

  lemma OverrideLetsThrough(engine: Engine, app: Bytes, f: Filter, guardWeight: nat, weight: nat, conn: Connection)
    requires Beside(engine, app, f, guardWeight, weight) && CanOverrideGuard(f, weight, guardWeight, At(app, 0))
    requires ReachesOthers(f, app, conn)
    ensures LetsThrough(engine, app, conn)
  {
    var stack := Before(Sorted(app), f);
    var callouts := map[f := HardPermit];
    BeforeOrders(engine, app, f, guardWeight, weight);
    assert SublayerDecision([f], conn, callouts).HardPermit?;
    assert Decisions(stack, stack.keys, conn, callouts)[0].HardPermit?;
    assert Permitted(stack, conn, callouts);
  }

  /**
   What the priority check decides about a filter is exactly what that filter can do: beside the guard it can let a
   connection of others through if and only if the check refuses it and it applies to that connection.
   */
  lemma CheckExact(engine: Engine, app: Bytes, f: Filter, guardWeight: nat, weight: nat, conn: Connection)
    requires Beside(engine, app, f, guardWeight, weight)
    ensures LetsThrough(engine, app, conn)
        <==> CanOverrideGuard(f, weight, guardWeight, At(app, 0)) && ReachesOthers(f, app, conn)
  {
    if !CanOverrideGuard(f, weight, guardWeight, At(app, 0)) {
      HarmlessBlocks(engine, app, f, guardWeight, weight, conn);
    } else if !Applies(f, conn) {
      IdleKeepsOut(engine, app, f, guardWeight, weight, conn);
    } else if !IsService(conn, app) {
      OverrideLetsThrough(engine, app, f, guardWeight, weight, conn);
    }
  }

  lemma OwnedPermitTakesService(f: Filter, app: Bytes, conn: Connection)
    requires f.conditions == ServiceConditions(app) && IsService(conn, app) && f.layer == conn.layer
             && Disabled !in f.flags
    ensures Applies(f, conn)
  {
    forall c | c in f.conditions ensures FieldHolds(f.conditions, c.field, conn) {
      assert Holds(c, conn);
    }
  }

  /** The service itself is let through its own sublayer, softly: another firewall may still block it. */
  lemma {:induction false} ServicePasses(filters: seq<Filter>, app: Bytes, conn: Connection, callouts: Callouts,
                                         permit: Filter)
    requires (forall f :: f in filters ==> IsOwned(f, app))
    requires (forall i, j :: 0 <= i < j < |filters| ==> filters[i].weight >= filters[j].weight)
    requires IsService(conn, app)
    requires permit in filters && permit.action.Permit? && permit.layer == conn.layer
    ensures SublayerDecision(filters, conn, callouts).SoftPermit?
  {
    var f := filters[0];
    assert f in filters && IsOwned(f, app) && IsOwned(permit, app);
    var i: nat :| i < 8 && Matches(f, At(app, i));
    var p: nat :| p < 8 && Matches(permit, At(app, p));
    Owned(f, app, i);
    Owned(permit, app, p);
    if f.layer == conn.layer && f.action.Permit? {
      OwnedPermitTakesService(f, app, conn);
    } else {
      var k: nat :| k < |filters| && filters[k] == permit;
      assert k > 0 && !f.action.Block? && filters[1..][k - 1] == permit;
      forall a, b | 0 <= a < b < |filters[1..]| ensures filters[1..][a].weight >= filters[1..][b].weight {
        assert filters[1..][a] == filters[a + 1] && filters[1..][b] == filters[b + 1];
      }
      ServicePasses(filters[1..], app, conn, callouts, permit);
    }
  }
}
