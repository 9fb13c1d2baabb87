/** The local DPI executor: which holders it captures, when it withdraws them, and what children it launches. */
module DpiExecutor {
  import opened Wrappers

  type Tag = nat
  type Id = nat
  datatype Holder = Holder(tag: Tag, id: Id)
  datatype Strategy = Multidisorder | FakeMultisplit | Unknown

  predicate Injective(m: map<Tag, Id>) { forall t, u :: t in m && u in m && m[t] == m[u] ==> t == u }

  /** Core's answer to one admission. */
  datatype Verdict = Verdict(id: Id, yes: bool)

  /** What Core proposes for a retry: a fresh and distinct identifier for each expected one, and nothing malformed. */
  predicate Renews(encoded: seq<Option<Id>>, expected: seq<Id>) {
    && |encoded| == |expected|
    && (forall i :: 0 <= i < |encoded| ==> encoded[i].Some? && encoded[i].value !in expected)
    && forall i, j :: 0 <= i < j < |encoded| ==> encoded[i] != encoded[j]
  }

  /**
   Core's admission table: identifiers are never reused, and only an admission publishes one. Each
   answer by which Core or the system fails the executor is counted.
   */
  class AdmissionCore {
    var current: map<Tag, Id>
    var used: set<Id>
    var published: set<Id>
    ghost var was: set<Holder>         // every identifier that was ever current, with its tag
    ghost var answers: seq<Verdict>
    ghost var refusals: nat

    ghost predicate Valid()
      reads this
    {
      && published <= used && Injective(current)
      && forall t :: t in current ==> current[t] in used && Holder(t, current[t]) in was
    }

    /** On its own Core lets a tag keep or lose its identifier, or gives it one never used before. */
    twostate predicate Drifted()
      reads this
    {
      && old(used) <= used && old(was) <= was && old(refusals) <= refusals
      && forall t :: t in current ==> current[t] !in old(used) || (t in old(current) && current[t] == old(current[t]))
    }

    /** Nothing was published or answered. */
    twostate predicate Silent()
      reads this
    {
      published == old(published) && answers == old(answers)
    }

    constructor ()
      ensures Valid() && published == {} && current == map[]
    {
      current, used, published, was, answers, refusals := map[], {}, {}, {}, [], 0;
    }

    /** The system's or the caller's answer. */
    method Ask() returns (ok: bool)
      modifies this`refusals
      ensures refusals == old(refusals) + if ok then 0 else 1
    {
      ok := *;
      if !ok { refusals := refusals + 1; }
    }

    method Drift()
      requires Valid()
      modifies this
      ensures Valid() && Drifted() && Silent() && refusals == old(refusals)
    {
      var next: map<Tag, Id> := *;
      if Injective(next) && forall t | t in next :: next[t] !in used || (t in current && current[t] == next[t]) {
        used, current := used + next.Values, next;
        was := was + set t | t in next :: Holder(t, next[t]);
      }
    }

    /** A Core that stopped has no current identifier. */
    method StopCore() returns (ok: bool)
      requires Valid()
      modifies this
      ensures Valid() && Drifted() && Silent() && (ok ==> current == map[])
    {
      Drift();
      ok := Ask();
      if ok { current := map[]; }
    }

    method Read(tag: Tag) returns (id: Option<Id>)
      requires Valid()
      modifies this
      ensures Valid() && Drifted() && Silent() && refusals == old(refusals)
      ensures id == if tag in current then Some(current[tag]) else None
    {
      Drift();
      id := if tag in current then Some(current[tag]) else None;
    }

    /** Reads an identifier the executor cannot do without. */
    method Fetch(tag: Tag) returns (id: Option<Id>)
      requires Valid()
      modifies this
      ensures Valid() && Drifted() && Silent() && (id.None? ==> refusals > old(refusals))
      ensures id.Some? ==> tag in current && current[tag] == id.value && Holder(tag, id.value) in was
    {
      id := Read(tag);
      var wellFormed := Ask();
      if !wellFormed { return None; }
      if id.None? { refusals := refusals + 1; }
    }

    /** Whether the tag still has this identifier. */
    method Confirm(tag: Tag, id: Id) returns (ok: bool)
      requires Valid()
      modifies this
      ensures Valid() && Drifted() && Silent() && (!ok ==> refusals > old(refusals))
      ensures ok <==> tag in current && current[tag] == id
      ensures ok ==> Holder(tag, id) in was
    {
      var now := Read(tag);
      ok := now == Some(id);
      if !ok { refusals := refusals + 1; }
    }

    /** Publishes a current identifier, and may have even when it reports otherwise. */
    method Admit(id: Id) returns (ok: bool)
      requires Valid() && id in used
      modifies this
      ensures Valid() && Drifted() && (published == old(published) || published == old(published) + {id})
      ensures answers == old(answers) + [Verdict(id, ok)] && (!ok ==> refusals > old(refusals))
    {
      Drift();
      if id in current.Values { published := published + {id}; }
      ok := Ask();
      answers := answers + [Verdict(id, ok)];
    }

    method Withdraw(id: Id) returns (ok: bool)
      requires Valid()
      modifies this
      ensures Valid() && Drifted() && published <= old(published) && answers == old(answers)
      ensures if ok then id !in published else refusals > old(refusals)
    {
      Drift();
      ok := Ask();
      if ok { published := published - {id}; }
    }

    /** Replaces the expected holders; the answer is checked by the caller. */
    method PrepareRetry(expected: seq<Id>) returns (encoded: seq<Option<Id>>)
      requires Valid()
      modifies this
      ensures Valid() && Drifted() && Silent() && (!Renews(encoded, expected) ==> refusals > old(refusals))
    {
      Drift();
      encoded := *;
      if !Renews(encoded, expected) { refusals := refusals + 1; }
    }
  }

  class WindowsLocalDpiExecutor {
    const core: AdmissionCore
    var child: bool                    // the job and its process are open
    var driver: bool
    var holders: seq<Holder>
    var first: Strategy
    var retryAttempted: bool
    var admissionAttempted: bool
    ghost var launched: seq<Strategy>  // since the holders were last empty
    ghost var captured: set<Id>        // likewise

    /** Any identifier Core currently publishes was admitted through a captured holder. */
    ghost predicate Accounted()
      reads this, core
    {
      forall t :: t in core.current && core.current[t] in core.published ==>
        admissionAttempted && Holder(t, core.current[t]) in holders
    }

    /** A captured identifier is current only for the holder it was captured for. */
    ghost predicate CapturedHeld()
      reads this, core
    {
      captured <= core.used && (forall h :: h in holders ==> h.id in captured && h in core.was)
      && forall t :: t in core.current && core.current[t] in captured ==> Holder(t, core.current[t]) in holders
    }

    ghost predicate Launches()
      reads this
    {
      && (launched != [] ==> launched[0] == first)
      && |launched| <= (if retryAttempted then 2 else 1) && (|launched| == 2 ==> launched[1] != first)
      && (child ==> launched != [])
    }

    ghost predicate Valid()
      reads this, core
    {
      && core.Valid() && Accounted() && CapturedHeld() && Launches()
      && (holders == [] ==>
      !child && !driver && !retryAttempted && !admissionAttempted && launched == [] && captured == {})
    }

    /** No captured holder is both current and published: the child may be closed. */
    ghost predicate Withdrawn()
      reads this, core
    {
      forall h :: h in holders && h.tag in core.current && core.current[h.tag] == h.id ==> h.id !in core.published
    }

    constructor (core: AdmissionCore)
      requires core.Valid() && core.published == {}
      ensures Valid() && holders == []
    {
      this.core := core;
      child, driver, holders, first := false, false, [], Multidisorder;
      retryAttempted, admissionAttempted, launched, captured := false, false, [], {};
    }

    /** Every close of the child is a call of this, and needs the holders withdrawn. */
    method CloseChild() returns (ok: bool)
      requires Withdrawn()
      modifies this`child, core`refusals
      ensures child == (old(child) && !ok) && core.refusals == old(core.refusals) + if ok then 0 else 1
    {
      ok := core.Ask();
      if ok { child := false; }
    }

    method StopAfterCoreStopped() returns (ok: bool)
      requires Valid() && Withdrawn()
      modifies this, core`refusals
      ensures Valid() && core.refusals >= old(core.refusals)
      ensures if ok then holders == [] else core.refusals > old(core.refusals)
      ensures !ok ==> holders == old(holders) && launched == old(launched) && captured == old(captured)
    {
      ok := CloseChild();
      if !ok { return; }
      var closed := core.Ask();
      if !closed { return false; }
      driver, holders, retryAttempted, admissionAttempted := false, [], false, false;
      launched, captured := [], {};
    }

    /** Withdraws every captured identifier that is still current before anything is closed. */
    method Stop() returns (ok: bool)
      requires Valid()
      modifies this, core
      ensures Valid() && core.refusals >= old(core.refusals)
      ensures if ok then holders == [] else core.refusals > old(core.refusals)
    {
      for i := 0 to |holders|
        invariant Valid() && holders == old(holders) && core.refusals >= old(core.refusals)
        invariant forall k :: 0 <= k < i ==>
          holders[k].tag in core.current && core.current[holders[k].tag] == holders[k].id ==>
            holders[k].id !in core.published
      {
        var id := core.Read(holders[i].tag);
        if id == Some(holders[i].id) {
          var withdrawn := core.Withdraw(holders[i].id);
          if !withdrawn { return false; }
        }
      }
      ok := StopAfterCoreStopped();
    }

    // ----- starting --------------------------------------------------------------------

    predicate Known(strategy: Strategy) { !strategy.Unknown? }

    method StartPrepared(tags: seq<Tag>, strategy: Strategy) returns (ok: bool)
      requires Valid()
      modifies this, core
      ensures Valid()
      ensures old(holders) != [] ==> !ok && holders == old(holders) && launched == old(launched)
      ensures ok ==> child && launched == [strategy] && !retryAttempted && Known(strategy)
      ensures !ok ==> core.refusals > old(core.refusals) || old(child || driver || holders != []) || tags == []
                      || !Known(strategy)
    {
      var owned := core.Ask();
      var available := core.Ask();
      if !owned || child || driver || holders != [] || !available || tags == [] || !Known(strategy) { return false; }
      var captured := Capture(tags);
      if !captured {
        var _ := Stop();
        return false;
      }
      var installed := core.Ask();
      driver := installed;
      var supported := core.Ask();
      if !installed || !supported {
        var _ := Stop();
        return false;
      }
      first := strategy;
      ok := StartChild(strategy);
    }

    /** Captures each service's current identifier; none of them can have been published. */
    method Capture(tags: seq<Tag>) returns (ok: bool)
      requires Valid() && holders == [] && tags != []
      modifies this, core
      ensures Valid() && !child && launched == [] && !retryAttempted && !admissionAttempted
              && (ok ==> |holders| == |tags|)
      ensures core.refusals >= old(core.refusals) + if ok then 0 else 1
    {
      var i := 0;
      while i < |tags|
        invariant 0 <= i <= |tags| && Valid() && |holders| == i
        invariant !child && !driver && launched == [] && !retryAttempted && !admissionAttempted
        invariant core.refusals >= old(core.refusals)
      {
        var id := core.Fetch(tags[i]);
        if id.None? { return false; }
        holders, captured := holders + [Holder(tags[i], id.value)], captured + {id.value};
        i := i + 1;
      }
      return true;
    }

    /** Launches the child; whatever fails after that withdraws and closes everything. */
    method StartChild(strategy: Strategy) returns (ok: bool)
      requires core.Valid() && Accounted() && CapturedHeld() && holders != [] && !child && Known(strategy)
      requires if retryAttempted then launched == [first] && strategy != first else launched == [] && strategy == first
      modifies this, core
      ensures Valid() && (ok ==> child && launched == old(launched) + [strategy])
      ensures ok ==>
              retryAttempted == old(retryAttempted) && admissionAttempted == old(admissionAttempted)
              && holders == old(holders)
      ensures !ok ==> core.refusals > old(core.refusals)
    {
      var created := core.Ask();
      if created { child, launched := true, launched + [strategy]; }
      var ready := core.Ask();
      if created && ready { return true; }
      var _ := Stop();
      return false;
    }

    // ----- the one retry -----------------------------------------------------------------

    /** Every captured identifier is still current. */
    method StillCurrent() returns (ok: bool)
      requires Valid()
      modifies core
      ensures Valid() && core.refusals >= old(core.refusals) + if ok then 0 else 1
    {
      for i := 0 to |holders|
        invariant Valid() && core.refusals >= old(core.refusals)
      {
        var current := core.Confirm(holders[i].tag, holders[i].id);
        if !current { return false; }
      }
      return true;
    }

    method RetryPrepared(strategy: Strategy) returns (ok: bool)
      requires Valid()
      modifies this, core
      ensures Valid()
      ensures ok ==> launched == [old(first), strategy] && strategy != old(first)
      ensures old(retryAttempted) ==> !ok && launched == old(launched)
      ensures !ok ==> core.refusals > old(core.refusals) || old(admissionAttempted || retryAttempted)
                      || old(holders == [] || !child || !driver || strategy == first) || !Known(strategy)
    {
      var owned := core.Ask();
      if !owned || admissionAttempted || retryAttempted || holders == [] || !child || !driver
         || strategy == first || !Known(strategy) { return false; }
      retryAttempted := true;
      var closed := CloseChild();
      var same := core.Ask();
      if !closed || !same { return false; }
      var current := StillCurrent();
      if !current { return false; }
      ok := StartChild(strategy);
    }

    /** What a refresh has shown so far of the first `i` holders and their proposed identifiers. */
    ghost predicate Renewing(renewed: seq<Id>, i: nat)
      requires |renewed| == |holders| && i <= |holders|
      reads this, core
    {
      forall j :: 0 <= j < i ==>
        && renewed[j] in core.used && renewed[j] !in captured && Holder(holders[j].tag, renewed[j]) in core.was
        && (holders[j].tag in core.current ==> core.current[holders[j].tag] !in captured)
        && (forall t :: t in core.current && core.current[t] == renewed[j] ==> t == holders[j].tag)
    }

    predicate Distinct()
      reads this
    {
      forall i, j :: 0 <= i < j < |holders| ==> holders[i].id != holders[j].id
    }

    /** The identifiers of the holders, if each is distinct and still current. */
    method Expected() returns (expected: Option<seq<Id>>)
      requires Valid()
      modifies core
      ensures Valid() && core.refusals >= old(core.refusals)
      ensures expected.None? ==> core.refusals > old(core.refusals) || !Distinct()
      ensures expected.Some? ==>
              |expected.value| == |holders| && forall i :: 0 <= i < |holders| ==> expected.value[i] == holders[i].id
    {
      var ids: seq<Id> := [];
      for i := 0 to |holders|
        invariant Valid() && |ids| == i && forall k :: 0 <= k < i ==> ids[k] == holders[k].id
        invariant core.refusals >= old(core.refusals)
      {
        if holders[i].id in ids { return None; }
        var current := core.Confirm(holders[i].tag, holders[i].id);
        if !current { return None; }
        ids := ids + [holders[i].id];
      }
      return Some(ids);
    }

    /** The proposed identifiers, exactly if there is a new and distinct one for each expected one. */
    method Renewed(encoded: seq<Option<Id>>, expected: seq<Id>) returns (renewed: Option<seq<Id>>)
      ensures renewed.Some? <==> Renews(encoded, expected)
      ensures renewed.Some? ==> |renewed.value| == |encoded|
      ensures renewed.Some? ==> forall i :: 0 <= i < |encoded| ==> encoded[i] == Some(renewed.value[i])
    {
      var ids: seq<Id> := [];
      for i := 0 to |encoded|
        invariant |ids| == i && forall k :: 0 <= k < i ==> encoded[k] == Some(ids[k]) && ids[k] !in expected
        invariant forall k, m :: 0 <= k < m < i ==> ids[k] != ids[m]
        invariant i <= |expected|
      {
        if encoded[i].None? || encoded[i].value in expected || encoded[i].value in ids { return None; }
        ids := ids + [encoded[i].value];
        if |ids| > |expected| { return None; }
      }
      return if |ids| == |expected| then Some(ids) else None;
    }

    /** RefreshWindowsLocalDpiRetryIDs: every holder gets a fresh identifier, in order, or none changes. */
    method RefreshRetryIDs() returns (ok: bool)
      requires Valid() && holders != []
      modifies this`holders, this`captured, this`admissionAttempted, core
      ensures Valid() && (!ok ==>
              holders == old(holders) && captured == old(captured) && admissionAttempted == old(admissionAttempted))
      ensures ok ==> old(admissionAttempted) && !admissionAttempted && !retryAttempted && |holders| == |old(holders)|
      ensures ok ==> forall i :: 0 <= i < |holders| ==>
        holders[i].tag == old(holders)[i].tag && holders[i].id !in old(captured) && holders[i] in core.was
      ensures ok ==> Distinct()
      ensures core.refusals >= old(core.refusals)
      ensures !ok ==> core.refusals > old(core.refusals) || !admissionAttempted || retryAttempted || !Distinct()
    {
      if !admissionAttempted || retryAttempted { return false; }
      var expected := Expected();
      if expected.None? { return false; }
      var encoded := core.PrepareRetry(expected.value);
      var renewed := Renewed(encoded, expected.value);
      if renewed.None? { return false; }
      ok := InstallRetryIDs(renewed.value, expected.value);
    }

    /** Each holder's tag has the identifier proposed for it. */
    method ConfirmRenewed(renewed: seq<Id>, expected: seq<Id>) returns (ok: bool)
      requires Valid() && |renewed| == |expected| == |holders|
      requires forall i :: 0 <= i < |holders| ==> expected[i] == holders[i].id && renewed[i] !in expected
      modifies core
      ensures Valid() && core.refusals >= old(core.refusals) + if ok then 0 else 1
      ensures ok ==> Renewing(renewed, |holders|)
    {
      for i := 0 to |holders|
        invariant Valid() && Renewing(renewed, i) && core.refusals >= old(core.refusals)
      {
        var current := core.Confirm(holders[i].tag, renewed[i]);
        if !current { return false; }
      }
      return true;
    }

    method InstallRetryIDs(renewed: seq<Id>, expected: seq<Id>) returns (ok: bool)
      requires Valid() && holders != [] && admissionAttempted && !retryAttempted && |renewed| == |expected| == |holders|
      requires forall i :: 0 <= i < |holders| ==> expected[i] == holders[i].id && renewed[i] !in expected
      requires forall i, j :: 0 <= i < j < |renewed| ==> renewed[i] != renewed[j]
      modifies this`holders, this`captured, this`admissionAttempted, core
      ensures Valid() && (!ok ==>
              holders == old(holders) && captured == old(captured) && admissionAttempted == old(admissionAttempted))
      ensures ok ==> !admissionAttempted && |holders| == |old(holders)|
      ensures ok ==> forall i :: 0 <= i < |holders| ==>
        holders[i].tag == old(holders)[i].tag && holders[i].id == renewed[i] && renewed[i] !in old(captured)
            && holders[i] in core.was
      ensures core.refusals >= old(core.refusals) + if ok then 0 else 1
    {
      ok := ConfirmRenewed(renewed, expected);
      if !ok { return; }
      var before := holders;
      assert forall t :: t in core.current ==> core.current[t] !in captured && core.current[t] !in core.published;
      holders := seq(|renewed|, i requires 0 <= i < |renewed| => Holder(before[i].tag, renewed[i]));
      captured, admissionAttempted := captured + set id | id in renewed, false;
      forall t | t in core.current && core.current[t] in captured ensures Holder(t, core.current[t]) in holders {
        var j :| 0 <= j < |renewed| && renewed[j] == core.current[t];
        assert holders[j] == Holder(t, core.current[t]);
      }
    }

    /** The ordinary retry after a running child failed: fresh identifiers, then the one retry. */
    method RetryAfterRuntimeFailure(strategy: Strategy) returns (ok: bool)
      requires Valid()
      modifies this, core
      ensures Valid() && (ok ==> launched == [old(first), strategy] && strategy != old(first))
      ensures old(retryAttempted) ==> !ok && launched == old(launched)
      ensures !ok ==> core.refusals > old(core.refusals) || old(!admissionAttempted || retryAttempted || !Distinct())
                      || old(holders == [] || !child || !driver || strategy == first) || !Known(strategy)
    {
      var owned := core.Ask();
      if !owned || holders == [] || !child || !driver || strategy == first || !Known(strategy) { return false; }
      var same := StillCurrent();
      if !same { return false; }
      var refreshed := RefreshRetryIDs();
      if !refreshed { return false; }
      ok := RetryPrepared(strategy);
    }

    predicate Captured(tag: Tag)
      reads this
    {
      exists h :: h in holders && h.tag == tag
    }

    /** One admission of the identifier was put to Core, which answered so. */
    twostate predicate Asked(id: Id, yes: bool)
      reads core
    {
      && core.answers == old(core.answers) + [Verdict(id, yes)]
      && (core.published == old(core.published) || core.published == old(core.published) + {id})
    }

    /** It was the captured identifier of this tag. */
    twostate predicate Put(tag: Tag, yes: bool)
      reads this, core
    {
      exists h :: h in holders && h.tag == tag && Asked(h.id, yes)
    }

    /**
     Admits the captured identifier of a proved service, and only while it is still current:
     admitted means that Core said so, and a refusal that the outside failed the executor.
     */
    method AdmitCaptured(tag: Tag) returns (ok: bool)
      requires Valid()
      modifies this`admissionAttempted, core
      ensures Valid() && (ok ==> admissionAttempted && Put(tag, true))
      ensures Put(tag, true) || Put(tag, false) || core.Silent()
      ensures !ok ==> core.refusals > old(core.refusals) || !child || !Captured(tag)
    {
      for i := 0 to |holders|
        invariant Valid() && core.Silent() && core.refusals >= old(core.refusals)
        invariant forall k :: 0 <= k < i ==> holders[k].tag != tag
      {
        if holders[i].tag == tag {
          ok := AdmitHolder(holders[i]);
          return;
        }
      }
      return false;
    }

    method Publish(h: Holder) returns (yes: bool)
      requires Valid() && h in holders
      modifies this`admissionAttempted, core
      ensures Valid() && admissionAttempted && Asked(h.id, yes)
      ensures core.refusals >= old(core.refusals) + if yes then 0 else 1
    {
      admissionAttempted := true;
      yes := core.Admit(h.id);
    }

    method AdmitHolder(h: Holder) returns (ok: bool)
      requires Valid() && h in holders
      modifies this`admissionAttempted, core
      ensures Valid() && (ok ==> admissionAttempted && Asked(h.id, true))
      ensures Asked(h.id, true) || Asked(h.id, false) || core.Silent()
      ensures !ok ==> core.refusals > old(core.refusals) || !child
    {
      var owned := core.Ask();
      var current := core.Confirm(h.tag, h.id);
      if !owned || !child || !current { return false; }
      var admitted := Publish(h);
      var alive := core.Ask();
      var still := core.Confirm(h.tag, h.id);
      ok := admitted && alive && still;
    }
  }

  // ----- every sequence of calls -------------------------------------------------------------

  datatype Call =
    | Start(tags: seq<Tag>, strategy: Strategy) | Retry(strategy: Strategy) | RetryAfterFailure(strategy: Strategy)
    | Admit(tag: Tag) | Halt | CoreDrifts | CoreStops

  /** Whatever is called in whatever order, at most two children run for one capture, with different strategies. */
  method Drive(executor: WindowsLocalDpiExecutor, calls: seq<Call>)
    requires executor.Valid()
    modifies executor, executor.core
    ensures executor.Valid()
    ensures |executor.launched| <= 2 && (|executor.launched| == 2 ==> executor.launched[0] != executor.launched[1])
  {
    for i := 0 to |calls|
      invariant executor.Valid()
    {
      match calls[i] {
        case Start(tags, strategy) => var _ := executor.StartPrepared(tags, strategy);
        case Retry(strategy) => var _ := executor.RetryPrepared(strategy);
        case RetryAfterFailure(strategy) => var _ := executor.RetryAfterRuntimeFailure(strategy);
        case Admit(tag) => var _ := executor.AdmitCaptured(tag);
        case Halt => var _ := executor.Stop();
        case CoreDrifts => executor.core.Drift();
        case CoreStops => {
          var stopped := executor.core.StopCore();
          if stopped { var _ := executor.StopAfterCoreStopped(); }
        }
      }
    }
  }
}
