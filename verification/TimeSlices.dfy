/** How probe budgets are divided: slices of one proof budget, and the periodic primary's share. */
module TimeSlices {
  const PROOF_BUDGET: nat := 10000
  const RESERVE: nat := 900

  // ----- local DPI proofs ----------------------------------------------------------------

  /** The slice each service is given, when the probes before it took `took`. */
  function Slices(remaining: nat, services: nat, took: seq<nat>): (slices: seq<nat>)
    requires |took| >= services
    ensures |slices| <= services
    decreases services
  {
    if services == 0 || remaining / services == 0 then []
    else
      var slice := remaining / services;
      var left := if took[0] < remaining then remaining - took[0] else 0;
      [slice] + Slices(left, services - 1, took[1..])
  }

  function Sum(s: seq<nat>): nat { if s == [] then 0 else s[0] + Sum(s[1..]) }

  predicate WithinSlices(took: seq<nat>, slices: seq<nat>) requires |took| >= |slices| {
    forall i :: 0 <= i < |slices| ==> took[i] <= slices[i]
  }

  lemma NextSlice(remaining: nat, services: nat, took: nat)
    requires services > 1 && took <= remaining / services
    ensures took <= remaining && (remaining - took) / (services - 1) >= remaining / services
  {
    var slice := remaining / services;
    assert slice * services == slice * (services - 1) + slice;
    assert remaining - took >= slice * (services - 1);
    DivideMonotone(slice, services - 1, remaining - took);
  }

  lemma {:induction false} OneMore(k: nat, q: nat, d: nat)
    requires k < q
    ensures k * d + d <= q * d
  {
    assert q * d == (q - 1) * d + d;
    if k + 1 < q { OneMore(k, q - 1, d); }
  }

  lemma DivideMonotone(q: nat, d: nat, n: nat)
    requires d > 0 && n >= q * d
    ensures n / d >= q
  {
    var k := n / d;
    assert n == k * d + n % d;
    if k < q { OneMore(k, q, d); }
  }

  lemma {:induction false} TimesAtLeast(k: nat, n: nat)
    requires n > 0
    ensures k <= k * n
  {
    if n > 1 {
      TimesAtLeast(k, n - 1);
      assert k * n == k * (n - 1) + k;
    }
  }

  lemma SliceSmall(remaining: nat, services: nat)
    requires services > 0
    ensures remaining / services <= remaining
  {
    TimesAtLeast(remaining / services, services);
  }

  /** Probes that stay within their slices: no service gets less than one before it, and every service gets one. */
  lemma {:induction false} SlicesFair(remaining: nat, services: nat, took: seq<nat>)
    requires |took| >= services && WithinSlices(took, Slices(remaining, services, took))
             && (services > 0 ==> remaining / services > 0)
    ensures var slices := Slices(remaining, services, took);
            |slices| == services && forall i, j :: 0 <= i < j < services ==> slices[i] <= slices[j]
    decreases services
  {
    if services > 0 {
      var slices := Slices(remaining, services, took);
      var left := if took[0] < remaining then remaining - took[0] else 0;
      var rest := Slices(left, services - 1, took[1..]);
      assert slices == [remaining / services] + rest;
      assert took[0] <= slices[0];
      assert WithinSlices(took[1..], rest) by {
        forall i | 0 <= i < |rest| ensures took[1..][i] <= rest[i] { assert took[i + 1] <= slices[i + 1]; }
      }
      if services > 1 {
        NextSlice(remaining, services, took[0]);
        SlicesFair(left, services - 1, took[1..]);
        assert rest[0] >= slices[0];
      }
    }
  }

  /** What the probes took, and what all but the last left unspent of their slices. */
  function Spent(slices: seq<nat>, took: seq<nat>): nat requires |took| >= |slices| {
    if slices == [] then 0 else took[0] + Spent(slices[1..], took[1..])
  }
  function Unspent(slices: seq<nat>, took: seq<nat>): nat
    requires |took| >= |slices| && WithinSlices(took, slices)
  {
    if |slices| <= 1 then 0
    else
      WithinRest(slices, took);
      slices[0] - took[0] + Unspent(slices[1..], took[1..])
  }

  lemma WithinRest(slices: seq<nat>, took: seq<nat>)
    requires |took| >= |slices| >= 1 && WithinSlices(took, slices)
    ensures WithinSlices(took[1..], slices[1..])
  {
    forall i | 0 <= i < |slices[1..]| ensures took[1..][i] <= slices[1..][i] { assert took[i + 1] <= slices[i + 1]; }
  }

  /** What follows the first service: its own slice, and the slices of what it left. */
  lemma FirstSlice(remaining: nat, services: nat, took: seq<nat>)
    requires |took| >= services && Slices(remaining, services, took) != []
             && WithinSlices(took, Slices(remaining, services, took))
    ensures var slices := Slices(remaining, services, took);
            && slices[0] == remaining / services && took[0] <= slices[0] <= remaining
            && slices[1..] == Slices(remaining - took[0], services - 1, took[1..])
            && WithinSlices(took[1..], slices[1..])
  {
    SliceSmall(remaining, services);
    WithinRest(Slices(remaining, services, took), took);
  }

  /** The time taken never exceeds the budget. */
  lemma {:induction false} TimeTakenBounded(remaining: nat, services: nat, took: seq<nat>)
    requires |took| >= services && WithinSlices(took, Slices(remaining, services, took))
    ensures Spent(Slices(remaining, services, took), took) <= remaining
    decreases services
  {
    if Slices(remaining, services, took) != [] {
      FirstSlice(remaining, services, took);
      TimeTakenBounded(remaining - took[0], services - 1, took[1..]);
    }
  }

  lemma {:induction false} SliceSum(remaining: nat, services: nat, took: seq<nat>)
    requires services > 0 && |took| >= services && remaining / services > 0
             && WithinSlices(took, Slices(remaining, services, took))
    ensures Sum(Slices(remaining, services, took)) == remaining + Unspent(Slices(remaining, services, took), took)
    decreases services
  {
    var slices := Slices(remaining, services, took);
    FirstSlice(remaining, services, took);
    SlicesFair(remaining, services, took);
    if services > 1 {
      NextSlice(remaining, services, took[0]);
      SliceSum(remaining - took[0], services - 1, took[1..]);
    } else {
      assert slices[1..] == [] && Sum(slices[1..]) == 0;
    }
  }

  lemma {:induction false} UnspentZero(slices: seq<nat>, took: seq<nat>)
    requires |took| >= |slices| && WithinSlices(took, slices)
    ensures Unspent(slices, took) == 0 <==> forall i :: 0 <= i < |slices| - 1 ==> took[i] == slices[i]
    decreases |slices|
  {
    if |slices| > 1 {
      WithinRest(slices, took);
      UnspentZero(slices[1..], took[1..]);
      assert (forall i :: 0 <= i < |slices| - 1 ==> took[i] == slices[i]) ==>
        forall i :: 0 <= i < |slices[1..]| - 1 ==> took[1..][i] == slices[1..][i];
      if took[0] == slices[0] && forall i :: 0 <= i < |slices[1..]| - 1 ==> took[1..][i] == slices[1..][i] {
        forall i | 0 <= i < |slices| - 1 ensures took[i] == slices[i] {
          if i > 0 { assert took[1..][i - 1] == slices[1..][i - 1]; }
        }
      }
    }
  }

  /**
   The slices granted may add up to more than the budget, because time a probe
   leaves unspent is granted again: they do not exactly when every probe but the
   last uses its whole slice.
   */
  lemma SlicesSumExact(services: nat, took: seq<nat>)
    requires 0 < services <= PROOF_BUDGET && |took| >= services
    requires WithinSlices(took, Slices(PROOF_BUDGET, services, took))
    ensures var slices := Slices(PROOF_BUDGET, services, took);
            |slices| == services && (Sum(slices) <= PROOF_BUDGET <==>
                forall i :: 0 <= i < services - 1 ==> took[i] == slices[i])
  {
    DivideMonotone(1, services, PROOF_BUDGET);
    SlicesFair(PROOF_BUDGET, services, took);
    SliceSum(PROOF_BUDGET, services, took);
    UnspentZero(Slices(PROOF_BUDGET, services, took), took);
  }

  lemma SlicesMayExceedBudget()
    ensures Sum(Slices(PROOF_BUDGET, 2, [0, 0])) == 15000
  {
    assert Slices(PROOF_BUDGET, 2, [0, 0]) == [5000, 10000] by {
      assert [0, 0][1..] == [0];
      assert Slices(PROOF_BUDGET, 1, [0]) == [10000];
    }
    assert [5000, 10000][1..] == [10000] && [10000][1..] == [];
    assert Sum([10000]) == 10000;
  }

  /** The loop over services, with the clock it reads. */
  method Prove(services: nat, start: nat, took: seq<nat>) returns (slices: seq<nat>)
    requires |took| >= services
    ensures slices == Slices(PROOF_BUDGET, services, took)
  {
    slices := [];
    var deadline := start + PROOF_BUDGET;
    var now := start;
    assert took[0..] == took;
    for index := 0 to services
      invariant slices + Slices(if now < deadline then deadline - now else 0, services - index, took[index..])
                == Slices(PROOF_BUDGET, services, took)
    {
      if now >= deadline { return; }
      var slice := (deadline - now) / (services - index);
      if slice == 0 { return; }
      assert took[index..][1..] == took[index + 1..];
      slices := slices + [slice];
      now := now + took[index];
    }
  }

  // ----- the periodic egress primary --------------------------------------------------------

  /** The first attempt's deadline when a different reserve target may follow. */
  function PrimaryDeadline(now: nat, deadline: nat): nat {
    var remaining := if deadline > now then deadline - now else 0;
    var available := if remaining > RESERVE then remaining - RESERVE else 0;
    now + available * 3 / 4
  }

  /**
   Before the owner's deadline the primary ends inside it and leaves the reserve
   the first 900 ms of what remains and a quarter of the rest; after it, it does not.
   */
  lemma PrimaryShare(now: nat, deadline: nat)
    ensures PrimaryDeadline(now, deadline) <= deadline <==> now <= deadline
    ensures now <= deadline ==>
              var remaining := deadline - now;
              var kept := if remaining < RESERVE then remaining else RESERVE;
              deadline - PrimaryDeadline(now, deadline) == kept + (remaining - kept + 3) / 4
  {
    if now <= deadline {
      var remaining := deadline - now;
      var available := if remaining > RESERVE then remaining - RESERVE else 0;
      assert available - available * 3 / 4 == (available + 3) / 4;
    }
  }
}
