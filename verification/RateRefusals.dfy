/** When a publish is refused for its rate, and for how long. */
module RateRefusals {
  import opened Model
  import opened RateLimit

  function Largest(charges: seq<Charge>): nat {
    if charges == [] then 1
    else
      var before, max := Largest(charges[..|charges| - 1]), charges[|charges| - 1].policy.maxPublishes;
      if before < max then max else before
  }

  lemma {:induction false} WithinLargest(charges: seq<Charge>)
    requires forall i | 0 <= i < |charges| :: charges[i].policy.Valid()
    ensures Largest(charges) > 0 && AllWithin(charges, Largest(charges), 1)
  {
    if charges != [] { WithinLargest(charges[..|charges| - 1]); }
  }

  lemma RefusalSpends(slot: Slot, past: seq<nat>, current: seq<nat>, most: nat, clock: nat, policy: Policy, now: nat)
    requires Holds(1, slot, current, clock) && Spread(most, 1, past, current, clock) && clock <= now
    requires slot.member && !slot.Step(policy, PublishAt(now)).1
    ensures policy.maxPublishes <= |current| && forall t | t in current :: now < t + policy.window
  {
    if current != [] { assert current[0] in past + current; }
  }

  /** Nobody is refused early: a refused publish of a member follows as many admitted ones, within the window up to it,
      as the policy in force allows, whatever came before. */
  lemma RefusedMeansSpent(charges: seq<Charge>, policy: Policy, now: nat)
    requires Ordered(charges) && Clock(charges) <= now && forall i | 0 <= i < |charges| :: charges[i].policy.Valid()
    requires RunSlot(charges).member && !RunSlot(charges).Step(policy, PublishAt(now)).1
    ensures var times := Admitted(charges);
            && policy.maxPublishes <= |times|
            && forall i | |times| - policy.maxPublishes <= i < |times| :: now < times[i] + policy.window
  {
    WithinLargest(charges);
    var past, current := RunSpreads(charges, Largest(charges), 1, 0);
    RefusalSpends(RunSlot(charges), past, current, Largest(charges), Clock(charges), policy, now);
    LastOnes(past, current, policy, now);
  }

  lemma LastOnes(past: seq<nat>, current: seq<nat>, policy: Policy, now: nat)
    requires policy.maxPublishes <= |current| && forall t | t in current :: now < t + policy.window
    ensures var times := past + current;
            forall i | |times| - policy.maxPublishes <= i < |times| :: now < times[i] + policy.window
  {
    var times := past + current;
    forall i | |times| - policy.maxPublishes <= i < |times| ensures now < times[i] + policy.window {
      assert times[i] in current;
    }
  }

  /** The time a refusal names is exactly how long to wait. */
  lemma RetryExactly(l: Limiter, policy: Policy, now: nat, later: nat)
    requires l.Admit(Some(policy), now).1.Some? && l.Admit(Some(policy), now).1.value.RateLimited? && now <= later
    ensures l.Admit(Some(policy), later).1.None? <==> now + l.Admit(Some(policy), now).1.value.retryAfter <= later
  {
  }
}
