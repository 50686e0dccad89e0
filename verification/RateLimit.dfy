/** Publish budgets: a fixed window per connection, and one per connection and session that
    survives leaving while it can still matter. */
module RateLimit {
  import opened Model

  datatype Policy = Policy(maxPublishes: nat, window: nat)
  {
    predicate Valid() { maxPublishes > 0 && window > 0 }
  }

  datatype RateError = ClockRegressed | RateLimited(retryAfter: nat)

  const ONE_SECOND: nat := 1_000_000_000

  datatype Limiter = Limiter(started: Option<nat>, publishes: nat)
  {
    /** Opens a window on first use and whenever the current one has run out; counts otherwise. */
    function Admit(policy: Option<Policy>, now: nat): (Limiter, Option<RateError>) {
      var window := if policy.Some? then policy.value.window else ONE_SECOND;
      if started.None? then (Limiter(Some(now), 1), None)
      else if now < started.value then (this, Some(ClockRegressed))
      else if now - started.value >= window then (Limiter(Some(now), 1), None)
      else if policy.Some? && publishes >= policy.value.maxPublishes then
        (this, Some(RateLimited(window - (now - started.value))))
      else (this.(publishes := publishes + 1), None)
    }
  }

  const FRESH_LIMITER := Limiter(None, 0)

  datatype SessionLimiter = SessionLimiter(limiter: Limiter, retainAfterLeave: bool, window: nat)
  {
    function Configure(policy: Option<Policy>): SessionLimiter {
      if policy.Some? then this.(retainAfterLeave := true, window := policy.value.window) else this
    }

    predicate ExpiredAt(now: nat) {
      limiter.started.Some? ==> now >= limiter.started.value && now - limiter.started.value >= window
    }

    function Admit(policy: Option<Policy>, now: nat): (SessionLimiter, Option<RateError>) {
      var configured := Configure(policy);
      var (l, e) := configured.limiter.Admit(policy, now);
      if e.Some? then (configured.(limiter := l), e)
      else (configured.(limiter := l, window := if policy.Some? then policy.value.window else ONE_SECOND), None)
    }
  }

  function NewSessionLimiter(policy: Option<Policy>): SessionLimiter {
    SessionLimiter(FRESH_LIMITER, policy.Some?, if policy.Some? then policy.value.window else ONE_SECOND)
  }

  // ------------------------------------------------------------------ one connection, one session

  /** What can happen to the budget one connection holds for one session. `JoinAt` may be refused for
      lack of a slot; `PruneNow` is the sweep run when the connection joins some other session; `RateAt` puts
      a policy in force. */
  datatype Event =
    | PublishAt(now: nat)
    | LeaveAt(now: nat)
    | JoinAt(now: nat, slotFree: bool)
    | PruneNow(now: nat)
    | RateAt(now: nat)

  /** An event and the policy it happens under. */
  datatype Charge = Charge(policy: Policy, event: Event)

  datatype Slot = Slot(member: bool, budget: Option<SessionLimiter>)
  {
    function PruneAt(now: nat): Slot {
      if !member && budget.Some? && budget.value.ExpiredAt(now) then this.(budget := None) else this
    }

    /** The next slot, and whether a publish was admitted. */
    function Step(policy: Policy, e: Event): (Slot, bool) {
      match e
      case PublishAt(now) =>
        if !member || budget.None? then (this, false)
        else var (b, err) := budget.value.Admit(Some(policy), now); (this.(budget := Some(b)), err.None?)
      case LeaveAt(_) =>
        (Slot(false, if budget.Some? && !budget.value.retainAfterLeave then None else budget), false)
      case JoinAt(now, slotFree) =>
        if member then (this, false)
        else
          var pruned := PruneAt(now);
          if pruned.budget.None? && !slotFree then (pruned, false)
          else (Slot(true, if pruned.budget.Some? then pruned.budget else Some(NewSessionLimiter(Some(policy)))), false)
      case PruneNow(now) => (PruneAt(now), false)
      case RateAt(_) =>
        (if budget.Some? then this.(budget := Some(budget.value.Configure(Some(policy)))) else this, false)
    }
  }

  const NO_SLOT := Slot(false, None)

  predicate Ordered(charges: seq<Charge>) {
    forall i, j | 0 <= i < j < |charges| :: charges[i].event.now <= charges[j].event.now
  }

  function RunSlot(charges: seq<Charge>): Slot {
    if charges == [] then NO_SLOT
    else
      var last := charges[|charges| - 1];
      RunSlot(charges[..|charges| - 1]).Step(last.policy, last.event).0
  }

  /** The instants of the admitted publishes, in order. */
  function Admitted(charges: seq<Charge>): seq<nat> {
    if charges == [] then []
    else
      var init, last := charges[..|charges| - 1], charges[|charges| - 1];
      Admitted(init) + (if RunSlot(init).Step(last.policy, last.event).1 then [last.event.now] else [])
  }

  ghost function Clock(charges: seq<Charge>): nat {
    if charges == [] then 0 else charges[|charges| - 1].event.now
  }

  // ------------------------------------------------------------------ a budget that is never forgotten

  /** The reference: one limiter kept for ever, fed the publishes of a current member. */
  function RunKept(charges: seq<Charge>): Limiter {
    if charges == [] then FRESH_LIMITER
    else
      var init, last := charges[..|charges| - 1], charges[|charges| - 1];
      if last.event.PublishAt? && RunSlot(init).member then RunKept(init).Admit(Some(last.policy), last.event.now).0
      else RunKept(init)
  }

  function AdmittedKept(charges: seq<Charge>): seq<nat> {
    if charges == [] then []
    else
      var init, last := charges[..|charges| - 1], charges[|charges| - 1];
      AdmittedKept(init)
      + (if last.event.PublishAt? && RunSlot(init).member
         && RunKept(init).Admit(Some(last.policy), last.event.now).1.None?
         then [last.event.now] else [])
  }

  /** The slot agrees with the kept limiter, or forgot one whose window is over. */
  ghost predicate Agrees(policy: Policy, slot: Slot, kept: Limiter, clock: nat) {
    && (slot.member ==> slot.budget.Some?)
    && (slot.budget.Some? ==>
          && slot.budget.value.retainAfterLeave && slot.budget.value.window == policy.window
          && (slot.budget.value.limiter == kept
              || (slot.budget.value.limiter == FRESH_LIMITER
                  && (kept.started.Some? ==> kept.started.value + policy.window <= clock))))
    && (slot.budget.None? ==> (kept.started.Some? ==> kept.started.value + policy.window <= clock))
    && (kept.started.Some? ==> kept.started.value <= clock)
  }

  predicate AllUnder(charges: seq<Charge>, policy: Policy)
  {
    forall i | 0 <= i < |charges| :: charges[i].policy == policy
  }

  lemma {:induction false} SlotAgrees(policy: Policy, charges: seq<Charge>)
    requires policy.Valid() && Ordered(charges) && AllUnder(charges, policy)
    ensures Agrees(policy, RunSlot(charges), RunKept(charges), Clock(charges))
    ensures Admitted(charges) == AdmittedKept(charges)
  {
    if charges != [] {
      SlotAgrees(policy, charges[..|charges| - 1]);
    }
  }

  /** Forgetting an expired budget is unobservable under one policy: whatever leaves, rejoins and prunings
      occur, exactly the same publishes are admitted as by a budget that is never forgotten. */
  lemma ForgettingUnobservable(policy: Policy, charges: seq<Charge>)
    requires policy.Valid() && Ordered(charges) && AllUnder(charges, policy)
    ensures Admitted(charges) == AdmittedKept(charges)
  {
    SlotAgrees(policy, charges);
  }

  // ------------------------------------------------------------------ the budget bound

  /** How many admitted instants fall in `[from, until)`. */
  function CountIn(times: seq<nat>, from: int, until: int): nat {
    if times == [] then 0
    else CountIn(times[..|times| - 1], from, until) + (if from <= times[|times| - 1] < until then 1 else 0)
  }

  lemma CountSnoc(times: seq<nat>, t: nat, from: int, until: int)
    ensures CountIn(times + [t], from, until) == CountIn(times, from, until) + (if from <= t < until then 1 else 0)
  {
    assert (times + [t])[..|times|] == times;
  }

  lemma {:induction false} CountConcat(a: seq<nat>, b: seq<nat>, from: int, until: int)
    ensures CountIn(a + b, from, until) == CountIn(a, from, until) + CountIn(b, from, until)
  {
    if b == [] {
      assert a + b == a;
    } else {
      var n := |b| - 1;
      CountConcat(a, b[..n], from, until);
      assert (a + b)[..|a| + n] == a + b[..n];
    }
  }

  lemma {:induction false} CountNarrow(times: seq<nat>, from: int, until: int, from': int, until': int)
    requires forall t | t in times && from' <= t < until' :: from <= t < until
    ensures CountIn(times, from', until') <= CountIn(times, from, until) <= |times|
  {
    if times != [] {
      assert times[|times| - 1] in times;
      assert forall i | 0 <= i < |times| - 1 :: times[i] in times;
      CountNarrow(times[..|times| - 1], from, until, from', until');
    }
  }

  lemma CountEmpty(times: seq<nat>, from: int, until: int)
    requires forall t | t in times :: !(from <= t < until)
    ensures CountIn(times, from, until) == 0
  {
    CountNarrow(times, 0, 0, from, until);
    CountNone(times);
  }

  lemma {:induction false} CountNone(times: seq<nat>)
    ensures CountIn(times, 0, 0) == 0
  {
    if times != [] { CountNone(times[..|times| - 1]); }
  }

  /** No policy of the run allows more publishes or a shorter window. */
  predicate Within(policy: Policy, most: nat, least: nat) { policy.maxPublishes <= most && policy.window >= least }

  /** The admissions of the newest window, `current`, and all before it, `past`: the newest window holds at
      most one budget, and the stretch of one window up to its opening less than one. */
  ghost predicate Spread(most: nat, least: nat, past: seq<nat>, current: seq<nat>, clock: nat) {
    && (forall t | t in past + current :: t <= clock)
    && (current == [] ==> past == [])
    && (current != [] ==>
          && |current| <= most && (forall t | t in current :: current[0] <= t)
             && (forall t | t in past :: t <= current[0])
          && CountIn(past, current[0] - least + 1, current[0] + 1) <= most - 1)
  }

  /** The slot knows the newest window, or that window was open for long enough. */
  ghost predicate Holds(least: nat, slot: Slot, current: seq<nat>, clock: nat) {
    var over := current != [] ==> current[0] + least <= clock;
    && (slot.member ==> slot.budget.Some?) && (slot.budget.None? ==> over)
    && (slot.budget.Some? ==>
          && slot.budget.value.retainAfterLeave && slot.budget.value.window >= least
          && ((slot.budget.value.limiter == FRESH_LIMITER && over)
              || (current != [] && slot.budget.value.limiter == Limiter(Some(current[0]), |current|))))
  }

  /** A new window opens. */
  lemma SpreadOpens(most: nat, least: nat, past: seq<nat>, current: seq<nat>, clock: nat, now: nat)
    requires most > 0 && least > 0 && Spread(most, least, past, current, clock) && clock <= now
    requires current != [] ==> current[0] + least <= now
    ensures Spread(most, least, past + current, [now], now)
  {
    CountConcat(past, current, now - least + 1, now + 1);
    CountEmpty(past, now - least + 1, now + 1);
    if current != [] {
      var rest := current[1..];
      assert current == [current[0]] + rest;
      CountConcat([current[0]], rest, now - least + 1, now + 1);
      CountEmpty([current[0]], now - least + 1, now + 1);
      CountNarrow(rest, now - least + 1, now + 1, now - least + 1, now + 1);
    }
  }

  /** An interval no longer than the shortest window meets the newest window and less than a budget before. */
  lemma SpreadBounds(most: nat, least: nat, past: seq<nat>, current: seq<nat>, clock: nat, t: int)
    requires most > 0 && Spread(most, least, past, current, clock)
    requires current != [] ==> current[0] < t + least
    ensures CountIn(past + current, t, t + least) <= 2 * most - 1
  {
    CountConcat(past, current, t, t + least);
    CountNarrow(current, t, t + least, t, t + least);
    if current != [] {
      var s := current[0];
      CountNarrow(past, s - least + 1, s + 1, t, t + least);
    }
  }

  lemma SpreadGrows(most: nat, least: nat, past: seq<nat>, current: seq<nat>, clock: nat, now: nat)
    requires Spread(most, least, past, current, clock) && clock <= now && current != [] && |current| < most
    ensures Spread(most, least, past, current + [now], now)
  {
    assert (current + [now])[0] == current[0] && current[0] in current;
    assert forall t | t in past + current :: t <= clock;
    assert forall t | t in past + (current + [now]) :: t in past + current || t == now;
    assert forall t | t in current :: t in past + current;
  }

  /** What the slot knows afterwards, given the newest window afterwards. */
  lemma HoldsNext(most: nat, least: nat, slot: Slot, current: seq<nat>, clock: nat, charge: Charge, current': seq<nat>)
    requires Holds(least, slot, current, clock) && Within(charge.policy, most, least)
             && clock <= charge.event.now && least > 0
    requires var (slot', admitted) := slot.Step(charge.policy, charge.event);
             current' == if !admitted then current else if Opens(slot, charge) then [charge.event.now]
               else current + [charge.event.now]
    ensures Holds(least, slot.Step(charge.policy, charge.event).0, current', charge.event.now)
    ensures slot.Step(charge.policy, charge.event).1 ==>
              if Opens(slot, charge) then current != [] ==> current[0] + least <= charge.event.now
                 else current != [] && |current| < most
  {
  }

  /** The charge opens a window. */
  predicate Opens(slot: Slot, charge: Charge) {
    && slot.budget.Some?
    && slot.budget.value.Admit(Some(charge.policy), charge.event.now).0.limiter.started
       != slot.budget.value.limiter.started
  }

  /** One charge: the admissions still spread, and the slot still knows. */
  lemma SpreadNext(most: nat, least: nat, slot: Slot, past: seq<nat>, current: seq<nat>, clock: nat, charge: Charge)
    returns (past': seq<nat>, current': seq<nat>)
    requires most > 0 && least > 0 && Spread(most, least, past, current, clock) && Holds(least, slot, current, clock)
    requires Within(charge.policy, most, least) && clock <= charge.event.now
    ensures var (slot', admitted) := slot.Step(charge.policy, charge.event);
            && Spread(most, least, past', current', charge.event.now) && Holds(least, slot', current', charge.event.now)
            && past' + current' == past + current + (if admitted then [charge.event.now] else [])
            && (admitted ==> current' != [] && current'[0] <= charge.event.now)
  {
    var now := charge.event.now;
    past', current' := past, current;
    if slot.Step(charge.policy, charge.event).1 {
      current' := if Opens(slot, charge) then [now] else current + [now];
      HoldsNext(most, least, slot, current, clock, charge, current');
      if Opens(slot, charge) {
        SpreadOpens(most, least, past, current, clock, now);
        past' := past + current;
      } else {
        SpreadGrows(most, least, past, current, clock, now);
      }
    } else {
      HoldsNext(most, least, slot, current, clock, charge, current);
    }
  }

  /** Every policy of the run within the same limits. */
  predicate AllWithin(charges: seq<Charge>, most: nat, least: nat) {
    forall i | 0 <= i < |charges| :: Within(charges[i].policy, most, least)
  }

  lemma {:induction false} RunSpreads(charges: seq<Charge>, most: nat, least: nat, t: int)
    returns (past: seq<nat>, current: seq<nat>)
    requires most > 0 && least > 0 && Ordered(charges) && AllWithin(charges, most, least)
    ensures Admitted(charges) == past + current && Spread(most, least, past, current, Clock(charges))
    ensures Holds(least, RunSlot(charges), current, Clock(charges))
    ensures CountIn(Admitted(charges), t, t + least) <= 2 * most - 1
  {
    past, current := [], [];
    if charges != [] {
      var init, last := charges[..|charges| - 1], charges[|charges| - 1];
      past, current := RunSpreads(init, most, least, t);
      past, current := SpreadNext(most, least, RunSlot(init), past, current, Clock(init), last);
      if RunSlot(init).Step(last.policy, last.event).1 {
        CountSnoc(Admitted(init), last.event.now, t, t + least);
        if t <= last.event.now < t + least { SpreadBounds(most, least, past, current, last.event.now, t); }
      } else {
        assert Admitted(charges) == Admitted(init);
      }
    }
  }

  /** However policies change, publishes are admitted as the policy in force allows, and the clock never goes
      back: an interval no longer than the shortest window holds fewer than two of the largest budgets, whatever
      leaves, rejoins and prunings occur. */
  lemma FewerThanTwoBudgets(charges: seq<Charge>, most: nat, least: nat, t: int)
    requires most > 0 && least > 0 && Ordered(charges) && AllWithin(charges, most, least)
    ensures CountIn(Admitted(charges), t, t + least) <= 2 * most - 1
  {
    var past, current := RunSpreads(charges, most, least, t);
  }

  function Late(): seq<Charge> {
    var p := Policy(2, 10);
    [Charge(p, JoinAt(0, true)), Charge(p, PublishAt(0)), Charge(p, PublishAt(9)), Charge(p, PublishAt(10)),
     Charge(p, PublishAt(11))]
  }

  lemma FourAdmitted()
    ensures Admitted(Late()) == [0, 9, 10, 11]
  {
    var p := Policy(2, 10);
    var e1 := [Charge(p, JoinAt(0, true))];
    var e2 := e1 + [Charge(p, PublishAt(0))];
    var e3 := e2 + [Charge(p, PublishAt(9))];
    var e4 := e3 + [Charge(p, PublishAt(10))];
    var e5 := e4 + [Charge(p, PublishAt(11))];
    assert e5[..4] == e4 && e4[..3] == e3 && e3[..2] == e2 && e2[..1] == e1 && e1[..0] == [];
    assert RunSlot(e1) == Slot(true, Some(SessionLimiter(FRESH_LIMITER, true, 10)));
    assert RunSlot(e2) == Slot(true, Some(SessionLimiter(Limiter(Some(0), 1), true, 10)));
    assert RunSlot(e3) == Slot(true, Some(SessionLimiter(Limiter(Some(0), 2), true, 10)));
    assert RunSlot(e4) == Slot(true, Some(SessionLimiter(Limiter(Some(10), 1), true, 10)));
    assert Admitted(e1) == [];
    assert Admitted(e2) == [0];
    assert Admitted(e3) == [0, 9];
    assert Admitted(e4) == [0, 9, 10];
    assert Admitted(e5) == [0, 9, 10, 11];
    assert e5 == Late();
  }

  /** The bound is reached: late publishes of one window meet a full budget as the next one opens. */
  lemma BoundReached()
    ensures Ordered(Late()) && AllWithin(Late(), 2, 10) && CountIn(Admitted(Late()), 9, 9 + 10) == 2 * 2 - 1
  {
    FourAdmitted();
    assert Ordered(Late()) && AllWithin(Late(), 2, 10);
    assert [0, 9, 10, 11] == (([0] + [9]) + [10]) + [11];
    CountSnoc(([0] + [9]) + [10], 11, 9, 19);
    CountSnoc([0] + [9], 10, 9, 19);
    CountSnoc([0], 9, 9, 19);
  }
}
