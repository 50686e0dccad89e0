/** The budget a connection holds for a session, in the tables of the core: every command moves it as the
    slot machine does, so the bound on admitted publishes holds for the publishes the core accepts. */
module Budgets {
  import opened Model
  import opened Queue
  import opened RateLimit
  import opened SessionGraph
  import opened Removing
  import opened Commands
  import opened MemberInvariants
  import opened Publishing
  import opened Fanout
  import opened Checks
  import opened PublishPipeline
  import opened Outcomes
  import opened RatePolicy

  /** What connection `c` holds for session `sk`. */
  function SlotOf(g: Graph, c: nat, sk: SessionKey): Slot
    requires c in g.connections
  {
    Slot(sk in g.connections[c].memberships,
         if sk in g.connections[c].sessionLimiters then Some(g.connections[c].sessionLimiters[sk]) else None)
  }

  /** The connection stays, with its memberships and budgets. */
  ghost predicate KeepsAccount(g: Graph, g': Graph, c: nat) {
    && c in g.connections && c in g'.connections
    && g'.connections[c].memberships == g.connections[c].memberships
    && g'.connections[c].sessionLimiters == g.connections[c].sessionLimiters
  }

  // ------------------------------------------------------------------ commands that leave budgets alone

  lemma CascadeKeepsAccount(g: Graph, sk: SessionKey, seed: set<nat>, c: nat)
    requires sk in g.sessions && c in g.connections
    ensures KeepsAccount(g, RemoveCascade(g, sk, seed), c)
  {
  }

  lemma SubscriptionsKeepAccount(g: Graph, i: nat, k: SpaceKey, c: nat)
    requires i in g.connections && k.session in g.sessions
             && k.space in g.sessions[k.session].subscribers && c in g.connections
    ensures KeepsAccount(g, Subscribe(g, i, k), c) && KeepsAccount(g, Unsubscribe(g, i, k), c)
  {
  }

  lemma SpawnKeepsAccount(g: Graph, i: nat, k: SpaceKey, principal: nat, c: nat)
    requires i in g.connections && k.session in g.sessions
             && k.space in g.sessions[k.session].spaces && c in g.connections
    ensures KeepsAccount(g, Spawn(g, i, k, principal), c)
  {
  }

  lemma TransitionKeepsAccount(g: Graph, k: SessionKey, e: nat, space: nat, epoch: nat, c: nat)
    requires k in g.sessions && e in g.sessions[k].entities && c in g.connections
    ensures KeepsAccount(g, Transition(g, k, e, space, epoch), c)
  {
  }

  lemma DetachKeepsOther(g: Graph, i: nat, sk: SessionKey, c: nat)
    requires i in g.connections && sk in g.sessions && c in g.connections && c != i
    ensures KeepsAccount(g, Detach(g, i, sk), c)
  {
    CascadeKeepsAccount(g, sk, OwnedIn(g.sessions[sk], i), c);
  }

  lemma OneMoreKeepsOther(g: Graph, g1: Graph, g2: Graph, i: nat, sk: SessionKey, c: nat)
    requires KeepsAccount(g, g1, c) && i in g1.connections && sk in g1.sessions && c != i && g2 == Detach(g1, i, sk)
    ensures KeepsAccount(g, g2, c)
  {
    DetachKeepsOther(g1, i, sk, c);
  }

  lemma {:induction false} DetachAllKeepsOther(g: Graph, i: nat, order: seq<SessionKey>, c: nat)
    requires i in g.connections && c in g.connections && c != i && PublishPipeline.Known(g, order)
    ensures KeepsAccount(g, DetachAll(g, i, order), c)
  {
    if order != [] {
      var init, last := order[..|order| - 1], order[|order| - 1];
      KnownInit(g, order);
      DetachAllKeepsOther(g, i, init, c);
      DetachAllSnoc(g, i, init, last);
      OneMoreKeepsOther(g, DetachAll(g, i, init), DetachAll(g, i, init + [last]), i, last, c);
    }
  }

  /** Losing one connection leaves the budgets of all others alone. */
  lemma DisconnectKeepsOther(g: Graph, i: nat, order: seq<SessionKey>, c: nat)
    requires Covers(g, i, order) && c in g.connections && c != i
    ensures KeepsAccount(g, Disconnect(g, i, order), c)
  {
    DetachAllKeepsOther(g, i, order, c);
  }

  lemma {:induction false} DisconnectAllKeepsOther(g: Graph, lost: seq<nat>, orders: seq<seq<SessionKey>>, c: nat)
    requires Loses(g, lost, orders) && c in g.connections && c !in lost
    ensures KeepsAccount(g, DisconnectAll(g, lost, orders), c)
  {
    if lost != [] {
      var n := |lost| - 1;
      LosesInit(g, lost, orders);
      DisconnectAllKeepsOther(g, lost[..n], orders[..n], c);
      DisconnectKeepsOther(DisconnectAll(g, lost[..n], orders[..n]), lost[n], orders[n], c);
    }
  }

  lemma {:induction false} FanoutKeepsAccount(g: Graph, config: CoreConfig, sk: SessionKey,
                                              messages: seq<OutboundMessage>, c: nat)
    requires RoutingReady(g, sk) && c in g.connections
    ensures KeepsAccount(g, FanoutAll(g, config, sk, messages).0, c)
  {
    if messages != [] { FanoutKeepsAccount(g, config, sk, messages[..|messages| - 1], c); }
  }

  lemma DeliveredKeepsAccount(g: Graph, config: CoreConfig, channels: Channels, sk: SessionKey, plan: Plan, now: nat,
                              g': Graph, lost: seq<nat>, orders: seq<seq<SessionKey>>, c: nat)
    requires Delivered(g, config, channels, sk, plan, now, g', lost, orders)
             && c in g.connections && c in g'.connections
    ensures KeepsAccount(g, g', c)
  {
    var committed := WithSession(g, sk, CommitPlan(SweepState(g.sessions[sk], now), channels, plan, now));
    var fanned := FanoutAll(committed, config, sk, plan.messages).0;
    FanoutKeepsAccount(committed, config, sk, plan.messages, c);
    LosesExactly(fanned, lost, orders, c);
    DisconnectAllKeepsOther(fanned, lost, orders, c);
  }

  /** What the commands other than join, leave and publish do to the graph. `SessionTables` stands for those
      that touch no connection: provisioning, installing, moving an entity, sweeping, dropping a session. */
  datatype Effect =
    | SessionTables(sessions: map<SessionKey, Session>)
    | Rated(session: SessionKey, policy: Option<Policy>)
    | Advanced(session: SessionKey, space: nat, epoch: nat)
    | Removed(session: SessionKey, entities: set<nat>)
    | Connected
    | Authenticated(who: nat, principal: Option<Principal>)
    | Lost(who: nat, order: seq<SessionKey>)
    | Subscribed(who: nat, key: SpaceKey)
    | Unsubscribed(who: nat, key: SpaceKey)
    | Spawned(who: nat, key: SpaceKey, owner: nat)
    | Transitioned(session: SessionKey, entity: nat, space: nat, epoch: nat)
    | Drained(who: nat, lanes: Lanes)

  ghost predicate Has(g: Graph, effect: Effect, g': Graph) {
    match effect
    case SessionTables(sessions) => g' == g.(sessions := sessions)
    case Rated(k, policy) => k in g.sessions && g' == SetRateLimit(g, k, policy)
    case Advanced(k, space, epoch) => k in g.sessions && g' == AdvanceEpoch(g, k, space, epoch)
    case Removed(k, entities) => k in g.sessions && g' == RemoveCascade(g, k, entities)
    case Connected => g.nextConnection !in g.connections && g' == Connect(g)
    case Authenticated(i, principal) => i in g.connections
      && g' == WithConnection(g, i, g.connections[i].(authenticated := principal))
    case Lost(i, order) => Covers(g, i, order) && g' == Disconnect(g, i, order)
    case Subscribed(i, k) =>
      i in g.connections && k.session in g.sessions && k.space in g.sessions[k.session].subscribers
        && g' == Subscribe(g, i, k)
    case Unsubscribed(i, k) =>
      i in g.connections && k.session in g.sessions && k.space in g.sessions[k.session].subscribers
        && g' == Unsubscribe(g, i, k)
    case Spawned(i, k, principal) =>
      i in g.connections && k.session in g.sessions && k.space in g.sessions[k.session].spaces
        && g' == Spawn(g, i, k, principal)
    case Transitioned(k, e, space, epoch) =>
      k in g.sessions && e in g.sessions[k].entities && g' == Transition(g, k, e, space, epoch)
    case Drained(i, lanes) => i in g.connections && g' == WithConnection(g, i, g.connections[i].(outbound := lanes))
  }

  lemma EffectKeepsAccount(g: Graph, effect: Effect, g': Graph, c: nat)
    requires Has(g, effect, g') && c in g.connections && c in g'.connections && !effect.Rated?
    ensures KeepsAccount(g, g', c)
  {
    match effect {
      case SessionTables(_) =>
      case Advanced(k, space, epoch) => CascadeKeepsAccount(g, k, EntitiesIn(g.sessions[k], space), c);
      case Removed(k, entities) => CascadeKeepsAccount(g, k, entities, c);
      case Connected =>
      case Authenticated(i, principal) =>
      case Lost(i, order) => DisconnectKeepsOther(g, i, order, c);
      case Subscribed(i, k) => SubscriptionsKeepAccount(g, i, k, c);
      case Unsubscribed(i, k) => SubscriptionsKeepAccount(g, i, k, c);
      case Spawned(i, k, principal) => SpawnKeepsAccount(g, i, k, principal, c);
      case Transitioned(k, e, space, epoch) => TransitionKeepsAccount(g, k, e, space, epoch, c);
      case Drained(i, lanes) =>
    }
  }

  // ------------------------------------------------------------------ commands that move a budget

  /** Joining `sk` is the slot's join, joining another session at most its pruning. */
  lemma JoinMovesSlot(g: Graph, config: CoreConfig, i: nat, joined: SessionKey, now: nat, c: nat,
                      sk: SessionKey, policy: Policy)
    returns (event: Option<Event>)
    requires c in g.connections && (sk in g.sessions ==> g.sessions[sk].rateLimit == Some(policy))
    ensures var g' := JoinOutcome(g, config, i, joined, now).0;
            c in g'.connections && Moves(policy, SlotOf(g, c, sk), event, SlotOf(g', c, sk))
              && (event.Some? ==> event.value.now == now && !event.value.PublishAt?)
  {
    event := None;
    if CheckJoinAccess(g.connections, g.sessions, i, joined).None? && i == c {
      var conn := g.connections[c];
      if joined !in conn.memberships && |conn.memberships| != config.maxMemberships {
        event := Some(if joined == sk then JoinAt(now, |Pruned(conn, now)| < config.maxMemberships) else PruneNow(now));
      }
    }
  }

  /** `slot'` is `slot` after the event, if there was one. */
  ghost predicate Moves(policy: Policy, slot: Slot, event: Option<Event>, slot': Slot) {
    slot' == if event.Some? then slot.Step(policy, event.value).0 else slot
  }

  /** The same under the policy of the charge. */
  ghost predicate Charged(slot: Slot, charge: Option<Charge>, slot': Slot) {
    slot' == if charge.Some? then slot.Step(charge.value.policy, charge.value.event).0 else slot
  }

  lemma UnlinkMovesSlot(g: Graph, c: nat, left: SessionKey, now: nat, sk: SessionKey, policy: Policy)
    requires c in g.connections && left in g.sessions
    ensures SlotOf(Unlink(g, c, left), c, sk) == if left == sk
            then SlotOf(g, c, sk).Step(policy, LeaveAt(now)).0 else SlotOf(g, c, sk)
  {
  }

  lemma DetachMovesSlot(g: Graph, c: nat, left: SessionKey, now: nat, sk: SessionKey, policy: Policy)
    requires c in g.connections && left in g.sessions
    ensures c in Detach(g, c, left).connections
    ensures SlotOf(Detach(g, c, left), c, sk) == if left == sk
            then SlotOf(g, c, sk).Step(policy, LeaveAt(now)).0 else SlotOf(g, c, sk)
  {
    var g1 := RemoveCascade(g, left, OwnedIn(g.sessions[left], c));
    CascadeKeepsAccount(g, left, OwnedIn(g.sessions[left], c), c);
    UnlinkMovesSlot(g1, c, left, now, sk, policy);
  }

  /** Setting the session's policy is the slot's rating; that of another session does not show. */
  lemma RatedMovesSlot(g: Graph, k: SessionKey, policy: Option<Policy>, now: nat, c: nat, sk: SessionKey)
    returns (charge: Option<Charge>)
    requires k in g.sessions && c in g.connections && (k == sk ==> policy.Some?)
    ensures var g' := SetRateLimit(g, k, policy);
            c in g'.connections && Charged(SlotOf(g, c, sk), charge, SlotOf(g', c, sk))
    ensures charge.Some? ==> k == sk && charge.value == Charge(policy.value, RateAt(now))
  {
    charge := if k == sk then Some(Charge(policy.value, RateAt(now))) else None;
    assert SetRateLimit(g, k, policy).connections[c] == RatePolicy.Configured(g.connections[c], k, policy);
  }

  /** Leaving `sk` is the slot's leave; leaving another session does not touch it. */
  lemma LeaveMovesSlot(g: Graph, i: nat, left: SessionKey, now: nat, c: nat, sk: SessionKey, policy: Policy)
    returns (event: Option<Event>)
    requires c in g.connections && MembershipsExistIn(g, i)
    ensures var g' := LeaveOutcome(g, i, left).0;
            c in g'.connections && Moves(policy, SlotOf(g, c, sk), event, SlotOf(g', c, sk))
              && (event.Some? ==> event.value == LeaveAt(now))
  {
    event := None;
    if LeaveOutcome(g, i, left).1.None? {
      event := DetachedMovesSlot(g, i, left, now, c, sk, policy);
    }
  }

  lemma DetachedMovesSlot(g: Graph, i: nat, left: SessionKey, now: nat, c: nat, sk: SessionKey, policy: Policy)
    returns (event: Option<Event>)
    requires c in g.connections && i in g.connections && left in g.sessions
    ensures var g' := Detach(g, i, left);
            c in g'.connections && Moves(policy, SlotOf(g, c, sk), event, SlotOf(g', c, sk))
              && (event.Some? ==> event.value == LeaveAt(now))
  {
    event := None;
    if i != c {
      DetachKeepsOther(g, i, left, c);
      SameSlot(g, Detach(g, i, left), c, sk);
    } else {
      DetachMovesSlot(g, c, left, now, sk, policy);
      if left == sk { event := Some(LeaveAt(now)); }
    }
  }

  /** Charging a publish is the slot's publish when it gets as far as the session budget, and then it is
      admitted exactly when the slot admits it. */
  lemma SpendMovesSlot(g: Graph, config: CoreConfig, i: nat, m: OutboundMessage, now: nat, c: nat,
                       sk: SessionKey, policy: Policy)
    returns (event: Option<Event>)
    requires c in g.connections && i in g.connections && (sk in g.sessions ==> g.sessions[sk].rateLimit == Some(policy))
    ensures var (g', e) := SpendOutcome(g, config, i, m, now);
            && c in g'.connections && Moves(policy, SlotOf(g, c, sk), event, SlotOf(g', c, sk))
            && (event.Some? ==> event.value == PublishAt(now))
            && (i == c && m.Session() == sk && e.None? ==> event.Some? && SlotOf(g, c, sk).Step(policy, event.value).1)
  {
    event := None;
    var conn := g.connections[i];
    var (limiter, refused) := conn.limiter.Admit(Some(config.publishRateLimit), now);
    var charged := WithConnection(g, i, conn.(limiter := limiter));
    if refused.None? && CheckPublishAccess(charged, i, m).None? && i == c && m.Session() == sk {
      event := Some(PublishAt(now));
    }
  }

  // ------------------------------------------------------------------ runs of the core

  /** A command as the budgets see it. */
  datatype Command =
    | JoinCommand(who: nat, session: SessionKey, now: nat)
    | LeaveCommand(who: nat, session: SessionKey, now: nat)
    | PublishCommand(who: nat, message: OutboundMessage, verdict: Verdict, now: nat)
    | OtherCommand(effect: Effect, now: nat)

  /** What the core does with a command; `accepted` says that a publish was accepted. */
  ghost predicate Executes(config: CoreConfig, channels: Channels, g: Graph, cmd: Command, g': Graph, accepted: bool) {
    match cmd
    case JoinCommand(i, joined, now) => !accepted && g' == JoinOutcome(g, config, i, joined, now).0
    case LeaveCommand(i, left, _) => !accepted && MembershipsExistIn(g, i) && g' == LeaveOutcome(g, i, left).0
    case PublishCommand(i, m, verdict, now) =>
      if accepted then exists journal, journal', lost ::
         Published(g, journal, config, channels, i, m, verdict, now, g', journal', lost)
      else ChargedOnly(g, config, i, m, now, g') || g' == g
    case OtherCommand(effect, _) => !accepted && Has(g, effect, g')
  }

  predicate Counts(cmd: Command, accepted: bool, c: nat, sk: SessionKey) {
    accepted && cmd.PublishCommand? && cmd.who == c && cmd.message.Session() == sk
  }

  /** The instants of the publishes of `c` into `sk` that the core accepted. */
  function AcceptedTimes(cmds: seq<Command>, accepted: seq<bool>, c: nat, sk: SessionKey): seq<nat>
    requires |accepted| == |cmds|
  {
    if cmds == [] then []
    else
      var n := |cmds| - 1;
      AcceptedTimes(cmds[..n], accepted[..n], c, sk) + (if Counts(cmds[n], accepted[n], c, sk)
                                                        then [cmds[n].now] else [])
  }

  lemma SameSlot(g: Graph, g': Graph, c: nat, sk: SessionKey)
    requires KeepsAccount(g, g', c)
    ensures SlotOf(g', c, sk) == SlotOf(g, c, sk)
  {
  }

  lemma RefusedKeepsAccount(g: Graph, config: CoreConfig, i: nat, m: OutboundMessage, now: nat, g': Graph, c: nat)
    requires ChargedOnly(g, config, i, m, now, g') && c in g.connections && c in g'.connections
    ensures KeepsAccount(SpendOutcome(g, config, i, m, now).0, g', c)
  {
    SpendsOnlyBudgets(g, config, i, m, now);
  }

  lemma PublishMovesSlot(config: CoreConfig, channels: Channels, g: Graph, cmd: Command, g': Graph, accepted: bool,
                         c: nat, sk: SessionKey, policy: Policy) returns (event: Option<Event>)
    requires cmd.PublishCommand? && Executes(config, channels, g, cmd, g', accepted)
    requires c in g.connections && c in g'.connections
             && (sk in g.sessions ==> g.sessions[sk].rateLimit == Some(policy))
    ensures Moves(policy, SlotOf(g, c, sk), event, SlotOf(g', c, sk))
            && (event.Some? ==> event.value == PublishAt(cmd.now))
    ensures Counts(cmd, accepted, c, sk) ==> event.Some? && SlotOf(g, c, sk).Step(policy, event.value).1
  {
    if !accepted && g' == g { return None; }
    if accepted {
      var journal, journal', lost :| Published(g, journal, config, channels, cmd.who, cmd.message, cmd.verdict,
                                               cmd.now, g', journal', lost);
      PublishedKeepsAccount(g, journal, config, channels, cmd.who, cmd.message, cmd.verdict, cmd.now,
                            g', journal', lost, c);
    } else {
      RefusedKeepsAccount(g, config, cmd.who, cmd.message, cmd.now, g', c);
    }
    event := SpendMovesSlot(g, config, cmd.who, cmd.message, cmd.now, c, sk, policy);
    SameSlot(SpendOutcome(g, config, cmd.who, cmd.message, cmd.now).0, g', c, sk);
  }

  /** After the charge, a publish touches no budget. */
  lemma PublishedKeepsAccount(g: Graph, journal: seq<OutboundMessage>, config: CoreConfig, channels: Channels,
                              i: nat, m: OutboundMessage,
                              verdict: Verdict, now: nat, g': Graph, journal': seq<OutboundMessage>,
                                lost: seq<nat>, c: nat)
    requires Published(g, journal, config, channels, i, m, verdict, now, g', journal', lost)
             && c in g.connections && c in g'.connections
    ensures i in g.connections && SpendOutcome(g, config, i, m, now).1.None?
            && KeepsAccount(SpendOutcome(g, config, i, m, now).0, g', c)
  {
    var spent, plan, orders :|
      && i in g.connections && SpendOutcome(g, config, i, m, now) == (spent, None)
      && PublishedByPlan(spent, journal, config, channels, i, m, verdict, now, plan, g', journal', lost, orders);
    DeliveredKeepsAccount(spent, config, channels, m.Session(), plan, now, g', lost, orders, c);
  }

  /** The session, if it is there, is limited, to no more publishes and no shorter windows than these. */
  ghost predicate Governs(g: Graph, sk: SessionKey, most: nat, least: nat) {
    sk in g.sessions ==> g.sessions[sk].rateLimit.Some? && Within(g.sessions[sk].rateLimit.value, most, least)
  }

  ghost function InForce(g: Graph, sk: SessionKey, most: nat, least: nat): (policy: Policy)
    requires Governs(g, sk, most, least)
    ensures Within(policy, most, least) && (sk in g.sessions ==> g.sessions[sk].rateLimit == Some(policy))
  {
    if sk in g.sessions then g.sessions[sk].rateLimit.value else Policy(most, least)
  }

  /** The charge, if any, is of this instant and within the limits, and admits the publish if it counts. */
  ghost predicate Explains(slot: Slot, charge: Option<Charge>, now: nat, counted: bool, most: nat, least: nat) {
    && (charge.Some? ==> charge.value.event.now == now && Within(charge.value.policy, most, least))
    && (counted ==> charge.Some? && slot.Step(charge.value.policy, charge.value.event).1)
  }

  lemma OtherMovesSlot(g: Graph, effect: Effect, now: nat, g': Graph, c: nat, sk: SessionKey, most: nat, least: nat)
    returns (charge: Option<Charge>)
    requires Has(g, effect, g') && c in g.connections && c in g'.connections && Governs(g', sk, most, least)
    ensures Charged(SlotOf(g, c, sk), charge, SlotOf(g', c, sk))
            && Explains(SlotOf(g, c, sk), charge, now, false, most, least)
  {
    if effect.Rated? {
      charge := RatedMovesSlot(g, effect.session, effect.policy, now, c, sk);
    } else {
      EffectKeepsAccount(g, effect, g', c);
      SameSlot(g, g', c, sk);
      charge := None;
    }
  }

  /** Every command moves the slot by at most one event of its own instant, under the policy in force. */
  lemma CommandMovesSlot(config: CoreConfig, channels: Channels, g: Graph, cmd: Command, g': Graph, accepted: bool,
                         c: nat, sk: SessionKey, most: nat, least: nat) returns (charge: Option<Charge>)
    requires Executes(config, channels, g, cmd, g', accepted)
    requires c in g.connections && c in g'.connections && Governs(g, sk, most, least) && Governs(g', sk, most, least)
    ensures Charged(SlotOf(g, c, sk), charge, SlotOf(g', c, sk))
    ensures Explains(SlotOf(g, c, sk), charge, cmd.now, Counts(cmd, accepted, c, sk), most, least)
  {
    var policy := InForce(g, sk, most, least);
    if cmd.OtherCommand? {
      charge := OtherMovesSlot(g, cmd.effect, cmd.now, g', c, sk, most, least);
    } else {
      var event := None;
      match cmd {
        case JoinCommand(i, joined, now) => event := JoinMovesSlot(g, config, i, joined, now, c, sk, policy);
        case LeaveCommand(i, left, now) => event := LeaveMovesSlot(g, i, left, now, c, sk, policy);
        case PublishCommand(_, _, _, _) =>
          event := PublishMovesSlot(config, channels, g, cmd, g', accepted, c, sk, policy);
      }
      charge := if event.Some? then Some(Charge(policy, event.value)) else None;
    }
  }

  ghost predicate CoreRun(config: CoreConfig, channels: Channels, gs: seq<Graph>,
                          cmds: seq<Command>, accepted: seq<bool>,
                          c: nat, sk: SessionKey, most: nat, least: nat) {
    && |gs| == |cmds| + 1 && |accepted| == |cmds|
    && (forall n | 0 <= n < |cmds| :: Executes(config, channels, gs[n], cmds[n], gs[n + 1], accepted[n]))
    && (forall n | 0 <= n < |gs| :: c in gs[n].connections && Governs(gs[n], sk, most, least))
    && (forall i, j | 0 <= i < j < |cmds| :: cmds[i].now <= cmds[j].now)
  }

  lemma RunInit(config: CoreConfig, channels: Channels, gs: seq<Graph>, cmds: seq<Command>, accepted: seq<bool>,
                c: nat, sk: SessionKey, most: nat, least: nat)
    requires CoreRun(config, channels, gs, cmds, accepted, c, sk, most, least) && cmds != []
    ensures var n := |cmds| - 1; CoreRun(config, channels, gs[..n + 1], cmds[..n], accepted[..n], c, sk, most, least)
  {
    var n := |cmds| - 1;
    forall i | 0 <= i < n
      ensures Executes(config, channels, gs[..n + 1][i], cmds[..n][i], gs[..n + 1][i + 1], accepted[..n][i]) {
      assert Executes(config, channels, gs[i], cmds[i], gs[i + 1], accepted[i]);
    }
  }

  lemma ChargesSnoc(before: seq<Charge>, charge: Charge, most: nat, least: nat)
    requires Ordered(before) && (before != [] ==> Clock(before) <= charge.event.now)
    requires AllWithin(before, most, least) && Within(charge.policy, most, least)
    ensures Ordered(before + [charge]) && Clock(before + [charge]) == charge.event.now
            && AllWithin(before + [charge], most, least)
  {
  }

  /** One more charge, seen in the slot and in the count of admissions. */
  lemma ChargeAdded(before: seq<Charge>, charge: Charge, from: int, until: int)
    ensures RunSlot(before + [charge]) == RunSlot(before).Step(charge.policy, charge.event).0
    ensures CountIn(Admitted(before + [charge]), from, until)
         == CountIn(Admitted(before), from, until)
            + (if RunSlot(before).Step(charge.policy, charge.event).1 && from <= charge.event.now < until then 1 else 0)
  {
    var charges := before + [charge];
    assert charges[..|charges| - 1] == before && charges[|charges| - 1] == charge;
    if RunSlot(before).Step(charge.policy, charge.event).1 {
      CountSnoc(Admitted(before), charge.event.now, from, until);
    } else {
      assert Admitted(before) + [] == Admitted(before);
    }
  }

  lemma AcceptedAdded(cmds: seq<Command>, accepted: seq<bool>, c: nat, sk: SessionKey, from: int, until: int)
    requires |accepted| == |cmds| && cmds != []
    ensures var n := |cmds| - 1;
            var before := CountIn(AcceptedTimes(cmds[..n], accepted[..n], c, sk), from, until);
            CountIn(AcceptedTimes(cmds, accepted, c, sk), from, until)
            == before + (if Counts(cmds[n], accepted[n], c, sk) && from <= cmds[n].now < until then 1 else 0)
  {
    var n := |cmds| - 1;
    var before := AcceptedTimes(cmds[..n], accepted[..n], c, sk);
    if Counts(cmds[n], accepted[n], c, sk) {
      CountSnoc(before, cmds[n].now, from, until);
    } else {
      assert before + [] == before;
    }
  }

  /** The charges so far drive the slot machine to the slot in the tables and admit every accepted publish. */
  ghost predicate Tracks(charges: seq<Charge>, slot: Slot, clock: nat, times: seq<nat>, most: nat, least: nat,
                         from: int, until: int) {
    && Ordered(charges) && AllWithin(charges, most, least) && RunSlot(charges) == slot
       && (charges != [] ==> Clock(charges) <= clock)
    && CountIn(times, from, until) <= CountIn(Admitted(charges), from, until)
  }

  lemma TracksNext(before: seq<Charge>, slot: Slot, clock: nat, times: seq<nat>, most: nat,
                   least: nat, from: int, until: int,
                   charge: Option<Charge>, slot': Slot, now: nat, times': seq<nat>, counted: bool)
    returns (charges: seq<Charge>)
    requires Tracks(before, slot, clock, times, most, least, from, until) && clock <= now
    requires Charged(slot, charge, slot') && Explains(slot, charge, now, counted, most, least)
    requires CountIn(times', from, until)
          == CountIn(times, from, until) + (if counted && from <= now < until then 1 else 0)
    ensures Tracks(charges, slot', now, times', most, least, from, until)
  {
    charges := before;
    if charge.Some? {
      charges := before + [charge.value];
      ChargesSnoc(before, charge.value, most, least);
      ChargeAdded(before, charge.value, from, until);
    }
  }

  ghost function LastInstant(cmds: seq<Command>): nat {
    if cmds == [] then 0 else cmds[|cmds| - 1].now
  }

  lemma {:induction false} RunCharges(config: CoreConfig, channels: Channels, gs: seq<Graph>,
                                      cmds: seq<Command>, accepted: seq<bool>,
                                      c: nat, sk: SessionKey, most: nat, least: nat, from: int, until: int)
    returns (charges: seq<Charge>)
    requires CoreRun(config, channels, gs, cmds, accepted, c, sk, most, least) && SlotOf(gs[0], c, sk) == NO_SLOT
    ensures Tracks(charges, SlotOf(gs[|cmds|], c, sk), LastInstant(cmds), AcceptedTimes(cmds, accepted, c, sk),
                   most, least, from, until)
    decreases |cmds|
  {
    charges := [];
    if cmds != [] {
      var n := |cmds| - 1;
      RunInit(config, channels, gs, cmds, accepted, c, sk, most, least);
      var before := RunCharges(config, channels, gs[..n + 1], cmds[..n], accepted[..n], c, sk,
                               most, least, from, until);
      var charge := LastMoves(config, channels, gs, cmds, accepted, c, sk, most, least);
      AcceptedAdded(cmds, accepted, c, sk, from, until);
      charges := TracksNext(before, SlotOf(gs[n], c, sk), LastInstant(cmds[..n]),
                            AcceptedTimes(cmds[..n], accepted[..n], c, sk),
                            most, least, from, until, charge, SlotOf(gs[n + 1], c, sk), cmds[n].now,
                            AcceptedTimes(cmds, accepted, c, sk), Counts(cmds[n], accepted[n], c, sk));
    }
  }

  lemma LastMoves(config: CoreConfig, channels: Channels, gs: seq<Graph>, cmds: seq<Command>, accepted: seq<bool>,
                  c: nat, sk: SessionKey, most: nat, least: nat) returns (charge: Option<Charge>)
    requires CoreRun(config, channels, gs, cmds, accepted, c, sk, most, least) && cmds != []
    ensures var n := |cmds| - 1;
            && Charged(SlotOf(gs[n], c, sk), charge, SlotOf(gs[n + 1], c, sk))
            && Explains(SlotOf(gs[n], c, sk), charge, cmds[n].now, Counts(cmds[n], accepted[n], c, sk), most, least)
            && LastInstant(cmds[..n]) <= cmds[n].now
  {
    var n := |cmds| - 1;
    assert Executes(config, channels, gs[n], cmds[n], gs[n + 1], accepted[n]);
    charge := CommandMovesSlot(config, channels, gs[n], cmds[n], gs[n + 1], accepted[n], c, sk, most, least);
  }

  /** Over any run of the core with a clock that never goes back, the session's policy may change as long as
      there is one: an interval no longer than the shortest of its windows holds fewer than two of its largest
      budgets of publishes accepted from one connection into the session. */
  lemma AcceptedPublishesBounded(config: CoreConfig, channels: Channels, gs: seq<Graph>,
                                 cmds: seq<Command>, accepted: seq<bool>,
                                 c: nat, sk: SessionKey, most: nat, least: nat, t: int)
    requires CoreRun(config, channels, gs, cmds, accepted, c, sk, most, least) && SlotOf(gs[0], c, sk) == NO_SLOT
    requires most > 0 && least > 0
    ensures CountIn(AcceptedTimes(cmds, accepted, c, sk), t, t + least) <= 2 * most - 1
  {
    var charges := RunCharges(config, channels, gs, cmds, accepted, c, sk, most, least, t, t + least);
    FewerThanTwoBudgets(charges, most, least, t);
  }
}
