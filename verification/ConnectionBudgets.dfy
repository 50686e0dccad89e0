/** The budget a connection holds for itself, whatever sessions it publishes into: no other command moves it, and it
    bounds what the core accepts. */
module ConnectionBudgets {
  import opened Model
  import opened RateLimit
  import opened SessionGraph
  import opened Commands
  import opened Removing
  import opened MemberInvariants
  import opened Publishing
  import opened Fanout
  import opened PublishPipeline
  import opened Outcomes
  import opened Budgets

  /** The connection stays, with its own budget. */
  ghost predicate KeepsLimiter(g: Graph, g': Graph, c: nat) {
    c in g.connections && c in g'.connections && g'.connections[c].limiter == g.connections[c].limiter
  }

  // ------------------------------------------------------------------ commands that leave it alone

  lemma CascadeKeepsLimiter(g: Graph, sk: SessionKey, seed: set<nat>, c: nat)
    requires sk in g.sessions && c in g.connections
    ensures KeepsLimiter(g, RemoveCascade(g, sk, seed), c)
  {
  }

  lemma DetachKeepsLimiter(g: Graph, i: nat, sk: SessionKey, c: nat)
    requires i in g.connections && sk in g.sessions && c in g.connections
    ensures KeepsLimiter(g, Detach(g, i, sk), c)
  {
    CascadeKeepsLimiter(g, sk, OwnedIn(g.sessions[sk], i), c);
  }

  lemma {:induction false} DetachAllKeepsLimiter(g: Graph, i: nat, order: seq<SessionKey>, c: nat)
    requires i in g.connections && c in g.connections && PublishPipeline.Known(g, order)
    ensures KeepsLimiter(g, DetachAll(g, i, order), c)
  {
    if order != [] {
      var init, last := order[..|order| - 1], order[|order| - 1];
      KnownInit(g, order);
      DetachAllKeepsLimiter(g, i, init, c);
      DetachAllSnoc(g, i, init, last);
      OneMoreKeepsLimiter(g, DetachAll(g, i, init), DetachAll(g, i, init + [last]), i, last, c);
    }
  }

  lemma OneMoreKeepsLimiter(g: Graph, g1: Graph, g2: Graph, i: nat, sk: SessionKey, c: nat)
    requires KeepsLimiter(g, g1, c) && i in g1.connections && sk in g1.sessions && g2 == Detach(g1, i, sk)
    ensures KeepsLimiter(g, g2, c)
  {
    DetachKeepsLimiter(g1, i, sk, c);
  }

  lemma DisconnectKeepsLimiter(g: Graph, i: nat, order: seq<SessionKey>, c: nat)
    requires Covers(g, i, order) && c in g.connections && c != i
    ensures KeepsLimiter(g, Disconnect(g, i, order), c)
  {
    DetachAllKeepsLimiter(g, i, order, c);
  }

  lemma {:induction false} DisconnectAllKeepsLimiter(g: Graph, lost: seq<nat>, orders: seq<seq<SessionKey>>, c: nat)
    requires Loses(g, lost, orders) && c in g.connections && c !in lost
    ensures KeepsLimiter(g, DisconnectAll(g, lost, orders), c)
  {
    if lost != [] {
      var n := |lost| - 1;
      LosesInit(g, lost, orders);
      DisconnectAllKeepsLimiter(g, lost[..n], orders[..n], c);
      DisconnectKeepsLimiter(DisconnectAll(g, lost[..n], orders[..n]), lost[n], orders[n], c);
    }
  }

  lemma {:induction false} FanoutKeepsLimiter(g: Graph, config: CoreConfig, sk: SessionKey,
                                              messages: seq<OutboundMessage>, c: nat)
    requires RoutingReady(g, sk) && c in g.connections
    ensures KeepsLimiter(g, FanoutAll(g, config, sk, messages).0, c)
  {
    if messages != [] { FanoutKeepsLimiter(g, config, sk, messages[..|messages| - 1], c); }
  }

  lemma DeliveredKeepsLimiter(g: Graph, config: CoreConfig, channels: Channels, sk: SessionKey, plan: Plan, now: nat,
                              g': Graph, lost: seq<nat>, orders: seq<seq<SessionKey>>, c: nat)
    requires Delivered(g, config, channels, sk, plan, now, g', lost, orders)
             && c in g.connections && c in g'.connections
    ensures KeepsLimiter(g, g', c)
  {
    var committed := WithSession(g, sk, CommitPlan(SweepState(g.sessions[sk], now), channels, plan, now));
    var fanned := FanoutAll(committed, config, sk, plan.messages).0;
    FanoutKeepsLimiter(committed, config, sk, plan.messages, c);
    LosesExactly(fanned, lost, orders, c);
    DisconnectAllKeepsLimiter(fanned, lost, orders, c);
  }

  lemma EffectKeepsLimiter(g: Graph, effect: Effect, g': Graph, c: nat)
    requires Has(g, effect, g') && c in g.connections && c in g'.connections
    ensures KeepsLimiter(g, g', c)
  {
    match effect {
      case Rated(k, policy) =>
        assert g'.connections[c] == RatePolicy.Configured(g.connections[c], k, policy);
      case Advanced(k, space, epoch) => CascadeKeepsLimiter(g, k, EntitiesIn(g.sessions[k], space), c);
      case Lost(i, order) => DisconnectKeepsLimiter(g, i, order, c);
      case _ =>
    }
  }

  // ------------------------------------------------------------------ publishing

  /** The connection's own budget is charged first, under its policy and whatever follows; a budget for the session is
      charged only by a publish that has access. A publish passes exactly if both budgets admit it and it has access. */
  lemma SpendExactly(g: Graph, config: CoreConfig, c: nat, m: OutboundMessage, now: nat)
    requires c in g.connections
    ensures var (g', e) := SpendOutcome(g, config, c, m, now);
            var (conn, own) := (g.connections[c], g.connections[c].limiter.Admit(Some(config.publishRateLimit), now));
            && c in g'.connections && g'.connections[c].limiter == own.0
            && (own.1.Some? || CheckPublishAccess(g, c, m).Some?
                ==> e.Some? && g'.connections[c].sessionLimiters == conn.sessionLimiters)
            && (own.1.None? && CheckPublishAccess(g, c, m).None? ==>
                  && m.Session() in g.sessions && m.Session() in conn.sessionLimiters
                  && var spent := conn.sessionLimiters[m.Session()].Admit(g.sessions[m.Session()].rateLimit, now);
                     && (e.None? <==> spent.1.None?)
                     && g'.connections[c].sessionLimiters == conn.sessionLimiters[m.Session() := spent.0])
  {
    var charged := WithConnection(g, c, g.connections[c].(
                                  limiter := g.connections[c].limiter.Admit(Some(config.publishRateLimit), now).0));
    SameAccess(g, charged, c, m);
  }

  lemma SameAccess(g: Graph, g': Graph, c: nat, m: OutboundMessage)
    requires OnlyBudgets(g, g', c)
    ensures CheckPublishAccess(g', c, m) == CheckPublishAccess(g, c, m)
  {
  }

  /** The connection's budget as a slot that is never left. */
  function OwnSlot(g: Graph, config: CoreConfig, c: nat): Slot
    requires c in g.connections
  {
    Slot(true, Some(SessionLimiter(g.connections[c].limiter, true, config.publishRateLimit.window)))
  }

  /** A publish of the connection is a charge to its slot, and an accepted one is admitted; nothing else is. */
  lemma CommandMovesOwn(config: CoreConfig, channels: Channels, g: Graph, cmd: Command, g': Graph,
                        accepted: bool, c: nat)
    returns (charge: Option<Charge>)
    requires Executes(config, channels, g, cmd, g', accepted) && c in g.connections && c in g'.connections
    ensures Charged(OwnSlot(g, config, c), charge, OwnSlot(g', config, c))
    ensures charge.Some? ==> charge.value == Charge(config.publishRateLimit, PublishAt(cmd.now))
    ensures accepted && cmd.PublishCommand? && cmd.who == c
            ==> charge.Some? && OwnSlot(g, config, c).Step(charge.value.policy, charge.value.event).1
  {
    charge := None;
    match cmd {
      case OtherCommand(effect, _) => EffectKeepsLimiter(g, effect, g', c);
      case JoinCommand(i, joined, now) =>
      case LeaveCommand(i, left, _) =>
        if LeaveOutcome(g, i, left).1.None? { DetachKeepsLimiter(g, i, left, c); }
      case PublishCommand(i, m, verdict, now) =>
        if accepted || g' != g {
          PublishKeepsLimiter(config, channels, g, cmd, g', accepted, c);
          SpendExactly(g, config, i, m, now);
          if i == c { charge := Some(Charge(config.publishRateLimit, PublishAt(now))); }
        }
    }
  }

  /** After the charge, a publish touches no connection's budget. */
  lemma PublishKeepsLimiter(config: CoreConfig, channels: Channels, g: Graph, cmd: Command, g': Graph,
                            accepted: bool, c: nat)
    requires cmd.PublishCommand? && Executes(config, channels, g, cmd, g', accepted) && (accepted || g' != g)
    requires c in g.connections && c in g'.connections
    ensures cmd.who in g.connections
    ensures var (spent, e) := SpendOutcome(g, config, cmd.who, cmd.message, cmd.now);
            KeepsLimiter(spent, g', c) && (accepted ==> e.None?)
  {
    if accepted {
      var journal, journal', lost :| Published(g, journal, config, channels, cmd.who, cmd.message, cmd.verdict,
                                               cmd.now, g', journal', lost);
      PublishedKeepsLimiter(g, journal, config, channels, cmd.who, cmd.message, cmd.verdict, cmd.now,
                            g', journal', lost, c);
    } else {
      SpendsOnlyBudgets(g, config, cmd.who, cmd.message, cmd.now);
    }
  }

  lemma PublishedKeepsLimiter(g: Graph, journal: seq<OutboundMessage>, config: CoreConfig, channels: Channels,
                              i: nat, m: OutboundMessage, verdict: Verdict, now: nat, g': Graph,
                              journal': seq<OutboundMessage>, lost: seq<nat>, c: nat)
    requires Published(g, journal, config, channels, i, m, verdict, now, g', journal', lost)
             && c in g.connections && c in g'.connections
    ensures i in g.connections && SpendOutcome(g, config, i, m, now).1.None?
            && KeepsLimiter(SpendOutcome(g, config, i, m, now).0, g', c)
  {
    var spent, plan, orders :|
      && i in g.connections && SpendOutcome(g, config, i, m, now) == (spent, None)
      && PublishedByPlan(spent, journal, config, channels, i, m, verdict, now, plan, g', journal', lost, orders);
    DeliveredKeepsLimiter(spent, config, channels, m.Session(), plan, now, g', lost, orders, c);
  }

  // ------------------------------------------------------------------ runs

  predicate CountsOwn(cmd: Command, accepted: bool, c: nat) { accepted && cmd.PublishCommand? && cmd.who == c }

  /** The instants of the publishes of `c`, into any session, that the core accepted. */
  function AcceptedOf(cmds: seq<Command>, accepted: seq<bool>, c: nat): seq<nat>
    requires |accepted| == |cmds|
  {
    if cmds == [] then []
    else
      var n := |cmds| - 1;
      AcceptedOf(cmds[..n], accepted[..n], c) + (if CountsOwn(cmds[n], accepted[n], c) then [cmds[n].now] else [])
  }

  /** A run during which `c` stays connected, by a clock that never goes back. */
  ghost predicate ConnectedRun(config: CoreConfig, channels: Channels, gs: seq<Graph>, cmds: seq<Command>,
                               accepted: seq<bool>, c: nat) {
    && |gs| == |cmds| + 1 && |accepted| == |cmds|
    && (forall n | 0 <= n < |cmds| :: Executes(config, channels, gs[n], cmds[n], gs[n + 1], accepted[n]))
    && (forall n | 0 <= n < |gs| :: c in gs[n].connections)
    && (forall i, j | 0 <= i < j < |cmds| :: cmds[i].now <= cmds[j].now)
  }

  lemma ConnectedInit(config: CoreConfig, channels: Channels, gs: seq<Graph>, cmds: seq<Command>, accepted: seq<bool>,
                      c: nat)
    requires ConnectedRun(config, channels, gs, cmds, accepted, c) && cmds != []
    ensures var n := |cmds| - 1; ConnectedRun(config, channels, gs[..n + 1], cmds[..n], accepted[..n], c)
  {
    var n := |cmds| - 1;
    forall i | 0 <= i < n
      ensures Executes(config, channels, gs[..n + 1][i], cmds[..n][i], gs[..n + 1][i + 1], accepted[..n][i]) {
      assert Executes(config, channels, gs[i], cmds[i], gs[i + 1], accepted[i]);
    }
  }

  lemma OwnAdded(cmds: seq<Command>, accepted: seq<bool>, c: nat, from: int, until: int)
    requires |accepted| == |cmds| && cmds != []
    ensures var n := |cmds| - 1;
            CountIn(AcceptedOf(cmds, accepted, c), from, until)
            == CountIn(AcceptedOf(cmds[..n], accepted[..n], c), from, until)
               + (if CountsOwn(cmds[n], accepted[n], c) && from <= cmds[n].now < until then 1 else 0)
  {
    var n := |cmds| - 1;
    var before := AcceptedOf(cmds[..n], accepted[..n], c);
    if CountsOwn(cmds[n], accepted[n], c) {
      CountSnoc(before, cmds[n].now, from, until);
    } else {
      assert before + [] == before;
    }
  }

  /** A fresh slot is one that was just joined. */
  lemma FreshTracks(config: CoreConfig, slot: Slot, from: int, until: int)
    requires slot == Slot(true, Some(SessionLimiter(FRESH_LIMITER, true, config.publishRateLimit.window)))
    ensures var p := config.publishRateLimit;
            Tracks([Charge(p, JoinAt(0, true))], slot, 0, [], p.maxPublishes, p.window, from, until)
  {
    var first := Charge(config.publishRateLimit, JoinAt(0, true));
    assert [first][..0] == [] && [] + [first] == [first];
    ChargeAdded([], first, from, until);
  }

  lemma {:induction false} OwnCharges(config: CoreConfig, channels: Channels, gs: seq<Graph>, cmds: seq<Command>,
                                      accepted: seq<bool>, c: nat, from: int, until: int)
    returns (charges: seq<Charge>)
    requires ConnectedRun(config, channels, gs, cmds, accepted, c) && gs[0].connections[c].limiter == FRESH_LIMITER
    ensures var p := config.publishRateLimit;
            Tracks(charges, OwnSlot(gs[|cmds|], config, c), LastInstant(cmds), AcceptedOf(cmds, accepted, c),
                   p.maxPublishes, p.window, from, until)
    decreases |cmds|
  {
    var p := config.publishRateLimit;
    if cmds == [] {
      FreshTracks(config, OwnSlot(gs[0], config, c), from, until);
      return [Charge(p, JoinAt(0, true))];
    }
    var n := |cmds| - 1;
    ConnectedInit(config, channels, gs, cmds, accepted, c);
    var before := OwnCharges(config, channels, gs[..n + 1], cmds[..n], accepted[..n], c, from, until);
    assert Executes(config, channels, gs[n], cmds[n], gs[n + 1], accepted[n]);
    var charge := CommandMovesOwn(config, channels, gs[n], cmds[n], gs[n + 1], accepted[n], c);
    OwnAdded(cmds, accepted, c, from, until);
    charges := TracksNext(before, OwnSlot(gs[n], config, c), LastInstant(cmds[..n]),
                          AcceptedOf(cmds[..n], accepted[..n], c),
                          p.maxPublishes, p.window, from, until, charge, OwnSlot(gs[n + 1], config, c), cmds[n].now,
                          AcceptedOf(cmds, accepted, c), CountsOwn(cmds[n], accepted[n], c));
  }

  /** However a connection spreads its publishes over sessions, and whatever else happens: a window of its budget holds
      fewer than two budgets of publishes the core accepted from it. */
  lemma OwnPublishesBounded(config: CoreConfig, channels: Channels, gs: seq<Graph>, cmds: seq<Command>,
                            accepted: seq<bool>, c: nat, t: int)
    requires ConnectedRun(config, channels, gs, cmds, accepted, c) && gs[0].connections[c].limiter == FRESH_LIMITER
    requires config.publishRateLimit.Valid()
    ensures CountIn(AcceptedOf(cmds, accepted, c), t, t + config.publishRateLimit.window)
            <= 2 * config.publishRateLimit.maxPublishes - 1
  {
    var p := config.publishRateLimit;
    var charges := OwnCharges(config, channels, gs, cmds, accepted, c, t, t + p.window);
    FewerThanTwoBudgets(charges, p.maxPublishes, p.window, t);
  }
}
