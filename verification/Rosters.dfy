/** Who is connected as whom and who is a member of what, and how the commands change that. */
module Rosters {
  import opened Model
  import opened SessionGraph
  import opened Cascade
  import opened Removing
  import opened Commands
  import opened MemberInvariants
  import opened Routing
  import opened Publishing
  import opened Fanout
  import opened PublishPipeline
  import opened Outcomes
  import opened Ledgers
  import opened Epochs

  ghost function PrincipalsOf(g: Graph): map<nat, nat> {
    map c | c in g.connections && g.connections[c].authenticated.Some? :: g.connections[c].authenticated.value.id
  }

  ghost function MembersOf(g: Graph): set<Holder> {
    set c, sk | c in g.connections && sk in g.connections[c].memberships :: (c, sk)
  }

  ghost function RosterOf(g: Graph): Roster { Roster(PrincipalsOf(g), MembersOf(g)) }

  predicate SameIdentity(a: Connection, b: Connection)
  {
    a.authenticated == b.authenticated && a.memberships == b.memberships
  }

  ghost predicate SameIdentities(g: Graph, g': Graph) {
    g'.connections.Keys == g.connections.Keys && forall c | c in g.connections ::
      SameIdentity(g.connections[c], g'.connections[c])
  }

  lemma SameRoster(g: Graph, g': Graph)
    requires SameIdentities(g, g')
    ensures RosterOf(g') == RosterOf(g)
  {
    assert PrincipalsOf(g') == PrincipalsOf(g);
    forall h ensures h in MembersOf(g') <==> h in MembersOf(g) {}
  }

  /** The same, except that `c` joined or left `sk`. */
  ghost predicate SameButMember(g: Graph, g': Graph, c: nat, memberships: set<SessionKey>) {
    && c in g.connections && g'.connections.Keys == g.connections.Keys
    && g'.connections[c].authenticated == g.connections[c].authenticated && g'.connections[c].memberships == memberships
    && forall i | i in g.connections && i != c :: SameIdentity(g.connections[i], g'.connections[i])
  }

  lemma JoinedRoster(g: Graph, g': Graph, c: nat, sk: SessionKey)
    requires c in g.connections && SameButMember(g, g', c, g.connections[c].memberships + {sk})
    ensures RosterOf(g') == RosterOf(g).(members := RosterOf(g).members + {(c, sk)})
  {
    assert PrincipalsOf(g') == PrincipalsOf(g);
    forall h ensures h in MembersOf(g') <==> h in MembersOf(g) + {(c, sk)} {}
  }

  lemma LeftRoster(g: Graph, g': Graph, c: nat, sk: SessionKey)
    requires c in g.connections && SameButMember(g, g', c, g.connections[c].memberships - {sk})
    ensures RosterOf(g') == RosterOf(g).(members := RosterOf(g).members - {(c, sk)})
  {
    assert PrincipalsOf(g') == PrincipalsOf(g);
    forall h ensures h in MembersOf(g') <==> h in MembersOf(g) - {(c, sk)} {}
  }

  lemma LostRoster(g: Graph, g': Graph, c: nat)
    requires g'.connections.Keys == g.connections.Keys - {c}
    requires forall i | i in g'.connections :: SameIdentity(g.connections[i], g'.connections[i])
    ensures RosterOf(g') == WithoutConnection(RosterOf(g), c)
  {
    assert PrincipalsOf(g') == PrincipalsOf(g) - {c};
    forall h ensures h in MembersOf(g') <==> h in WithoutConnection(RosterOf(g), c).members {}
  }

  // ------------------------------------------------------------------ join and leave

  /** A successful join adds one membership, a refused one none. */
  lemma JoinOutcomeRoster(g: Graph, config: CoreConfig, c: nat, sk: SessionKey, now: nat)
    ensures var (g', e) := JoinOutcome(g, config, c, sk, now);
            RosterOf(g') == if e.None? then RosterOf(g).(members := RosterOf(g).members + {(c, sk)}) else RosterOf(g)
  {
    var (g', e) := JoinOutcome(g, config, c, sk, now);
    if e.None? {
      if sk in g.connections[c].memberships {
        assert g.connections[c].memberships + {sk} == g.connections[c].memberships;
      }
      JoinedRoster(g, g', c, sk);
    } else {
      SameRoster(g, g');
    }
  }

  lemma CascadeIdentities(g: Graph, sk: SessionKey, seed: set<nat>)
    requires sk in g.sessions
    ensures SameIdentities(g, RemoveCascade(g, sk, seed))
  {
  }

  lemma UnlinkIdentities(g: Graph, c: nat, sk: SessionKey)
    requires c in g.connections && sk in g.sessions
    ensures SameButMember(g, Unlink(g, c, sk), c, g.connections[c].memberships - {sk})
  {
  }

  lemma DetachIdentities(g: Graph, c: nat, sk: SessionKey)
    requires c in g.connections && sk in g.sessions
    ensures SameButMember(g, Detach(g, c, sk), c, g.connections[c].memberships - {sk})
  {
    var g1 := RemoveCascade(g, sk, OwnedIn(g.sessions[sk], c));
    CascadeIdentities(g, sk, OwnedIn(g.sessions[sk], c));
    UnlinkIdentities(g1, c, sk);
  }

  // ------------------------------------------------------------------ transport loss

  lemma {:induction false} DetachAllOthers(g: Graph, c: nat, order: seq<SessionKey>, i: nat)
    requires c in g.connections && i in g.connections && i != c && PublishPipeline.Known(g, order)
    ensures SameIdentity(g.connections[i], DetachAll(g, c, order).connections[i])
  {
    if order != [] {
      var init, last := order[..|order| - 1], order[|order| - 1];
      KnownInit(g, order);
      DetachAllOthers(g, c, init, i);
      DetachAllSnoc(g, c, init, last);
      OneMoreOther(g, DetachAll(g, c, init), DetachAll(g, c, init + [last]), c, last, i);
    }
  }

  lemma OneMoreOther(g: Graph, g1: Graph, g2: Graph, c: nat, sk: SessionKey, i: nat)
    requires i in g.connections && i in g1.connections && c in g1.connections && sk in g1.sessions && i != c
    requires SameIdentity(g.connections[i], g1.connections[i]) && g2 == Detach(g1, c, sk)
    ensures i in g2.connections && SameIdentity(g.connections[i], g2.connections[i])
  {
    DetachIdentities(g1, c, sk);
  }

  lemma DisconnectRoster(g: Graph, c: nat, order: seq<SessionKey>)
    requires Covers(g, c, order)
    ensures RosterOf(Disconnect(g, c, order)) == WithoutConnection(RosterOf(g), c)
  {
    var g' := Disconnect(g, c, order);
    DisconnectFrame(g, c, order);
    forall i | i in g'.connections ensures SameIdentity(g.connections[i], g'.connections[i]) {
      DetachAllOthers(g, c, order, i);
    }
    LostRoster(g, g', c);
  }

  ghost function WithoutAll(r: Roster, lost: seq<nat>): Roster {
    if lost == [] then r else WithoutConnection(WithoutAll(r, lost[..|lost| - 1]), lost[|lost| - 1])
  }

  lemma {:induction false} DisconnectAllRoster(g: Graph, lost: seq<nat>, orders: seq<seq<SessionKey>>)
    requires Loses(g, lost, orders)
    ensures RosterOf(DisconnectAll(g, lost, orders)) == WithoutAll(RosterOf(g), lost)
  {
    if lost != [] {
      var n := |lost| - 1;
      LosesInit(g, lost, orders);
      DisconnectAllRoster(g, lost[..n], orders[..n]);
      DisconnectRoster(DisconnectAll(g, lost[..n], orders[..n]), lost[n], orders[n]);
    }
  }

  // ------------------------------------------------------------------ publish

  lemma PushIdentities(g: Graph, config: CoreConfig, targets: set<nat>, m: OutboundMessage)
    ensures SameIdentities(g, PushTo(g, config, targets, m))
  {
  }

  lemma {:induction false} FanoutIdentities(g: Graph, config: CoreConfig, sk: SessionKey,
                                            messages: seq<OutboundMessage>)
    requires RoutingReady(g, sk)
    ensures SameIdentities(g, FanoutAll(g, config, sk, messages).0)
  {
    if messages != [] {
      var (g1, dropped) := FanoutAll(g, config, sk, messages[..|messages| - 1]);
      FanoutIdentities(g, config, sk, messages[..|messages| - 1]);
      var m := messages[|messages| - 1];
      PushIdentities(g1, config, Targets(g1, m, Recipients(g1.sessions[sk], m), dropped), m);
    }
  }

  lemma BudgetsRoster(g: Graph, spent: Graph, c: nat)
    requires OnlyBudgets(g, spent, c)
    ensures RosterOf(spent) == RosterOf(g)
  {
    SameRoster(g, spent);
  }

  lemma FansOutRoster(g: Graph, config: CoreConfig, sk: SessionKey, messages: seq<OutboundMessage>,
                      g': Graph, lost: seq<nat>,
                      orders: seq<seq<SessionKey>>)
    requires RoutingReady(g, sk) && FansOut(g, config, sk, messages, g', lost, orders)
    ensures RosterOf(g') == WithoutAll(RosterOf(g), lost)
  {
    var fanned := FanoutAll(g, config, sk, messages).0;
    FanoutIdentities(g, config, sk, messages);
    SameRoster(g, fanned);
    DisconnectAllRoster(fanned, lost, orders);
  }

  lemma DeliveredRoster(g: Graph, config: CoreConfig, channels: Channels, sk: SessionKey, plan: Plan, now: nat,
                        g': Graph, lost: seq<nat>, orders: seq<seq<SessionKey>>)
    requires Delivered(g, config, channels, sk, plan, now, g', lost, orders)
    ensures RosterOf(g') == WithoutAll(RosterOf(g), lost)
  {
    var committed := WithSession(g, sk, CommitPlan(SweepState(g.sessions[sk], now), channels, plan, now));
    SameRoster(g, committed);
    FansOutRoster(committed, config, sk, plan.messages, g', lost, orders);
  }

  /** A publish takes exactly the lost consumers off the roster. */
  lemma PublishedRoster(g: Graph, journal: seq<OutboundMessage>, config: CoreConfig, channels: Channels, c: nat,
                        m: OutboundMessage, verdict: Verdict, now: nat, g': Graph,
                          journal': seq<OutboundMessage>, lost: seq<nat>)
    requires Published(g, journal, config, channels, c, m, verdict, now, g', journal', lost)
    ensures RosterOf(g') == WithoutAll(RosterOf(g), lost)
  {
    var spent, plan, orders :|
      && c in g.connections && SpendOutcome(g, config, c, m, now) == (spent, None)
      && PublishedByPlan(spent, journal, config, channels, c, m, verdict, now, plan, g', journal', lost, orders);
    SpendsOnlyBudgets(g, config, c, m, now);
    BudgetsRoster(g, spent, c);
    DeliveredRoster(spent, config, channels, m.Session(), plan, now, g', lost, orders);
  }

  lemma RefusedRoster(g: Graph, config: CoreConfig, c: nat, m: OutboundMessage, now: nat, g': Graph)
    requires ChargedOnly(g, config, c, m, now, g')
    ensures RosterOf(g') == RosterOf(g)
  {
    var spent := SpendOutcome(g, config, c, m, now).0;
    SpendsOnlyBudgets(g, config, c, m, now);
    BudgetsRoster(g, spent, c);
    SameRoster(spent, g');
  }

  // ------------------------------------------------------------------ the sessions stay

  /** A later graph with the same sessions, each with its furniture: what clients do. */
  ghost predicate Serves(g: Graph, g': Graph) { LaterGraph(g, g') && FurnishedAll(g.sessions, g'.sessions) }

  lemma ServesTransitive(g1: Graph, g2: Graph, g3: Graph)
    requires Serves(g1, g2) && Serves(g2, g3)
    ensures Serves(g1, g3)
  {
    LaterGraphTransitive(g1, g2, g3);
    FurnishedTransitive(g1.sessions, g2.sessions, g3.sessions);
  }

  lemma ServesSelf(g: Graph)
    requires LaterGraph(g, g)
    ensures Serves(g, g)
  {
    FurnishedSelf(g.sessions);
  }

  /** Every removed space hangs on something: spaces without a parent stay. */
  lemma RootsStay(s: Session, entities: set<nat>, sp: nat)
    requires sp in s.spaces && s.spaces[sp].parent.None?
    ensures sp !in Closure(s, Removal(entities, {})).spaces
  {
    var nested := set q | q in s.spaces && s.spaces[q].parent.Some?;
    var all := Removal(entities + (set e | e in s.entities), nested);
    ClosureLeast(s, Removal(entities, {}), all);
  }

  lemma CascadeFurnished(s: Session, entities: set<nat>)
    ensures Furnished(s, RemoveFromSession(s, Closure(s, Removal(entities, {}))))
  {
    forall sp | sp in s.spaces && s.spaces[sp].parent.None? ensures sp !in Closure(s, Removal(entities, {})).spaces {
      RootsStay(s, entities, sp);
    }
  }

  lemma JoinServes(g: Graph, config: CoreConfig, c: nat, sk: SessionKey, now: nat)
    ensures FurnishedAll(g.sessions, JoinOutcome(g, config, c, sk, now).0.sessions)
  {
    FurnishedSelf(g.sessions);
    if sk in g.sessions { FurnishedOne(g.sessions, sk, g.sessions[sk].(members := g.sessions[sk].members + {c})); }
  }

  lemma DetachServes(g: Graph, c: nat, sk: SessionKey)
    requires c in g.connections && sk in g.sessions
    ensures FurnishedAll(g.sessions, Detach(g, c, sk).sessions)
  {
    CascadeFurnished(g.sessions[sk], OwnedIn(g.sessions[sk], c));
    var g1 := RemoveCascade(g, sk, OwnedIn(g.sessions[sk], c));
    UnlinkFurniture(g1, c, sk);
    FurnishedTwice(g.sessions, sk, g1.sessions, Unlink(g1, c, sk).sessions);
  }

  lemma FurnishedTwice(ss: map<SessionKey, Session>, sk: SessionKey, ss1: map<SessionKey, Session>,
                       ss2: map<SessionKey, Session>)
    requires sk in ss && sk in ss1 && sk in ss2 && ss1 == ss[sk := ss1[sk]] && ss2 == ss1[sk := ss2[sk]]
    requires Furnished(ss[sk], ss1[sk]) && ss2[sk].spaces == ss1[sk].spaces && ss2[sk].rateLimit == ss1[sk].rateLimit
    ensures FurnishedAll(ss, ss2)
  {
    FurnishedOne(ss, sk, ss2[sk]);
    assert ss2 == ss[sk := ss2[sk]];
  }

  lemma UnlinkFurniture(g: Graph, c: nat, sk: SessionKey)
    requires c in g.connections && sk in g.sessions
    ensures var g' := Unlink(g, c, sk);
            && sk in g'.sessions && g'.sessions == g.sessions[sk := g'.sessions[sk]]
            && g'.sessions[sk].spaces == g.sessions[sk].spaces && g'.sessions[sk].rateLimit == g.sessions[sk].rateLimit
  {
  }

  lemma LeaveServes(g: Graph, c: nat, sk: SessionKey)
    requires MembershipsExistIn(g, c)
    ensures FurnishedAll(g.sessions, LeaveOutcome(g, c, sk).0.sessions)
  {
    FurnishedSelf(g.sessions);
    if LeaveOutcome(g, c, sk).1.None? { DetachServes(g, c, sk); }
  }

  lemma {:induction false} DetachAllServes(g: Graph, c: nat, order: seq<SessionKey>)
    requires c in g.connections && PublishPipeline.Known(g, order)
    ensures FurnishedAll(g.sessions, DetachAll(g, c, order).sessions)
  {
    if order == [] {
      FurnishedSelf(g.sessions);
    } else {
      var init, last := order[..|order| - 1], order[|order| - 1];
      KnownInit(g, order);
      DetachAllServes(g, c, init);
      DetachAllSnoc(g, c, init, last);
      OneMoreServes(g, DetachAll(g, c, init), DetachAll(g, c, init + [last]), c, last);
    }
  }

  lemma OneMoreServes(g: Graph, g1: Graph, g2: Graph, c: nat, sk: SessionKey)
    requires FurnishedAll(g.sessions, g1.sessions) && c in g1.connections && sk in g1.sessions
             && g2 == Detach(g1, c, sk)
    ensures FurnishedAll(g.sessions, g2.sessions)
  {
    DetachServes(g1, c, sk);
    FurnishedTransitive(g.sessions, g1.sessions, g2.sessions);
  }

  lemma DisconnectServes(g: Graph, c: nat, order: seq<SessionKey>)
    requires Covers(g, c, order)
    ensures FurnishedAll(g.sessions, Disconnect(g, c, order).sessions)
  {
    DetachAllServes(g, c, order);
  }

  lemma {:induction false} LossesServe(g: Graph, lost: seq<nat>, orders: seq<seq<SessionKey>>)
    requires Loses(g, lost, orders)
    ensures FurnishedAll(g.sessions, DisconnectAll(g, lost, orders).sessions)
  {
    if lost == [] {
      FurnishedSelf(g.sessions);
    } else {
      var n := |lost| - 1;
      LosesInit(g, lost, orders);
      LossesServe(g, lost[..n], orders[..n]);
      var g1 := DisconnectAll(g, lost[..n], orders[..n]);
      DisconnectServes(g1, lost[n], orders[n]);
      FurnishedTransitive(g.sessions, g1.sessions, DisconnectAll(g, lost, orders).sessions);
    }
  }

  lemma CommittedFurnished(s: Session, channels: Channels, plan: Plan, now: nat)
    requires CanMoveTo(SweepState(s, now), plan.move)
    ensures Furnished(s, CommitPlan(SweepState(s, now), channels, plan, now))
  {
  }

  lemma DeliveredServes(g: Graph, config: CoreConfig, channels: Channels, sk: SessionKey, plan: Plan, now: nat,
                        g': Graph, lost: seq<nat>, orders: seq<seq<SessionKey>>)
    requires Delivered(g, config, channels, sk, plan, now, g', lost, orders)
    ensures FurnishedAll(g.sessions, g'.sessions)
  {
    var s := CommitPlan(SweepState(g.sessions[sk], now), channels, plan, now);
    CommittedFurnished(g.sessions[sk], channels, plan, now);
    FurnishedOne(g.sessions, sk, s);
    LossesServe(FanoutAll(WithSession(g, sk, s), config, sk, plan.messages).0, lost, orders);
    FurnishedTransitive(g.sessions, g.sessions[sk := s], g'.sessions);
  }

  lemma PublishedServes(g: Graph, journal: seq<OutboundMessage>, config: CoreConfig, channels: Channels, c: nat,
                        m: OutboundMessage, verdict: Verdict, now: nat, g': Graph, journal': seq<OutboundMessage>,
                        lost: seq<nat>)
    requires Published(g, journal, config, channels, c, m, verdict, now, g', journal', lost)
    ensures FurnishedAll(g.sessions, g'.sessions)
  {
    var spent, plan, orders :|
      && c in g.connections && SpendOutcome(g, config, c, m, now) == (spent, None)
      && PublishedByPlan(spent, journal, config, channels, c, m, verdict, now, plan, g', journal', lost, orders);
    SpendsOnlyBudgets(g, config, c, m, now);
    DeliveredServes(spent, config, channels, m.Session(), plan, now, g', lost, orders);
  }

  lemma RefusedServes(g: Graph, config: CoreConfig, c: nat, m: OutboundMessage, now: nat, g': Graph)
    requires ChargedOnly(g, config, c, m, now, g')
    ensures FurnishedAll(g.sessions, g'.sessions)
  {
    SpendsOnlyBudgets(g, config, c, m, now);
    FurnishedSelf(g.sessions);
    if m.Session() in g.sessions { FurnishedOne(g.sessions, m.Session(), SweepState(g.sessions[m.Session()], now)); }
  }
}
