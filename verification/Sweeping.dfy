/** The timer-driven sweep of expired state across all sessions. */
module Sweeping {
  import opened Cache
  import opened SessionGraph
  import opened Commands
  import opened MemberInvariants
  import opened Epochs
  import opened Checks
  import opened CoreSteps
  import opened PublishPipeline

  ghost function SweepSessions(ss: Sessions, now: nat): Sessions {
    map sk | sk in ss :: SweepState(ss[sk], now)
  }

  ghost function SweepAll(g: Graph, now: nat): Graph { g.(sessions := SweepSessions(g.sessions, now)) }

  /** Sweeps session by session, in any order. */
  method SweepEach(ss: Sessions, now: nat) returns (ss': Sessions)
    requires forall sk | sk in ss :: ss[sk].stateBytes == ByteLen(ss[sk].state)
    ensures ss' == SweepSessions(ss, now)
  {
    ss' := ss;
    var rest := ss.Keys;
    while rest != {}
      invariant rest <= ss.Keys
      invariant ss' == map sk | sk in ss :: if sk in rest then ss[sk] else SweepState(ss[sk], now)
    {
      var sk :| sk in rest;
      rest := rest - {sk};
      var s := SweepSession(ss'[sk], now);
      ss' := ss'[sk := s];
    }
  }

  lemma SweepsSessions(g: Graph, config: CoreConfig, now: nat)
    requires SessionsOk(g, config)
    ensures SessionsOk(SweepAll(g, now), config)
    ensures forall sk | sk in g.sessions :: g.sessions[sk].stateBytes == ByteLen(g.sessions[sk].state)
  {
    forall sk | sk in g.sessions ensures SessionOk(SweepState(g.sessions[sk], now), config) {
      SweepOk(g.sessions[sk], config, now);
    }
  }

  lemma SweepsLinks(g: Graph, now: nat)
    requires LinksOk(g)
    ensures LinksOk(SweepAll(g, now))
  {
    var g' := SweepAll(g, now);
    assert MembersKnown(g') && MembershipsKnown(g');
    assert SubscriptionsKnown(g') && SubscribersKnown(g');
    CountsSame(g, g');
  }

  lemma SweepsQueues(g: Graph, config: CoreConfig, now: nat)
    requires QueuesOk(g, config)
    ensures QueuesOk(SweepAll(g, now), config)
  {
    var g' := SweepAll(g, now);
    forall i, m | i in g'.connections && g'.connections[i].outbound.Holds(m) ensures Deliverable(g', i, m) {
      assert Deliverable(g, i, m);
    }
  }

  lemma SweepsLater(g: Graph, now: nat)
    ensures LaterGraph(g, SweepAll(g, now))
  {
    forall sk | sk in g.sessions ensures Later(g.sessions[sk], SweepState(g.sessions[sk], now)) {
      SameEpochs(g.sessions[sk], SweepState(g.sessions[sk], now));
    }
  }

  lemma SweepAllStep(g: Graph, config: CoreConfig, now: nat)
    requires Inv(g, config)
    ensures Advances(g, config, SweepAll(g, now))
  {
    SweepsSessions(g, config, now);
    SweepsLinks(g, now);
    SweepsQueues(g, config, now);
    assert BudgetsOk(SweepAll(g, now), config);
    SweepsLater(g, now);
  }
}
