/** The single-owner relay core: its tables are updated in place by one command at a time. Every
    command keeps the tables consistent and leaves a later state. */
module Core {
  import opened Model
  import opened Sequences
  import opened RateLimit
  import opened SessionGraph
  import opened Commands
  import opened CommandInvariants
  import opened MemberInvariants
  import opened Publishing
  import opened Fanout
  import opened Epochs
  import opened Checks
  import opened CoreSteps
  import opened PublishPipeline
  import opened Delivery
  import opened RatePolicy
  import opened Sweeping
  import opened Outcomes
  import opened Teardown

  class WovenCore {
    const config: CoreConfig
    const channels: Channels
    var graph: Graph
    var journal: seq<OutboundMessage>

    ghost predicate Valid()
      reads this
    {
      && config.Valid() && Inv(graph, config)
      && graph.nextConnection > 0 && graph.nextEntity > 0 && |journal| <= config.journalCapacity
    }

    constructor (config: CoreConfig, channels: Channels)
      requires config.Valid()
      ensures Valid() && this.config == config && this.channels == channels
      ensures graph == Graph(map[], map[], 1, 1) && journal == []
    {
      this.config, this.channels := config, channels;
      graph, journal := Graph(map[], map[], 1, 1), [];
    }

    // ---------------------------------------------------------------- sessions and spaces

    method ProvisionSession(sk: SessionKey) returns (r: Result<(), CoreError>)
      requires Valid()
      modifies this`graph
      ensures Valid() && LaterGraph(old(graph), graph)
      ensures r.Ok? <==> NonZeroSession(sk) && sk !in old(graph).sessions && |old(graph).sessions| != config.maxSessions
      ensures graph == if r.Ok? then Provision(old(graph), sk) else old(graph)
    {
      NoStep(graph, config);
      if !NonZeroSession(sk) { return Err(ReservedZeroId); }
      if sk in graph.sessions { return Err(SessionAlreadyProvisioned(sk)); }
      if |graph.sessions| == config.maxSessions { return Err(SessionLimitReached); }
      ProvisionStep(graph, config, sk);
      graph := Provision(graph, sk);
      return Ok(());
    }

    method SetSessionRateLimit(sk: SessionKey, policy: Option<Policy>) returns (r: Result<(), CoreError>)
      requires Valid()
      modifies this`graph
      ensures Valid() && LaterGraph(old(graph), graph)
      ensures r.Ok? <==> NonZeroSession(sk) && (policy.Some? ==> policy.value.Valid()) && sk in old(graph).sessions
      ensures graph == if r.Ok? then SetRateLimit(old(graph), sk, policy) else old(graph)
    {
      var e;
      graph, e := SetRateIn(graph, config, sk, policy);
      return if e.Some? then Err(e.value) else Ok(());
    }

    method InstallSpace(sk: SessionKey, d: SpaceDescriptor) returns (e: Option<CoreError>)
      requires Valid()
      modifies this`graph
      ensures Valid() && LaterGraph(old(graph), graph)
      ensures (graph, e) == InstallOutcome(old(graph), config, sk, d)
    {
      InstallOutcomeStep(graph, config, sk, d);
      graph, e := InstallIn(graph, config, sk, d);
    }

    /** Not atomic: emptying the space may take the space itself, and then the epoch is refused. */
    method AdvanceSpaceEpoch(sk: SessionKey, space: nat, epoch: nat) returns (e: Option<CoreError>)
      requires Valid()
      modifies this`graph
      ensures Valid() && LaterGraph(old(graph), graph)
      ensures (graph, e) == AdvanceOutcome(old(graph), sk, space, epoch)
    {
      PreparedOf(graph, config);
      AdvanceOutcomeStep(graph, config, sk, space, epoch);
      graph, e := AdvanceIn(graph, sk, space, epoch);
    }

    // ---------------------------------------------------------------- connections

    method TransportConnected() returns (r: Result<nat, CoreError>)
      requires Valid()
      modifies this`graph
      ensures Valid() && LaterGraph(old(graph), graph)
      ensures r.Ok? <==> |old(graph).connections| != config.maxConnections
      ensures graph == if r.Ok? then Connect(old(graph)) else old(graph)
      ensures r.Ok? ==> r.value == old(graph).nextConnection && r.value !in old(graph).connections
    {
      NoStep(graph, config);
      if |graph.connections| == config.maxConnections { return Err(ConnectionLimitReached); }
      ConnectStep(graph, config);
      FreshConnection(graph, config);
      var id := graph.nextConnection;
      graph := Connect(graph);
      return Ok(id);
    }

    /** `verdict` is the authenticator's answer to the credentials. */
    method Authenticate(c: nat, verdict: Option<Principal>) returns (r: Result<nat, CoreError>)
      requires Valid()
      modifies this`graph
      ensures Valid() && LaterGraph(old(graph), graph)
      ensures r.Ok? <==> c != 0 && c in old(graph).connections && old(graph).connections[c].authenticated.None?
                         && verdict.Some? && verdict.value.id != 0
      ensures graph == if r.Ok?
              then WithConnection(old(graph), c, old(graph).connections[c].(authenticated := verdict)) else old(graph)
    {
      NoStep(graph, config);
      if c == 0 { return Err(ReservedZeroId); }
      if c !in graph.connections { return Err(UnknownConnection(c)); }
      if graph.connections[c].authenticated.Some? { return Err(AlreadyAuthenticated); }
      if verdict.None? { return Err(AuthenticationFailed); }
      if verdict.value.id == 0 { return Err(ReservedZeroId); }
      CredentialStep(graph, config, c, graph.connections[c].(authenticated := verdict));
      graph := WithConnection(graph, c, graph.connections[c].(authenticated := verdict));
      return Ok(verdict.value.id);
    }

    method JoinSession(c: nat, sk: SessionKey, now: nat) returns (e: Option<CoreError>)
      requires Valid()
      modifies this`graph
      ensures Valid() && LaterGraph(old(graph), graph)
      ensures (graph, e) == JoinOutcome(old(graph), config, c, sk, now)
    {
      var g;
      g, e := JoinIn(graph, config, c, sk, now);
      JoinsStep(graph, config, c, sk, now, g);
      graph := g;
    }

    method LeaveSession(c: nat, sk: SessionKey) returns (e: Option<CoreError>)
      requires Valid()
      modifies this`graph
      ensures Valid() && LaterGraph(old(graph), graph)
      ensures MembershipsExistIn(old(graph), c) && (graph, e) == LeaveOutcome(old(graph), c, sk)
    {
      PreparedOf(graph, config);
      if c in graph.connections { MembershipsExist(graph, c); }
      var g;
      g, e := LeaveIn(graph, c, sk);
      LeavesStep(graph, config, c, sk, g);
      graph := g;
    }

    method TransportLost(c: nat) returns (r: Result<(), CoreError>, ghost order: seq<SessionKey>)
      requires Valid()
      modifies this`graph
      ensures Valid() && LaterGraph(old(graph), graph)
      ensures r.Ok? <==> c != 0 && c in old(graph).connections
      ensures r.Ok? ==> Covers(old(graph), c, order) && graph == Disconnect(old(graph), c, order)
      ensures r.Err? ==> graph == old(graph)
    {
      NoStep(graph, config);
      order := [];
      if c == 0 { return Err(ReservedZeroId), order; }
      if c !in graph.connections { return Err(UnknownConnection(c)), order; }
      var g;
      g, order := LoseConnection(graph, config, c);
      DisconnectStep(graph, config, c, order);
      graph := g;
      return Ok(()), order;
    }

    /** Takes a session off the core. The tables stay consistent exactly when nobody was a member of it. */
    method RemoveSession(sk: SessionKey)
      requires Valid()
      modifies this`graph
      ensures graph == DropSession(old(graph), sk) && (Valid() <==> Deserted(old(graph), sk))
    {
      DropExactly(graph, config, sk);
      graph := DropSession(graph, sk);
    }

    // ---------------------------------------------------------------- subscriptions

    method SubscribeTo(c: nat, k: SpaceKey) returns (r: Result<(), CoreError>)
      requires Valid()
      modifies this`graph
      ensures Valid() && LaterGraph(old(graph), graph)
      ensures var e := CheckSubscribe(old(graph).connections, old(graph).sessions, config, c, k);
              if e.Some? then r == Err(e.value) && graph == old(graph)
              else r.Ok? && if k in old(graph).connections[c].subscriptions then graph == old(graph)
                            else CanSubscribe(old(graph), config, c, k) && graph == Subscribe(old(graph), c, k)
    {
      NoStep(graph, config);
      var e := CheckSubscribe(graph.connections, graph.sessions, config, c, k);
      if e.Some? { return Err(e.value); }
      if k in graph.connections[c].subscriptions { return Ok(()); }
      SubscribeStep(graph, config, c, k);
      graph := Subscribe(graph, c, k);
      return Ok(());
    }

    method UnsubscribeFrom(c: nat, k: SpaceKey) returns (e: Option<CoreError>)
      requires Valid()
      modifies this`graph
      ensures Valid() && LaterGraph(old(graph), graph)
      ensures (graph, e) == UnsubscribeOutcome(old(graph), c, k)
      ensures e.None? ==> c in graph.connections && k !in graph.connections[c].subscriptions
    {
      SubscribedExistOf(graph, c);
      var g;
      g, e := UnsubscribeIn(graph, c, k);
      UnsubscribesStep(graph, config, c, k, g);
      graph := g;
    }

    // ---------------------------------------------------------------- entities

    method SpawnEntity(c: nat, k: SpaceKey, epoch: nat) returns (id: nat, e: Option<CoreError>)
      requires Valid()
      modifies this`graph
      ensures Valid() && LaterGraph(old(graph), graph)
      ensures (graph, e) == SpawnOutcome(old(graph), config, c, k, epoch) && id == old(graph).nextEntity
    {
      id := graph.nextEntity;
      SpawnOutcomeStep(graph, config, c, k, epoch);
      graph, e := SpawnIn(graph, config, c, k, epoch);
    }

    method UpdateEntityPosition(c: nat, sk: SessionKey, e: nat, position: Position) returns (refused: Option<CoreError>)
      requires Valid()
      modifies this`graph
      ensures Valid() && LaterGraph(old(graph), graph)
      ensures refused.None? <==> MayPlace(old(graph), c, sk, e, position)
      ensures if refused.None? then Places(old(graph), sk, e, position, graph) else graph == old(graph)
    {
      PreparedOf(graph, config);
      NoStep(graph, config);
      var g;
      g, refused := PlaceIn(graph, c, sk, e, position);
      if refused.None? { PlacesStep(graph, config, sk, e, position, g); }
      graph := g;
    }

    method RemoveEntity(c: nat, sk: SessionKey, e: nat) returns (refused: Option<CoreError>)
      requires Valid()
      modifies this`graph
      ensures Valid() && LaterGraph(old(graph), graph)
      ensures (graph, refused) == RemoveOutcome(old(graph), c, sk, e)
    {
      PreparedOf(graph, config);
      var g;
      g, refused := RemoveIn(graph, c, sk, e);
      RemovesStep(graph, config, sk, e, g);
      graph := g;
    }

    method TransitionEntity(c: nat, sk: SessionKey, e: nat, source: nat, sourceEpoch: nat,
                            destination: nat, destinationEpoch: nat)
      returns (refused: Option<CoreError>)
      requires Valid()
      modifies this`graph
      ensures Valid() && LaterGraph(old(graph), graph)
      ensures (graph, refused) == TransitionOutcome(old(graph), c, sk, e, source, sourceEpoch,
                                                    destination, destinationEpoch)
    {
      var g;
      PreparedOf(graph, config);
      g, refused := TransitionEntityIn(graph, c, sk, e, source, sourceEpoch, destination, destinationEpoch);
      TransitionsStep(graph, config, sk, e, destination, destinationEpoch, g);
      graph := g;
    }

    // ---------------------------------------------------------------- publish and delivery

    /** All or nothing. `verdict` is what the channel's authority answers. */
    method PublishAt(c: nat, m: OutboundMessage, verdict: Verdict, now: nat) returns (r: Result<seq<nat>, CoreError>)
      requires Valid()
      modifies this`graph, this`journal
      ensures Valid() && LaterGraph(old(graph), graph)
      ensures r.Ok? ==> Reaches(old(graph), config, channels, c, m, verdict, now, graph)
      ensures r.Ok?
              ==> Published(old(graph), old(journal), config, channels, c, m, verdict, now, graph, journal, r.value)
      ensures r.Err? ==> if c in old(graph).connections && c != 0
              then Refused(old(graph), old(journal), config, channels, c, m, verdict, now, graph, journal, r.error)
                         else graph == old(graph) && journal == old(journal)
    {
      NoStep(graph, config);
      if c == 0 { return Err(ReservedZeroId); }
      if c !in graph.connections { return Err(UnknownConnection(c)); }
      var g, j;
      g, j, r := PublishReaching(graph, config, channels, journal, c, m, verdict, now);
      graph, journal := g, j;
    }

    method PopJournalRecord() returns (r: Option<OutboundMessage>)
      requires Valid()
      modifies this`journal
      ensures Valid()
      ensures if r.Some? then old(journal) == [r.value] + journal else journal == old(journal) == []
    {
      if journal == [] { return None; }
      r := Some(journal[0]);
      journal := journal[1..];
    }

    /** The queued messages of the given spaces, lane by lane; the rest keep their order. */
    method DrainOutboundForSpaces(c: nat, spaces: set<SpaceKey>) returns (r: Result<seq<OutboundMessage>, CoreError>)
      requires Valid()
      modifies this`graph
      ensures Valid() && LaterGraph(old(graph), graph)
      ensures r.Ok? <==> c != 0 && c in old(graph).connections
      ensures r.Err? ==> graph == old(graph)
      ensures r.Ok? ==> var conn := old(graph).connections[c];
                        && r.value == conn.outbound.DrainMatching(InSpaces(spaces)).1
                        && graph == WithConnection(old(graph), c,
                                                   conn.(outbound := conn.outbound.Keep(Not(InSpaces(spaces)))))
    {
      NoStep(graph, config);
      if c == 0 { return Err(ReservedZeroId); }
      if c !in graph.connections { return Err(UnknownConnection(c)); }
      var conn := graph.connections[c];
      if spaces == {} {
        SpacesUntouched(conn.outbound);
        SameConnection(graph, c);
        return Ok([]);
      }
      DrainStep(graph, config, c, Not(InSpaces(spaces)));
      var (lanes, drained) := conn.outbound.DrainMatching(InSpaces(spaces));
      graph := WithConnection(graph, c, conn.(outbound := lanes));
      return Ok(drained);
    }

    method SweepExpiredState(now: nat)
      requires Valid()
      modifies this`graph
      ensures Valid() && LaterGraph(old(graph), graph) && graph == SweepAll(old(graph), now)
    {
      SweepsSessions(graph, config, now);
      SweepAllStep(graph, config, now);
      var ss := SweepEach(graph.sessions, now);
      graph := graph.(sessions := ss);
    }
  }
}
