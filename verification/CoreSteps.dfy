/** Each command that passes its checks takes a consistent graph to a consistent, later one. */
module CoreSteps {
  import opened Model
  import opened Queue
  import opened Spatial
  import opened Cache
  import opened SessionGraph
  import opened Removing
  import opened Commands
  import opened CommandInvariants
  import opened MemberInvariants
  import opened Fanout
  import opened Epochs
  import opened Checks

  /** One accepted command. */
  ghost predicate Advances(g: Graph, config: CoreConfig, g': Graph) { Inv(g', config) && LaterGraph(g, g') }

  lemma NoStep(g: Graph, config: CoreConfig)
    requires Inv(g, config)
    ensures Advances(g, config, g)
  {
    SameSessionsLater(g, g);
  }

  lemma ProvisionStep(g: Graph, config: CoreConfig, sk: SessionKey)
    requires Inv(g, config) && sk !in g.sessions
    ensures Advances(g, config, Provision(g, sk))
  {
    ProvisionKeepsInv(g, config, sk);
    ProvisionLater(g, sk);
  }

  lemma ProvisionLater(g: Graph, sk: SessionKey)
    requires sk !in g.sessions
    ensures LaterGraph(g, Provision(g, sk))
  {
    forall k | k in g.sessions ensures Later(g.sessions[k], Provision(g, sk).sessions[k]) {
      SameEpochs(g.sessions[k], g.sessions[k]);
    }
  }

  lemma InstallStep(g: Graph, config: CoreConfig, sk: SessionKey, d: SpaceDescriptor)
    requires Inv(g, config) && CheckInstall(g.sessions, config, sk, d).None?
    ensures sk in g.sessions && Advances(g, config, WithSession(g, sk, InstallSpace(g.sessions[sk], d)))
  {
    InstallAccepted(g, config, sk, d);
    InstallKeepsInv(g, config, sk, d);
    InstallLaterGraph(g, sk, d);
  }

  lemma InstallLaterGraph(g: Graph, sk: SessionKey, d: SpaceDescriptor)
    requires sk in g.sessions && d.id !in g.sessions[sk].spaces
    requires d.id in g.sessions[sk].tombstones ==> g.sessions[sk].tombstones[d.id] < d.epoch
    ensures LaterGraph(g, WithSession(g, sk, InstallSpace(g.sessions[sk], d)))
  {
    InstallLater(g.sessions[sk], d);
    WithSessionLater(g, WithSession(g, sk, InstallSpace(g.sessions[sk], d)), sk, InstallSpace(g.sessions[sk], d));
  }

  lemma AdvanceStep(g: Graph, config: CoreConfig, sk: SessionKey, space: nat, epoch: nat)
    requires Inv(g, config) && CheckAdvance(g.sessions, sk, space, epoch).None?
    ensures Advances(g, config, AdvanceEpoch(g, sk, space, epoch))
  {
    AdvanceKeepsInv(g, config, sk, space, epoch);
    SessionOf(g, config, sk);
    AdvanceLater(g, sk, space, epoch);
  }

  lemma CascadeStep(g: Graph, config: CoreConfig, sk: SessionKey, entities: set<nat>)
    requires Inv(g, config) && sk in g.sessions
    ensures Advances(g, config, RemoveCascade(g, sk, entities))
  {
    CascadeKeepsInv(g, config, sk, entities);
    SessionOf(g, config, sk);
    CascadeLater(g, sk, entities);
  }

  lemma ConnectStep(g: Graph, config: CoreConfig)
    requires Inv(g, config) && config.Valid() && g.nextConnection > 0
    ensures Advances(g, config, Connect(g))
  {
    ConnectKeepsInv(g, config);
    SameSessionsLater(g, Connect(g));
  }

  lemma ConnectionStep(g: Graph, config: CoreConfig, c: nat, conn: Connection)
    requires Inv(g, config) && c in g.connections
    requires conn.memberships == g.connections[c].memberships && conn.subscriptions == g.connections[c].subscriptions
    requires conn.ownedEntities == g.connections[c].ownedEntities
    requires conn.sessionLimiters.Keys == g.connections[c].sessionLimiters.Keys
    requires conn.outbound.Bounded(config.queue)
    requires forall m | conn.outbound.Holds(m) :: g.connections[c].outbound.Holds(m)
    ensures Advances(g, config, WithConnection(g, c, conn))
  {
    ReplaceConnection(g, config, c, conn);
    SameSessionsLater(g, WithConnection(g, c, conn));
  }

  lemma QueueOf(g: Graph, config: CoreConfig, c: nat)
    requires QueuesOk(g, config) && c in g.connections
    ensures g.connections[c].outbound.Bounded(config.queue)
  {
  }

  /** Credentials or budgets of a connection replaced. */
  lemma CredentialStep(g: Graph, config: CoreConfig, c: nat, conn: Connection)
    requires Inv(g, config) && c in g.connections
    requires conn == g.connections[c].(authenticated := conn.authenticated, limiter := conn.limiter,
                                       sessionLimiters := conn.sessionLimiters)
    requires conn.sessionLimiters.Keys == g.connections[c].sessionLimiters.Keys
    ensures Advances(g, config, WithConnection(g, c, conn))
  {
    QueueOf(g, config, c);
    ConnectionStep(g, config, c, conn);
  }

  /** A queue reduced to a selection of what it held. */
  lemma DrainStep(g: Graph, config: CoreConfig, c: nat, keep: OutboundMessage -> bool)
    requires Inv(g, config) && c in g.connections
    ensures Advances(g, config, WithConnection(g, c,
                                               g.connections[c].(outbound := g.connections[c].outbound.Keep(keep))))
  {
    QueueOf(g, config, c);
    KeepBounded(g.connections[c].outbound, config.queue, keep);
    ConnectionStep(g, config, c, g.connections[c].(outbound := g.connections[c].outbound.Keep(keep)));
  }

  lemma JoinStep(g: Graph, config: CoreConfig, c: nat, sk: SessionKey, now: nat)
    requires Inv(g, config) && CanJoin(g, config, c, sk, now)
    ensures Advances(g, config, Join(g, c, sk, now))
  {
    JoinKeepsInv(g, config, c, sk, now);
    var g' := Join(g, c, sk, now);
    SameEpochs(g.sessions[sk], g'.sessions[sk]);
    WithSessionLater(g, g', sk, g'.sessions[sk]);
  }

  /** Sweeping expired budgets of other sessions before a refused join. */
  lemma PruneStep(g: Graph, config: CoreConfig, c: nat, now: nat)
    requires Inv(g, config) && c in g.connections
    ensures Advances(g, config, WithConnection(g, c,
                                               g.connections[c].(sessionLimiters := Pruned(g.connections[c], now))))
  {
    var conn := g.connections[c].(sessionLimiters := Pruned(g.connections[c], now));
    var g' := WithConnection(g, c, conn);
    ReplaceLinks(g, c, conn);
    QueueOf(g, config, c);
    ReplaceQueues(g, config, c, conn);
    PruneRest(g, config, c, now);
    SameSessionsLater(g, g');
  }

  lemma PruneRest(g: Graph, config: CoreConfig, c: nat, now: nat)
    requires SessionsOk(g, config) && BudgetsOk(g, config) && c in g.connections
    ensures var g' := WithConnection(g, c, g.connections[c].(sessionLimiters := Pruned(g.connections[c], now)));
            SessionsOk(g', config) && BudgetsOk(g', config)
  {
    var conn := g.connections[c].(sessionLimiters := Pruned(g.connections[c], now));
    SubsetSize(conn.sessionLimiters.Keys, g.connections[c].sessionLimiters.Keys);
    BudgetsReplaced(g, WithConnection(g, c, conn), config, c, conn);
  }

  lemma DetachStep(g: Graph, config: CoreConfig, c: nat, sk: SessionKey)
    requires Inv(g, config) && c in g.connections && sk in g.sessions
    ensures Advances(g, config, Detach(g, c, sk))
  {
    DetachKeepsInv(g, config, c, sk);
    SessionOf(g, config, sk);
    DetachLater(g, c, sk);
  }

  lemma SubscribeStep(g: Graph, config: CoreConfig, c: nat, k: SpaceKey)
    requires Inv(g, config) && CheckSubscribe(g.connections, g.sessions, config, c, k).None?
             && k !in g.connections[c].subscriptions
    ensures CanSubscribe(g, config, c, k) && Advances(g, config, Subscribe(g, c, k))
  {
    SubscribeAccepted(g, config, c, k);
    SubscribeKeepsInv(g, config, c, k);
    var g' := Subscribe(g, c, k);
    SameEpochs(g.sessions[k.session], g'.sessions[k.session]);
    WithSessionLater(g, g', k.session, g'.sessions[k.session]);
  }

  lemma SpawnStep(g: Graph, config: CoreConfig, c: nat, k: SpaceKey, epoch: nat, principal: nat)
    requires Inv(g, config) && g.nextEntity > 0 && CheckSpawn(g.connections, g.sessions, config, c, k, epoch).None?
    ensures CanSpawn(g, config, c, k) && g.sessions[k.session].spaces[k.space].epoch == epoch
    ensures Advances(g, config, Spawn(g, c, k, principal))
  {
    SpawnAccepted(g, config, c, k, epoch);
    SpawnKeepsInv(g, config, c, k, principal);
    var g' := Spawn(g, c, k, principal);
    SameEpochs(g.sessions[k.session], g'.sessions[k.session]);
    WithSessionLater(g, g', k.session, g'.sessions[k.session]);
  }

  lemma MoveStep(g: Graph, config: CoreConfig, sk: SessionKey, e: nat, position: Position, cell: Option<CellKey>)
    requires Inv(g, config) && sk in g.sessions && CanMove(g.sessions[sk], e, position, cell)
    ensures Advances(g, config, WithSession(g, sk, Move(g.sessions[sk], e, position, cell)))
  {
    MoveKeepsInv(g, config, sk, e, position, cell);
    SameEpochs(g.sessions[sk], Move(g.sessions[sk], e, position, cell));
    WithSessionLater(g, WithSession(g, sk, Move(g.sessions[sk], e, position, cell)), sk,
                     Move(g.sessions[sk], e, position, cell));
  }

  lemma TransitionStep(g: Graph, config: CoreConfig, sk: SessionKey, e: nat, space: nat, epoch: nat)
    requires Inv(g, config) && sk in g.sessions && CanRelocate(g.sessions[sk], e, space, epoch)
    ensures Advances(g, config, Transition(g, sk, e, space, epoch))
  {
    TransitionKeepsInv(g, config, sk, e, space, epoch);
    var g' := Transition(g, sk, e, space, epoch);
    SameEpochs(g.sessions[sk], g'.sessions[sk]);
    WithSessionLater(g, g', sk, g'.sessions[sk]);
  }

  /** A session replaced by one that keeps every scope current and every epoch. */
  lemma ExtendStep(g: Graph, config: CoreConfig, sk: SessionKey, s': Session)
    requires Inv(g, config) && sk in g.sessions && Extends(g.sessions[sk], s') && SessionOk(s', config)
    requires s'.spaces == g.sessions[sk].spaces && s'.tombstones == g.sessions[sk].tombstones
    ensures Advances(g, config, WithSession(g, sk, s'))
  {
    ExtendKeepsInv(g, config, sk, s');
    SameEpochs(g.sessions[sk], s');
    WithSessionLater(g, WithSession(g, sk, s'), sk, s');
  }

  lemma SweepStep(g: Graph, config: CoreConfig, sk: SessionKey, now: nat)
    requires Inv(g, config) && sk in g.sessions
    ensures Advances(g, config, WithSession(g, sk, SweepState(g.sessions[sk], now)))
  {
    SessionOf(g, config, sk);
    SweepOk(g.sessions[sk], config, now);
    ExtendStep(g, config, sk, SweepState(g.sessions[sk], now));
  }

  lemma DisconnectStep(g: Graph, config: CoreConfig, c: nat, order: seq<SessionKey>)
    requires Inv(g, config) && Covers(g, c, order)
    ensures Advances(g, config, Disconnect(g, c, order))
  {
    DisconnectKeepsInv(g, config, c, order);
    DisconnectLater(g, config, c, order);
  }

  lemma Chain(g1: Graph, config: CoreConfig, g2: Graph, g3: Graph)
    requires Advances(g1, config, g2) && Advances(g2, config, g3)
    ensures Advances(g1, config, g3)
  {
    LaterGraphTransitive(g1, g2, g3);
  }
}
